/**
 * The chat command handlers of main.py, as far as they shape and send
 * text.  `ctx.send` appends to the `sent` messages of a `Context`; the
 * pipelines a handler calls (summarize_url, search_agent, sql_chain,
 * sql_agent, qa_ey, qa_board) are given as their `Outcome`: the value they
 * returned, or the exception they raised.  The footer with temperature,
 * model and elapsed time is an opaque string.
 */
module Bot {
  import opened Wrappers
  import opened Text

  const MaxInitialMessageLength: nat := 1900
  const MaxMessageLength: nat := 2000

  const DefaultModel: string := "gpt-3.5-turbo"
  const ModelChoices: seq<string> := ["gpt-3.5-turbo", "gpt-4"]

  /** The exceptions a pipeline can raise, each with its `str()`. */
  datatype Exception =
    | ValueError(message: string)
    | OperationalError(message: string)
    | IndexError(message: string)
    | OtherError(message: string)

  /** What a call into a pipeline did. */
  datatype Outcome<T> = Returned(value: T) | Raised(exception: Exception)

  /** The options a command runs with once the chat platform accepted them. */
  datatype Settings = Settings(temperature: Option<real>, model: string)

  /** The declared constraints of the `temperature` and `model` options
      (main.py:42-47) and the handlers' default model (main.py:62): the
      platform refuses a value outside them. */
  function ResolveOptions(temperature: Option<real>, model: Option<string>): (r: Option<Settings>)
    ensures r.Some? <==>
              (temperature.None? || 0.0 <= temperature.value <= 2.0) &&
              (model.None? || model.value in ModelChoices)
    ensures r.Some? ==> r.value.model in ModelChoices
    ensures r.Some? ==> r.value.temperature == temperature
    ensures r.Some? && model.Some? ==> r.value.model == model.value
    ensures r.Some? && model.None? ==> r.value.model == DefaultModel
  {
    if temperature.Some? && !(0.0 <= temperature.value <= 2.0) then None
    else if model.Some? && model.value !in ModelChoices then None
    else Some(Settings(temperature, if model.Some? then model.value else DefaultModel))
  }

  /** The chat context of one command: what has been sent so far. */
  class Context {
    var sent: seq<string>

    constructor ()
      ensures sent == []
    {
      sent := [];
    }

    /** `ctx.send(message)`. */
    method Send(message: string)
      modifies this
      ensures sent == old(sent) + [message]
    {
      sent := sent + [message];
    }
  }

  // ------------------------------------------------------- splitting a reply

  /** The follow-up messages `s[i:i+2000]` for `i` in `range(from, len(s), 2000)`. */
  function FollowUps(s: string, from: nat): (messages: seq<string>)
    decreases |s| - from
  {
    if from >= |s| then []
    else [Slice(s, from, from + MaxMessageLength)] + FollowUps(s, from + MaxMessageLength)
  }

  /** All messages of a long reply: the prefix and `s[:1900]`, then the
      follow-ups from 1900 on. */
  function LongReply(prefix: string, s: string): (messages: seq<string>)
  {
    [prefix + Take(s, MaxInitialMessageLength)] + FollowUps(s, MaxInitialMessageLength)
  }

  /** The follow-ups put together are the rest of the text. */
  lemma {:induction false} FollowUpsConcat(s: string, from: nat)
    requires from <= |s|
    ensures Concat(FollowUps(s, from)) == s[from..]
    decreases |s| - from
  {
    if from < |s| {
      var next := from + MaxMessageLength;
      if next <= |s| {
        FollowUpsConcat(s, next);
        assert s[from..] == s[from..next] + s[next..];
      } else {
        assert FollowUps(s, next) == [];
      }
    }
  }

  /** Nothing of the reply is lost or repeated: the first slice and the
      follow-ups put together are the whole text. */
  lemma LongReplyRoundTrip(s: string)
    ensures Take(s, MaxInitialMessageLength) + Concat(FollowUps(s, MaxInitialMessageLength)) == s
  {
    if |s| > MaxInitialMessageLength {
      FollowUpsConcat(s, MaxInitialMessageLength);
      assert s == s[..MaxInitialMessageLength] + s[MaxInitialMessageLength..];
    } else {
      assert FollowUps(s, MaxInitialMessageLength) == [];
    }
  }

  /** There are ceil((len(s) - from) / 2000) follow-ups. */
  lemma {:induction false} FollowUpsCount(s: string, from: nat)
    ensures |FollowUps(s, from)| == if |s| <= from then 0 else (|s| - from + MaxMessageLength - 1) / MaxMessageLength
    decreases |s| - from
  {
    if from < |s| {
      FollowUpsCount(s, from + MaxMessageLength);
    }
  }

  /** Follow-up `k` is the slice that starts at `from + 2000 k`: none is
      empty and none is longer than 2000 characters. */
  lemma {:induction false} FollowUpAt(s: string, from: nat, k: nat)
    requires k < |FollowUps(s, from)|
    ensures from + k * MaxMessageLength < |s|
    ensures FollowUps(s, from)[k] == s[from + k * MaxMessageLength..Min(from + (k + 1) * MaxMessageLength, |s|)]
    ensures 0 < |FollowUps(s, from)[k]| <= MaxMessageLength
    decreases k
  {
    FollowUpsNext(s, from);
    if k > 0 {
      var next := from + MaxMessageLength;
      FollowUpAt(s, next, k - 1);
      assert FollowUps(s, from)[k] == FollowUps(s, next)[k - 1];
      assert next + (k - 1) * MaxMessageLength == from + k * MaxMessageLength;
      assert next + k * MaxMessageLength == from + (k + 1) * MaxMessageLength;
    }
  }

  /** Every message of a reply without a prefix fits the 2000-character
      limit, the first one the 1900-character limit. */
  lemma LongReplyFits(s: string)
    ensures |LongReply([], s)[0]| <= MaxInitialMessageLength
    ensures forall k :: 0 <= k < |LongReply([], s)| ==> |LongReply([], s)[k]| <= MaxMessageLength
  {
    var msgs := LongReply([], s);
    forall k | 0 < k < |msgs| ensures |msgs[k]| <= MaxMessageLength {
      FollowUpAt(s, MaxInitialMessageLength, k - 1);
      assert msgs[k] == FollowUps(s, MaxInitialMessageLength)[k - 1];
    }
  }

  /** The first message of summarize and eli5 carries the prefix on top of
      up to 1900 characters: with `Here is the summary of {url}:\n\n` it
      stays within 2000 characters exactly when the URL and the text's first
      1900 characters take at most 1974. */
  lemma SummaryFirstMessageLength(url: string, s: string)
    ensures |LongReply(SummaryPrefix(url), s)[0]| == 26 + |url| + Min(|s|, MaxInitialMessageLength)
    ensures |LongReply(SummaryPrefix(url), s)[0]| <= MaxMessageLength <==> |url| + Min(|s|, MaxInitialMessageLength) <= 1974
  {
  }

  /** Sends a long reply: the prefix with `s[:1900]`, then `s[i:i+2000]` for
      `i` in `range(1900, len(s), 2000)` (main.py:67-69). */
  method SendLongReply(ctx: Context, prefix: string, s: string)
    modifies ctx
    ensures ctx.sent == old(ctx.sent) + LongReply(prefix, s)
  {
    ctx.Send(prefix + Take(s, MaxInitialMessageLength));
    SentThen(old(ctx.sent), prefix + Take(s, MaxInitialMessageLength), FollowUps(s, MaxInitialMessageLength));
    var i := MaxInitialMessageLength;
    while i < |s|
      invariant old(ctx.sent) + LongReply(prefix, s) == ctx.sent + FollowUps(s, i)
      decreases |s| - i
    {
      FollowUpsNext(s, i);
      SentThen(ctx.sent, Slice(s, i, i + MaxMessageLength), FollowUps(s, i + MaxMessageLength));
      ctx.Send(Slice(s, i, i + MaxMessageLength));
      i := i + MaxMessageLength;
    }
  }

  /** Sending one message moves it from what is still to send to what was sent. */
  lemma SentThen(sent: seq<string>, message: string, rest: seq<string>)
    ensures sent + ([message] + rest) == sent + [message] + rest
  {
  }

  lemma FollowUpsNext(s: string, from: nat)
    requires from < |s|
    ensures FollowUps(s, from) == [Slice(s, from, from + MaxMessageLength)] + FollowUps(s, from + MaxMessageLength)
  {
  }

  // ------------------------------------------------------- handlers

  function SummaryPrefix(url: string): (prefix: string)
  {
    "Here is the summary of " + url + ":\n\n"
  }

  function ExplanationPrefix(url: string): (prefix: string)
  {
    "Here is the explanation of " + url + ":\n\n"
  }

  /** The message a caught exception turns into. */
  function ErrorMessage(e: Exception): (message: string)
  {
    "Error: " + e.message + ". Please try again."
  }

  /** `/summarize` (main.py:62-69): nothing catches a failure of the pipeline. */
  method Summarize(ctx: Context, url: string, outcome: Outcome<string>, footer: string)
    returns (escaped: Option<Exception>)
    modifies ctx
    ensures outcome.Raised? ==> escaped == Some(outcome.exception) && ctx.sent == old(ctx.sent)
    ensures outcome.Returned? ==>
              escaped == None && ctx.sent == old(ctx.sent) + LongReply(SummaryPrefix(url), outcome.value + footer)
  {
    if outcome.Raised? {
      return Some(outcome.exception);
    }
    var summary := outcome.value + footer;
    SendLongReply(ctx, SummaryPrefix(url), summary);
    return None;
  }

  /** `/eli5` (main.py:75-82). */
  method Eli5(ctx: Context, url: string, outcome: Outcome<string>, footer: string)
    returns (escaped: Option<Exception>)
    modifies ctx
    ensures outcome.Raised? ==> escaped == Some(outcome.exception) && ctx.sent == old(ctx.sent)
    ensures outcome.Returned? ==>
              escaped == None && ctx.sent == old(ctx.sent) + LongReply(ExplanationPrefix(url), outcome.value + footer)
  {
    if outcome.Raised? {
      return Some(outcome.exception);
    }
    var explanation := outcome.value + footer;
    SendLongReply(ctx, ExplanationPrefix(url), explanation);
    return None;
  }

  /** A reply under `try: ... except X as e`: an exception `catches` accepts
      becomes one error message, any other escapes with nothing sent. */
  method GuardedReply(ctx: Context, outcome: Outcome<string>, footer: string, catches: Exception -> bool)
    returns (escaped: Option<Exception>)
    modifies ctx
    ensures outcome.Raised? && catches(outcome.exception) ==>
              escaped == None && ctx.sent == old(ctx.sent) + [ErrorMessage(outcome.exception)]
    ensures outcome.Raised? && !catches(outcome.exception) ==>
              escaped == Some(outcome.exception) && ctx.sent == old(ctx.sent)
    ensures outcome.Returned? ==>
              escaped == None && ctx.sent == old(ctx.sent) + LongReply([], outcome.value + footer)
  {
    if outcome.Raised? {
      if catches(outcome.exception) {
        ctx.Send(ErrorMessage(outcome.exception));
        return None;
      }
      return Some(outcome.exception);
    }
    var result := outcome.value + footer;
    SendLongReply(ctx, [], result);
    return None;
  }

  /** `/search` (main.py:88-98) catches `ValueError`. */
  method Search(ctx: Context, outcome: Outcome<string>, footer: string)
    returns (escaped: Option<Exception>)
    modifies ctx
    ensures outcome.Raised? && outcome.exception.ValueError? ==>
              escaped == None && ctx.sent == old(ctx.sent) + [ErrorMessage(outcome.exception)]
    ensures outcome.Raised? && !outcome.exception.ValueError? ==>
              escaped == Some(outcome.exception) && ctx.sent == old(ctx.sent)
    ensures outcome.Returned? ==>
              escaped == None && ctx.sent == old(ctx.sent) + LongReply([], outcome.value + footer)
  {
    escaped := GuardedReply(ctx, outcome, footer, (e: Exception) => e.ValueError?);
  }

  /** `/sql` (main.py:109-119) catches `sqlite3.OperationalError`. */
  method SqlChain(ctx: Context, outcome: Outcome<string>, footer: string)
    returns (escaped: Option<Exception>)
    modifies ctx
    ensures outcome.Raised? && outcome.exception.OperationalError? ==>
              escaped == None && ctx.sent == old(ctx.sent) + [ErrorMessage(outcome.exception)]
    ensures outcome.Raised? && !outcome.exception.OperationalError? ==>
              escaped == Some(outcome.exception) && ctx.sent == old(ctx.sent)
    ensures outcome.Returned? ==>
              escaped == None && ctx.sent == old(ctx.sent) + LongReply([], outcome.value + footer)
  {
    escaped := GuardedReply(ctx, outcome, footer, (e: Exception) => e.OperationalError?);
  }

  /** `/sql-agent` (main.py:125-135) catches `ValueError`. */
  method SqlAgent(ctx: Context, outcome: Outcome<string>, footer: string)
    returns (escaped: Option<Exception>)
    modifies ctx
    ensures outcome.Raised? && outcome.exception.ValueError? ==>
              escaped == None && ctx.sent == old(ctx.sent) + [ErrorMessage(outcome.exception)]
    ensures outcome.Raised? && !outcome.exception.ValueError? ==>
              escaped == Some(outcome.exception) && ctx.sent == old(ctx.sent)
    ensures outcome.Returned? ==>
              escaped == None && ctx.sent == old(ctx.sent) + LongReply([], outcome.value + footer)
  {
    escaped := GuardedReply(ctx, outcome, footer, (e: Exception) => e.ValueError?);
  }

  // ------------------------------------------------------- Q&A handlers

  /** Every block cut to its first 2000 characters. */
  function Truncated(blocks: seq<string>): (r: seq<string>)
  {
    if blocks == [] then [] else [Take(blocks[0], MaxMessageLength)] + Truncated(blocks[1..])
  }

  /** The messages of `/ask-ey` and `/board`: the answer block with the
      footer, cut to 2000 characters, then, if asked for, each source block
      cut to 2000 characters. */
  function QaReplies(resultList: seq<string>, footer: string, showSource: bool): (messages: seq<string>)
    requires resultList != []
  {
    [Take(resultList[0] + footer, MaxMessageLength)] + (if showSource then Truncated(resultList[1..]) else [])
  }

  lemma {:induction false} TruncatedShape(blocks: seq<string>)
    ensures |Truncated(blocks)| == |blocks|
    ensures forall k :: 0 <= k < |blocks| ==> Truncated(blocks)[k] == Take(blocks[k], MaxMessageLength)
  {
    if blocks != [] {
      TruncatedShape(blocks[1..]);
      var t := Truncated(blocks);
      forall k | 0 < k < |blocks| ensures t[k] == Take(blocks[k], MaxMessageLength) {
        assert t[k] == Truncated(blocks[1..])[k - 1];
        assert blocks[k] == blocks[1..][k - 1];
      }
    }
  }

  /** One message without sources, one per block with them; message `k` is
      the start of block `k`, at most 2000 characters, and the whole block
      when it is no longer; what is beyond is dropped and never sent. */
  lemma QaRepliesShape(resultList: seq<string>, footer: string, showSource: bool)
    requires resultList != []
    ensures |QaReplies(resultList, footer, showSource)| == if showSource then |resultList| else 1
    ensures QaReplies(resultList, footer, showSource)[0] == Take(resultList[0] + footer, MaxMessageLength)
    ensures forall k :: 0 < k < |QaReplies(resultList, footer, showSource)| ==>
              QaReplies(resultList, footer, showSource)[k] == Take(resultList[k], MaxMessageLength)
    ensures forall k :: 0 <= k < |QaReplies(resultList, footer, showSource)| ==>
              |QaReplies(resultList, footer, showSource)[k]| <= MaxMessageLength
  {
    var rest := resultList[1..];
    TruncatedShape(rest);
    var msgs := QaReplies(resultList, footer, showSource);
    forall k | 0 < k < |msgs| ensures msgs[k] == Take(resultList[k], MaxMessageLength) {
      assert msgs[k] == Truncated(rest)[k - 1];
      assert rest[k - 1] == resultList[k];
    }
  }

  /** The Q&A handlers' sending (main.py:146-155, 166-175); an empty result
      list fails at `result_list[0]` with an `IndexError`. */
  method AnswerQuestion(ctx: Context, outcome: Outcome<seq<string>>, footer: string, showSource: bool)
    returns (escaped: Option<Exception>)
    modifies ctx
    ensures outcome.Raised? ==> escaped == Some(outcome.exception) && ctx.sent == old(ctx.sent)
    ensures outcome.Returned? && outcome.value == [] ==>
              escaped == Some(IndexError("list index out of range")) && ctx.sent == old(ctx.sent)
    ensures outcome.Returned? && outcome.value != [] ==>
              escaped == None && ctx.sent == old(ctx.sent) + QaReplies(outcome.value, footer, showSource)
  {
    if outcome.Raised? {
      return Some(outcome.exception);
    }
    var resultList := outcome.value;
    if resultList == [] {
      return Some(IndexError("list index out of range"));
    }
    var result := resultList[0];
    result := result + footer;
    ctx.Send(Take(result, MaxMessageLength));
    if showSource {
      var sources := resultList[1..];
      for i := 0 to |sources|
        invariant old(ctx.sent) + QaReplies(resultList, footer, showSource) ==
                  ctx.sent + Truncated(sources[i..])
      {
        assert sources[i..][1..] == sources[i + 1..];
        ctx.Send(Take(sources[i], MaxMessageLength));
      }
    }
    return None;
  }

  /** `/ask-ey` (main.py:141-155). */
  method AskEy(ctx: Context, outcome: Outcome<seq<string>>, footer: string, showSource: bool)
    returns (escaped: Option<Exception>)
    modifies ctx
    ensures outcome.Raised? ==> escaped == Some(outcome.exception) && ctx.sent == old(ctx.sent)
    ensures outcome.Returned? && outcome.value == [] ==>
              escaped == Some(IndexError("list index out of range")) && ctx.sent == old(ctx.sent)
    ensures outcome.Returned? && outcome.value != [] ==>
              escaped == None && ctx.sent == old(ctx.sent) + QaReplies(outcome.value, footer, showSource)
  {
    escaped := AnswerQuestion(ctx, outcome, footer, showSource);
  }

  /** `/board` (main.py:161-175). */
  method AskBoard(ctx: Context, outcome: Outcome<seq<string>>, footer: string, showSource: bool)
    returns (escaped: Option<Exception>)
    modifies ctx
    ensures outcome.Raised? ==> escaped == Some(outcome.exception) && ctx.sent == old(ctx.sent)
    ensures outcome.Returned? && outcome.value == [] ==>
              escaped == Some(IndexError("list index out of range")) && ctx.sent == old(ctx.sent)
    ensures outcome.Returned? && outcome.value != [] ==>
              escaped == None && ctx.sent == old(ctx.sent) + QaReplies(outcome.value, footer, showSource)
  {
    escaped := AnswerQuestion(ctx, outcome, footer, showSource);
  }
}
