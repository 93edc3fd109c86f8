# Text shaping of the Discord question-answering bot

The bot answers slash commands (`/summarize`, `/eli5`, `/search`, `/sql`,
`/sql-agent`, `/ask-ey`, `/board`) by calling language-model chains and
posting their output to Discord. Between the chains and the chat transport
sits a small text-shaping layer, and that layer is what this project models
and proves things about:

- **URL escaping** (`wrap_urls`, module `Urls`). Every match of
  `https?://\S+` is put between `<` and `>` so Discord does not embed it.
  It is modelled as a hand-written left-to-right scanner.
  - `MatchLen` is the greedy match at a position.
  - `Scan` is the segmentation into copied characters and matches.
  - `WrapUrls` is the rewrite itself.
- **Response prettifiers** (`prettify_agent_response`,
  `prettify_chain_response`, `prettify_qa_response`, module `Prettify`).
  They turn result dictionaries into markdown, each by `+=` inside a loop.
  - Each is a method with that loop, proved against a specification
    function of the text it builds (`AgentReport`, `ChainReport`,
    `AnswerBlock`/`SourceBlock`).
  - A result dictionary is a record: `fields` maps each key to the string
    of its entry, and the one structured entry is an `Option`.
  - A missing key is `Err(KeyError(key))`, naming the first lookup that
    fails.
- **Line clean-up** (module `Summarize`).
  - `remove_empty_lines` (`RemoveEmptyLines`) is `splitlines`, a filter on
    `strip()`, then `'\n'.join`.
  - The collapse of line-feed runs in `get_text_from_url`
    (`CollapseNewlines`).
- **Reply splitting and sending** (module `Bot`). A `Context` object
  records what `ctx.send` posted.
  - The long-reply handlers send a prefix with the first 1900 characters,
    then 2000-character slices (`SendLongReply`, specified by `LongReply`).
  - The Q&A handlers send the answer truncated to 2000 characters and,
    when asked, each source block truncated to 2000 (`AnswerQuestion`,
    specified by `QaReplies`).
  - A pipeline call is an `Outcome`: its returned value or its raised
    exception.
  - Each handler returns the exception that escapes it, if any.

Fixed simplifications:
- Whitespace, for `\S` and `strip()`, is six ASCII characters: space,
  tab, line feed, carriage return, vertical tab and form feed. Python also
  counts `\x1c`–`\x1f` and Unicode spaces; see "Left out".
- Only the line feed separates lines for `splitlines`.
- The footer ``\n\n `Temp: …, Model: …, Time: …s` `` is an opaque string
  parameter, appended before splitting.

## Model

| member | source | states |
|---|---|---|
| Urls.WrapUrls | utils.py:67-68 | the rewrite: copy characters until a match starts, copy the match between `<` and `>`, carry on after it; its meaning is stated by `WrapUrlsScan` and the lemmas below |
| Urls.SchemeLen | utils.py:68 | 8 when the text starts with `https://`, 7 when it starts with `http://`, 0 otherwise, in both directions |
| Urls.MatchLen | utils.py:68 | the match of `https?://\S+` at the start of the text, 0 when there is none; it is a URL, and no longer prefix of the text is one (greedy up to the next whitespace) |
| Urls.UrlWithBracket | utils.py:68 | `>` is not whitespace, so a URL followed by `>` is still a URL |
| Urls.NoMatchAtBracket | utils.py:68 | no match starts at a `<` |
| Urls.Scan | utils.py:68 | the pieces cover the input exactly: deleting the inserted `<`/`>` pairs gives the input back |
| Urls.ScanLexed | utils.py:68 | every piece is a match exactly where one starts, and then the longest one: matches are leftmost, greedy and do not overlap, and the text between them is copied verbatim |
| Urls.LexedUnique | utils.py:68 | a leftmost-greedy segmentation of a text is the one `Scan` makes |
| Urls.WrapUrlsScan | utils.py:67-68 | the output is the segmentation with every match between `<` and `>`, and its length is the input's plus two per match |
| Urls.LinkCountPositive | utils.py:68 | there is at least one match exactly when the pattern occurs somewhere in the text |
| Urls.WrapUrlsUnchanged | utils.py:67-68 | the text comes back unchanged exactly when it contains no match |
| Urls.WrapUrlsKeepsUrl | utils.py:68 | a text with a match still has one after wrapping |
| Urls.WrapUrlsIdempotentIff | utils.py:67-68 | wrapping twice equals wrapping once exactly when the text has no match |
| Urls.WrapBareUrl | utils.py:68 | a bare URL `u` becomes `<u>` |
| Urls.WrapUrlTwice | utils.py:68 | wrapping a bare URL twice gives `<<u>>` |
| Prettify.AgentReport | utils.py:32-45 | the text `prettify_agent_response` builds: `**Input:** {input}` and a blank line, then `**Thought:** {log}` / `**Observation:** _{result}_` for each step in order, then `\n**Output:** {output}`; `PrettifyAgentResponse` is proved to return it |
| Prettify.ThoughtsAppend | utils.py:36-41 | the steps' lines are rendered independently and in list order |
| Prettify.AgentReportStep | utils.py:34-43 | in the agent report, step `k` stands between the steps before it and after it |
| Prettify.AgentLoopStep | utils.py:40-41 | the two `+=` of loop turn `i` append exactly step `i`'s lines |
| Prettify.PrettifyAgentResponse | utils.py:28-45 | returns the agent report (input section, each step's thought and observation in order, output section) exactly when the input key, `intermediate_steps` and the output key are present; otherwise the `KeyError` of the first missing one in lookup order |
| Prettify.ChainReport | utils.py:53-63 | the text `prettify_chain_response` builds: the input section, the numbered step lines when `intermediate_steps` is present and nothing otherwise, then the output section; `PrettifyChainResponse` is proved to return it |
| Prettify.StepLines | utils.py:58-59 | line `i` is `**Step {first+i}:** {steps[i]}`: consecutive numbers in list order |
| Prettify.StepNumbered | utils.py:57-59 | in the chain report, step `k` is labelled `k` and stands between steps 0..k-1 and the rest |
| Prettify.NumberedSnoc | utils.py:58-59 | numbering one more step appends its line |
| Prettify.ChainLoopStep | utils.py:58-59 | the `+=` of loop turn `i` appends exactly `**Step i:** …` |
| Prettify.PrettifyChainResponse | utils.py:48-63 | returns the chain report exactly when both keys are present, otherwise the `KeyError` of the first missing one; without `intermediate_steps` the text is exactly `**Input:** q` followed by `\n\n\n**Output:** r` |
| Prettify.AnswerBlock | utils.py:79-81 | block 0: `**Question:** {q}`, a blank line, `**Answer:** {a}`, a line feed, `**Sources:** ` and the sources with their URLs wrapped |
| Prettify.SourceBlock | utils.py:85-87 | the block of one document: `**Source:** ` and the wrapped page content, a blank line, `**URL:** ` and the wrapped `source` entry |
| Prettify.PrettifyAnswer | utils.py:78-80 | block 0 is built exactly when the question key, the answer key and `sources` are present, otherwise the `KeyError` of the first missing one |
| Prettify.PrettifySource | utils.py:84-88 | a document's block is built exactly when its metadata has `source`, otherwise `KeyError("source")` |
| Prettify.PrettifyQaResponse | utils.py:72-90 | succeeds exactly when all keys and `source_documents` are present and every document has a `source`, otherwise the `KeyError` of the first failing lookup; on success it returns 1 + len(source_documents) blocks, block 0 the answer block, block i+1 built from document i |
| Prettify.AnswerBlockVerbatim | utils.py:78-80 | question and answer are inserted verbatim; when the sources have no URL the block is the three fields with nothing inserted |
| Prettify.SourceBlockLength | utils.py:85-86 | a source block is its fixed labels, its two texts and two characters per wrapped URL |
| Summarize.SplitLines | summarize.py:67 | `splitlines()` with `\n` as the only separator: the pieces of `split('\n')` less the empty piece after a final line feed, and no lines for the empty text |
| Summarize.RemoveEmptyLines | summarize.py:63-67 | `'\n'.join` of the lines whose `strip()` is not empty; its meaning is stated by `RemoveEmptyLinesLines` and the lemmas below |
| Summarize.SplitOnNewline | summarize.py:67 | the pieces between line feeds: at least one, none holds a line feed, and joined with `\n` they give the text back |
| Summarize.SplitJoin | summarize.py:67 | splitting is the inverse of joining pieces without line feeds |
| Summarize.SplitLinesJoin | summarize.py:67 | lines without line feeds, the last one not empty, survive a join then `splitlines` |
| Summarize.JoinSplitLines | summarize.py:67 | `splitlines` then `'\n'.join` gives the text back, less one final line feed |
| Summarize.NonBlankLinesProps | summarize.py:67 | the kept lines hold no line feed and none is blank |
| Summarize.NonBlankLinesFixed | summarize.py:67 | filtering leaves the lines unchanged exactly when none is blank |
| Summarize.RemoveEmptyLinesLines | summarize.py:63-67 | the lines of the result are the non-blank lines of the input, unmodified and in their order, and none of them is blank |
| Summarize.RemoveEmptyLinesIdempotent | summarize.py:63-67 | removing blank lines twice is removing them once |
| Summarize.RemoveEmptyLinesShape | summarize.py:63-67 | the result has no `\n\n`, and does not start or end with `\n` |
| Summarize.RemoveEmptyLinesUnchanged | summarize.py:63-67 | the text comes back unchanged exactly when it has no blank line and no final line feed |
| Summarize.CollapseNewlines | summarize.py:41 | no two line feeds stand together, the text starts with a line feed exactly when the input does, deleting every line feed from input and output gives the same text, and it is no longer than the input |
| Summarize.CollapseNewlinesPieces | summarize.py:41 | the text before the first line feed is kept, and the non-empty pieces between line feeds are the input's, in order: each run of line feeds became one line feed where the run stood |
| Summarize.CollapseNewlinesLast | summarize.py:41 | the result is empty only for the empty text and ends with the input's last character, so it ends with a line feed exactly when the input does |
| Summarize.CollapseFixpoint | summarize.py:41 | a text without `\n\n` is left alone |
| Summarize.CollapseIdempotent | summarize.py:41 | the collapse changes nothing exactly when there is no `\n\n`, and applying it twice equals applying it once |
| Text.NatToStringRoundTrip | utils.py:59 | the step number's decimal text reads back as the number |
| Text.NatToStringDigits | utils.py:59 | the step number's text is decimal digits without a leading zero |
| Bot.ResolveOptions | main.py:42-62 | a command runs exactly when the temperature, if given, lies in [0.0, 2.0] and the model, if given, is `gpt-3.5-turbo` or `gpt-4`; the model it runs with is then one of the two, `gpt-3.5-turbo` by default |
| Bot.Context.Send | main.py:67 | one send appends one message and leaves the earlier ones |
| Bot.SendLongReply | main.py:67-69 | the sends are the prefix with `s[:1900]`, then `s[i:i+2000]` for `i` in `range(1900, len(s), 2000)` |
| Bot.FollowUps | main.py:68-69 | the follow-up messages `s[i:i+2000]` for `i` in `range(from, len(s), 2000)`, in order |
| Bot.LongReply | main.py:67-69 | every message of a long reply: the prefix with `s[:1900]`, then the follow-ups from 1900; `SendLongReply` is proved to send exactly these |
| Bot.FollowUpsConcat | main.py:68-69 | the follow-up slices put together are the text from 1900 on |
| Bot.LongReplyRoundTrip | main.py:67-69 | first part followed by the follow-ups is the whole text: nothing lost, nothing repeated |
| Bot.FollowUpsCount | main.py:68 | the number of follow-ups is 0 when len(s) ≤ 1900, otherwise ceil((len(s) − 1900) / 2000) |
| Bot.FollowUpAt | main.py:68-69 | follow-up `k` is the slice starting at 1900 + 2000 k; it is non-empty and at most 2000 characters |
| Bot.LongReplyFits | main.py:94-96 | without a prefix the first message has at most 1900 characters and every message at most 2000 |
| Bot.SummaryFirstMessageLength | main.py:67 | the first summary message is 26 + len(url) + min(len(s), 1900) long, so it fits 2000 exactly when the URL and that slice take at most 1974 |
| Bot.Summarize | main.py:62-69 | sends the long reply under `Here is the summary of {url}:\n\n`; a pipeline failure escapes with nothing sent |
| Bot.Eli5 | main.py:75-82 | the same under `Here is the explanation of {url}:\n\n` |
| Bot.GuardedReply | main.py:91-98 | a caught exception becomes the one message `Error: {e}. Please try again.`; any other escapes with nothing sent; a result is sent as a long reply |
| Bot.Search | main.py:88-98 | catches `ValueError` only |
| Bot.SqlChain | main.py:109-119 | catches `OperationalError` only |
| Bot.SqlAgent | main.py:125-135 | catches `ValueError` only |
| Bot.Truncated | main.py:154-155 | every source block cut to its first 2000 characters, in order |
| Bot.QaReplies | main.py:148-155 | the messages of `/ask-ey` and `/board`: the answer block with the footer cut to 2000 characters, then, when `show_source` is set, each source block cut to 2000; `AnswerQuestion` is proved to send exactly these |
| Bot.TruncatedShape | main.py:154-155 | one truncated block per source block, in order, each its first 2000 characters |
| Bot.QaRepliesShape | main.py:148-155 | one message without sources, one per result block with them; message 0 is the answer with footer cut to 2000 characters, with no continuation; message k is block k cut to 2000 |
| Bot.AnswerQuestion | main.py:146-155 | sends exactly the Q&A replies; a pipeline failure escapes, and an empty result list raises `IndexError` at `result_list[0]`, in both cases with nothing sent |
| Bot.AskEy | main.py:141-155 | `/ask-ey` sends the Q&A replies and converts no exception |
| Bot.AskBoard | main.py:161-175 | `/board` sends the Q&A replies and converts no exception |

## Left out

- The chains and agents themselves: `summarize_url`, `eli5_url`, `search_agent`, `sql_chain`, `sql_agent`, `qa_ey` and `qa_board` call hosted language models, Pinecone, Google search and SQLite. The handlers take their result or exception as an `Outcome` parameter.
- The Discord client: command registration, `ctx.defer`, async/await, argparse, dotenv and `CMD_PREFIX`. `ctx.send` is an append to `Context.sent`, and it never fails.
- The `/hello` and `/table` handlers: `/hello` sends one greeting with the author's mention in it, `/table` one fixed sentence; neither splits nor shapes text.
- Logging: the handlers' `logger.info` calls (main.py:63, 76, 89, 110, 126, 142, 162) write to a log, not to the chat, and are not modelled.
- `timer` (utils.py:11-24) and the footer's `{time:.2f}` and `{temperature}` formatting involve a clock and floats. The footer is an opaque string parameter.
- Token handling and fetching in summarize.py (tiktoken truncation, `TokenTextSplitter`, requests, BeautifulSoup) are foreign libraries. The `summarize`/`eli5` chain calls are left out too.
- config.py is not part of this model beyond `DEFAULT_MODEL` (`gpt-3.5-turbo`), which is inlined.
- Urls.MatchLen: `\S` is read as "not one of space, tab, line feed, carriage return, vertical tab, form feed". Python's `\s` also matches the ASCII separators `\x1c`–`\x1f` and Unicode whitespace (such as U+0085, U+00A0 or U+2028); those are not modelled, so a URL runs on through them here.
- Summarize.RemoveEmptyLinesLines: `splitlines` is modelled as splitting at `\n` only. Python also splits at `\r`, `\r\n`, `\v`, `\f`, `\x1c`–`\x1e`, U+0085, U+2028 and U+2029. `strip()` is narrowed to the same six characters: `\x1c`–`\x1f` and Unicode whitespace, which Python strips too, count as content here.
- Prettify.PrettifyAgentResponse: every printed dictionary entry is given as its `str()`. A key parameter equal to `intermediate_steps` or `source_documents`, which would print the structured entry, is not modelled.
- Prettify.PrettifyQaResponse: a missing key is returned as an error value rather than raised. The same holds for the other two prettifiers.
- Bot.ResolveOptions: the `show_source` option (main.py:48-51) is a plain boolean with choices True and False. It needs no check and is the `showSource` parameter of the Q&A handlers.
- Bot.GuardedReply: an exception raised by `ctx.send` inside the `try` is not modelled, since sends never fail here.
