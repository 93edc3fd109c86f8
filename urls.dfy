/**
 * URL escaping for chat (utils.py:67-68): every match of the regular
 * expression `https?://\S+` is wrapped in angle brackets so that the chat
 * client does not expand it into a preview.  The substitution is modelled
 * as a left-to-right scanner; `Scan` is the segmentation of the input into
 * verbatim characters and matches that the scanner follows, and `Lexed`
 * says what a leftmost, greedy segmentation is.
 */
module Urls {
  import opened Text

  /** The text matches `https?://\S+` as a whole. */
  predicate IsUrl(u: string)
  {
    (HasPrefix(u, "http://") && |u| > 7 && NoSpace(u[7..])) ||
    (HasPrefix(u, "https://") && |u| > 8 && NoSpace(u[8..]))
  }

  /** Length of the scheme `https?://` at the start of `s`, or 0. */
  function SchemeLen(s: string): (n: nat)
    ensures n == 7 <==> HasPrefix(s, "http://")
    ensures n == 8 <==> HasPrefix(s, "https://")
    ensures n == 0 || n == 7 || n == 8
  {
    if HasPrefix(s, "https://") then
      assert s[..7][4] == 's';
      8
    else if HasPrefix(s, "http://") then 7
    else 0
  }

  /** Length of the run of non-whitespace characters that starts `t`. */
  function NonSpaceRun(t: string): (n: nat)
    ensures n <= |t|
    ensures NoSpace(t[..n])
    ensures n == |t| || IsSpace(t[n])
  {
    if t == [] || IsSpace(t[0]) then 0 else 1 + NonSpaceRun(t[1..])
  }

  /** A whitespace character anywhere after the scheme rules a match out. */
  lemma SpaceEndsUrl(u: string, i: nat)
    requires 8 <= i < |u| && IsSpace(u[i])
    ensures !IsUrl(u)
  {
    assert u[7..][i - 7] == u[i];
    assert u[8..][i - 8] == u[i];
  }

  /** Without a scheme followed by a non-whitespace character, no prefix of
      `s` matches. */
  lemma NoUrlPrefix(s: string, k: nat)
    requires 0 < k <= |s|
    requires !(SchemeLen(s) > 0 && SchemeLen(s) < |s| && !IsSpace(s[SchemeLen(s)]))
    ensures !IsUrl(s[..k])
  {
    var u := s[..k];
    if |u| >= 7 {
      assert u[..7] == s[..7];
    }
    if |u| >= 8 {
      assert u[..8] == s[..8];
    }
    if |u| > 7 {
      assert u[7..][0] == s[7];
    }
    if |u| > 8 {
      assert u[8..][0] == s[8];
    }
  }

  /** Length of the match of `https?://\S+` anchored at the start of `s`, 0
      when there is none.  The match is the longest one: `\S+` is greedy. */
  function MatchLen(s: string): (n: nat)
    ensures n <= |s|
    ensures n > 0 ==> IsUrl(s[..n])
    ensures forall k :: n < k <= |s| ==> !IsUrl(s[..k])
  {
    var p := SchemeLen(s);
    if p > 0 && p < |s| && !IsSpace(s[p]) then
      var n := p + NonSpaceRun(s[p..]);
      assert s[..n][p..] == s[p..][..n - p];
      assert s[..n][..p] == s[..p];
      assert forall k :: n < k <= |s| ==> !IsUrl(s[..k]) by {
        forall k | n < k <= |s| ensures !IsUrl(s[..k]) {
          assert s[..k][n] == s[p..][n - p];
          SpaceEndsUrl(s[..k], n);
        }
      }
      n
    else
      assert forall k :: 0 < k <= |s| ==> !IsUrl(s[..k]) by {
        forall k | 0 < k <= |s| ensures !IsUrl(s[..k]) {
          NoUrlPrefix(s, k);
        }
      }
      0
  }

  /** Text that starts with a URL has a match at its start. */
  lemma UrlStartsMatch(u: string, t: string)
    requires IsUrl(u) && HasPrefix(t, u)
    ensures MatchLen(t) > 0
  {
    assert t[..|u|] == u;
  }

  /** Some match of the pattern starts somewhere in `s`. */
  ghost predicate HasUrl(s: string)
  {
    exists i :: 0 <= i < |s| && MatchLen(s[i..]) > 0
  }

  /** A piece of the scanned text: one character copied verbatim, or one match. */
  datatype Piece = Char(c: char) | Link(url: string)

  /** The input text that the pieces cover. */
  function Plain(ps: seq<Piece>): (t: string)
  {
    if ps == [] then []
    else (match ps[0] case Char(c) => [c] case Link(u) => u) + Plain(ps[1..])
  }

  /** The output text: the pieces with every match wrapped in `<` and `>`. */
  function Rendered(ps: seq<Piece>): (t: string)
  {
    if ps == [] then []
    else (match ps[0] case Char(c) => [c] case Link(u) => "<" + u + ">") + Rendered(ps[1..])
  }

  function LinkCount(ps: seq<Piece>): (n: nat)
  {
    if ps == [] then 0 else (if ps[0].Link? then 1 else 0) + LinkCount(ps[1..])
  }

  /** A segmentation is leftmost and greedy when a match is taken wherever
      one starts, and then the longest one. */
  ghost predicate Lexed(ps: seq<Piece>)
  {
    forall k :: 0 <= k < |ps| ==>
      if ps[k].Link? then MatchLen(Plain(ps[k..])) == |ps[k].url| > 0
      else MatchLen(Plain(ps[k..])) == 0
  }

  /** The segmentation the regular-expression engine makes, left to right. */
  function Scan(s: string): (ps: seq<Piece>)
    ensures Plain(ps) == s
    decreases |s|
  {
    if s == [] then []
    else
      var n := MatchLen(s);
      if n > 0 then
        assert s == s[..n] + s[n..];
        [Link(s[..n])] + Scan(s[n..])
      else
        assert s == [s[0]] + s[1..];
        [Char(s[0])] + Scan(s[1..])
  }

  lemma {:induction false} RenderedLength(ps: seq<Piece>)
    ensures |Rendered(ps)| == |Plain(ps)| + 2 * LinkCount(ps)
  {
    if ps != [] {
      RenderedLength(ps[1..]);
    }
  }

  /** `re.sub(r'(https?://\S+)', r'<\1>', text)`: a scanner that copies
      characters until a match starts, copies the match between `<` and
      `>`, and carries on after it. */
  function WrapUrls(s: string): (r: string)
    decreases |s|
  {
    if s == [] then []
    else
      var n := MatchLen(s);
      if n > 0 then "<" + s[..n] + ">" + WrapUrls(s[n..])
      else [s[0]] + WrapUrls(s[1..])
  }

  /** The output is the scanned text with every match wrapped, and so two
      characters longer per match. */
  lemma {:induction false} WrapUrlsScan(s: string)
    ensures WrapUrls(s) == Rendered(Scan(s))
    ensures |WrapUrls(s)| == |s| + 2 * LinkCount(Scan(s))
    decreases |s|
  {
    if s != [] {
      var n := MatchLen(s);
      var rest := if n > 0 then s[n..] else s[1..];
      WrapUrlsScan(rest);
      assert Scan(s)[1..] == Scan(rest);
    }
    RenderedLength(Scan(s));
  }

  /** `Scan` segments the text leftmost-greedily. */
  lemma {:induction false} ScanLexed(s: string)
    ensures Lexed(Scan(s))
    decreases |s|
  {
    if s != [] {
      var ps := Scan(s);
      var n := MatchLen(s);
      var rest := if n > 0 then s[n..] else s[1..];
      ScanLexed(rest);
      assert ps[1..] == Scan(rest);
      forall k | 0 <= k < |ps|
        ensures if ps[k].Link? then MatchLen(Plain(ps[k..])) == |ps[k].url| > 0
                else MatchLen(Plain(ps[k..])) == 0
      {
        if k > 0 {
          assert ps[k..] == ps[1..][k - 1..];
        }
      }
    }
  }

  /** ... and it is the only leftmost-greedy segmentation of the text. */
  lemma {:induction false} LexedUnique(ps: seq<Piece>, s: string)
    requires Lexed(ps) && Plain(ps) == s
    ensures ps == Scan(s)
    decreases |ps|
  {
    if ps != [] {
      assert ps[0..] == ps;
      var rest := Plain(ps[1..]);
      assert Lexed(ps[1..]) by {
        forall k | 0 <= k < |ps[1..]|
          ensures if ps[1..][k].Link? then MatchLen(Plain(ps[1..][k..])) == |ps[1..][k].url| > 0
                  else MatchLen(Plain(ps[1..][k..])) == 0
        {
          assert ps[1..][k..] == ps[k + 1..];
        }
      }
      LexedUnique(ps[1..], rest);
      match ps[0]
      case Char(c) =>
        assert s == [c] + rest;
        assert s[1..] == rest;
      case Link(u) =>
        assert s == u + rest;
        assert s[..|u|] == u && s[|u|..] == rest;
    }
  }

  /** The output differs from the input exactly when a match occurs. */
  lemma {:induction false} LinkCountPositive(s: string)
    ensures LinkCount(Scan(s)) > 0 <==> HasUrl(s)
    decreases |s|
  {
    if s != [] {
      var n := MatchLen(s);
      assert s[0..] == s;
      if n > 0 {
        assert MatchLen(s[0..]) > 0;
      } else {
        LinkCountPositive(s[1..]);
        if HasUrl(s) {
          var i :| 0 <= i < |s| && MatchLen(s[i..]) > 0;
          assert i > 0;
          assert s[1..][i - 1..] == s[i..];
        }
        if HasUrl(s[1..]) {
          var i :| 0 <= i < |s[1..]| && MatchLen(s[1..][i..]) > 0;
          assert s[1..][i..] == s[i + 1..];
        }
      }
    }
  }

  lemma {:induction false} RenderedPlain(ps: seq<Piece>)
    requires LinkCount(ps) == 0
    ensures Rendered(ps) == Plain(ps)
  {
    if ps != [] {
      RenderedPlain(ps[1..]);
    }
  }

  /** The text comes back unchanged exactly when it contains no match. */
  lemma WrapUrlsUnchanged(s: string)
    ensures WrapUrls(s) == s <==> !HasUrl(s)
  {
    LinkCountPositive(s);
    WrapUrlsScan(s);
    if !HasUrl(s) {
      RenderedPlain(Scan(s));
    }
  }

  /** Wrapping keeps a match in the text: `<` is not whitespace, so the
      wrapped URL together with its `>` still matches. */
  lemma WrapUrlsStep(s: string)
    requires s != []
    ensures MatchLen(s) > 0 ==> WrapUrls(s) == "<" + s[..MatchLen(s)] + ">" + WrapUrls(s[MatchLen(s)..])
    ensures MatchLen(s) == 0 ==> WrapUrls(s) == [s[0]] + WrapUrls(s[1..])
  {
  }

  lemma HasUrlAt(s: string, i: nat)
    requires i < |s| && MatchLen(s[i..]) > 0
    ensures HasUrl(s)
  {
  }

  lemma ConsSuffix(c: char, w: string, j: nat)
    requires j <= |w|
    ensures ([c] + w)[j + 1..] == w[j..]
  {
  }

  lemma OpeningBracketTail(u: string, rest: string)
    ensures ("<" + u + ">" + rest)[1..] == u + (">" + rest)
  {
  }

  lemma WrapUrlsKeepsFirstUrl(s: string)
    requires s != [] && MatchLen(s) > 0
    ensures HasUrl(WrapUrls(s))
  {
    var n := MatchLen(s);
    var u := s[..n];
    var rest := WrapUrls(s[n..]);
    WrapUrlsStep(s);
    OpeningBracketTail(u, rest);
    UrlStartsMatch(u, WrapUrls(s)[1..]);
    HasUrlAt(WrapUrls(s), 1);
  }

  lemma {:induction false} WrapUrlsKeepsUrl(s: string)
    requires HasUrl(s)
    ensures HasUrl(WrapUrls(s))
    decreases |s|
  {
    if MatchLen(s) > 0 {
      WrapUrlsKeepsFirstUrl(s);
    } else {
      HasUrlTail(s);
      WrapUrlsKeepsUrl(s[1..]);
      WrapUrlsKeepsLaterUrl(s);
    }
  }

  /** Without a match at its start, the matches of the text are those of its tail. */
  lemma HasUrlTail(s: string)
    requires HasUrl(s) && MatchLen(s) == 0
    ensures HasUrl(s[1..])
  {
    var i :| 0 <= i < |s| && MatchLen(s[i..]) > 0;
    assert s[0..] == s;
    ConsSuffix(s[0], s[1..], i - 1);
    HasUrlAt(s[1..], i - 1);
  }

  lemma WrapUrlsKeepsLaterUrl(s: string)
    requires s != [] && MatchLen(s) == 0 && HasUrl(WrapUrls(s[1..]))
    ensures HasUrl(WrapUrls(s))
  {
    WrapUrlsStep(s);
    var w := WrapUrls(s[1..]);
    var j :| 0 <= j < |w| && MatchLen(w[j..]) > 0;
    ConsSuffix(s[0], w, j);
    HasUrlAt(WrapUrls(s), j + 1);
  }

  /** Wrapping is idempotent only on text it leaves alone: applied to an
      already wrapped URL it wraps it again. */
  lemma WrapUrlsIdempotentIff(s: string)
    ensures WrapUrls(WrapUrls(s)) == WrapUrls(s) <==> !HasUrl(s)
  {
    WrapUrlsUnchanged(s);
    if HasUrl(s) {
      WrapUrlsKeepsUrl(s);
      WrapUrlsUnchanged(WrapUrls(s));
    }
  }

  /** A whole URL is matched whole. */
  lemma WholeUrlMatch(t: string)
    requires IsUrl(t)
    ensures MatchLen(t) == |t|
  {
    assert t[..|t|] == t;
  }

  /** A URL followed by `>` is still a URL. */
  lemma UrlWithBracket(u: string)
    requires IsUrl(u)
    ensures IsUrl(u + ">")
  {
    var t := u + ">";
    assert t[..|u|] == u;
    if HasPrefix(u, "http://") && |u| > 7 && NoSpace(u[7..]) {
      assert t[..7] == u[..7];
      assert t[7..] == u[7..] + ">";
    } else {
      assert t[..8] == u[..8];
      assert t[8..] == u[8..] + ">";
    }
  }

  /** No match starts at a `<`. */
  lemma NoMatchAtBracket(t: string)
    requires |t| > 0 && t[0] == '<'
    ensures MatchLen(t) == 0
  {
    if |t| >= 8 {
      assert t[..8][0] == '<';
    }
    if |t| >= 7 {
      assert t[..7][0] == '<';
    }
  }

  /** A bare URL is wrapped whole. */
  lemma WrapBareUrl(u: string)
    requires IsUrl(u)
    ensures WrapUrls(u) == "<" + u + ">"
  {
    WholeUrlMatch(u);
    WrapUrlsStep(u);
    assert u[..|u|] == u && u[|u|..] == [];
  }

  lemma BracketSplit(u: string)
    ensures ("<" + u + ">")[1..] == u + ">"
    ensures "<" + ("<" + (u + ">") + ">") == "<<" + u + ">>"
  {
  }

  /** Wrapping an already wrapped URL nests the brackets: `wrap_urls` is
      not idempotent. */
  lemma WrapUrlTwice(u: string)
    requires IsUrl(u)
    ensures WrapUrls(WrapUrls(u)) == "<<" + u + ">>"
  {
    WrapBareUrl(u);
    var w := "<" + u + ">";
    NoMatchAtBracket(w);
    WrapUrlsStep(w);
    BracketSplit(u);
    UrlWithBracket(u);
    WrapBareUrl(u + ">");
  }
}
