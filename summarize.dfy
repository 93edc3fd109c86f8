/**
 * Text clean-up of summarize.py: removing blank lines from a model's
 * answer (summarize.py:63-67) and collapsing runs of line feeds in the text
 * of a fetched page (summarize.py:41).  Only `\n` separates lines here.
 */
module Summarize {
  import opened Text

  /** No two line feeds stand next to each other. */
  predicate NoDoubleNewline(t: string)
  {
    forall i :: 0 <= i < |t| - 1 ==> !(t[i] == '\n' && t[i + 1] == '\n')
  }

  /** `line.strip()` is empty: the line is whitespace only. */
  predicate IsBlank(line: string)
  {
    forall i :: 0 <= i < |line| ==> IsSpace(line[i])
  }

  predicate NoNewline(line: string)
  {
    forall i :: 0 <= i < |line| ==> line[i] != '\n'
  }

  predicate AllNoNewline(lines: seq<string>)
  {
    forall k :: 0 <= k < |lines| ==> NoNewline(lines[k])
  }

  /** `'\n'.join(lines)`. */
  function JoinLines(lines: seq<string>): (s: string)
  {
    if lines == [] then []
    else if |lines| == 1 then lines[0]
    else lines[0] + "\n" + JoinLines(lines[1..])
  }

  lemma ConsAssoc(c: char, head: string, tail: string)
    ensures ([c] + head) + "\n" + tail == [c] + (head + "\n" + tail)
  {
  }

  /** Joining after putting `c` in front of the first line puts `c` in front
      of the joined text. */
  lemma JoinConsChar(c: char, lines: seq<string>)
    requires |lines| >= 1
    ensures JoinLines([[c] + lines[0]] + lines[1..]) == [c] + JoinLines(lines)
  {
    var ls := [[c] + lines[0]] + lines[1..];
    assert |ls| == |lines| && ls[0] == [c] + lines[0] && ls[1..] == lines[1..];
    if |lines| > 1 {
      ConsAssoc(c, lines[0], JoinLines(lines[1..]));
    }
  }

  /** Two or more lines join to a non-empty text. */
  lemma JoinLength(lines: seq<string>)
    ensures |lines| >= 2 ==> |JoinLines(lines)| >= 1
  {
  }

  /** `s.split('\n')`: the pieces between line feeds, at least one. */
  function SplitOnNewline(s: string): (parts: seq<string>)
    ensures |parts| >= 1
    ensures AllNoNewline(parts)
    ensures JoinLines(parts) == s
    decreases |s|
  {
    if s == [] then [[]]
    else if s[0] == '\n' then
      var rest := SplitOnNewline(s[1..]);
      assert ([[]] + rest)[1..] == rest;
      assert s == "\n" + s[1..];
      [[]] + rest
    else
      var rest := SplitOnNewline(s[1..]);
      JoinConsChar(s[0], rest);
      assert s == [s[0]] + s[1..];
      [[s[0]] + rest[0]] + rest[1..]
  }

  /** `s.splitlines()`: like `split`, except that a final line feed ends the
      last line instead of starting an empty one, and "" has no lines. */
  function SplitLines(s: string): (lines: seq<string>)
  {
    if s == [] then []
    else
      var parts := SplitOnNewline(s);
      if s[|s| - 1] == '\n' then parts[..|parts| - 1] else parts
  }

  /** The lines that `remove_empty_lines` keeps, in their order. */
  function NonBlankLines(lines: seq<string>): (kept: seq<string>)
    ensures |kept| <= |lines|
  {
    if lines == [] then []
    else if IsBlank(lines[0]) then NonBlankLines(lines[1..])
    else [lines[0]] + NonBlankLines(lines[1..])
  }

  /** `remove_empty_lines` (summarize.py:63-67). */
  function RemoveEmptyLines(text: string): (r: string)
  {
    JoinLines(NonBlankLines(SplitLines(text)))
  }

  // ------------------------------------------------------- split and join

  /** A single line feed starts a text joined from two or more lines with an
      empty first line, and no other. */
  lemma JoinFirstChar(parts: seq<string>)
    requires |parts| >= 1 && AllNoNewline(parts)
    requires JoinLines(parts) != []
    ensures JoinLines(parts)[0] == '\n' <==> parts[0] == [] && |parts| >= 2
  {
    if |parts| >= 2 && parts[0] != [] {
      assert JoinLines(parts)[0] == parts[0][0];
    }
  }

  /** Splitting is the inverse of joining. */
  lemma {:induction false} SplitJoin(parts: seq<string>, s: string)
    requires |parts| >= 1 && AllNoNewline(parts) && JoinLines(parts) == s
    ensures SplitOnNewline(s) == parts
    decreases |s|
  {
    JoinLength(parts);
    if s != [] {
      JoinFirstChar(parts);
      if s[0] == '\n' {
        assert JoinLines(parts) == parts[0] + "\n" + JoinLines(parts[1..]);
        assert s[1..] == JoinLines(parts[1..]);
        assert AllNoNewline(parts[1..]) by {
          forall k | 0 <= k < |parts[1..]| ensures NoNewline(parts[1..][k]) {
            assert parts[1..][k] == parts[k + 1];
          }
        }
        SplitJoin(parts[1..], s[1..]);
        assert parts == [[]] + parts[1..];
      } else {
        var t := parts[0][1..];
        var rest := [t] + parts[1..];
        assert parts[0] == [s[0]] + t;
        assert rest[1..] == parts[1..];
        JoinConsChar(s[0], rest);
        assert [[s[0]] + rest[0]] + rest[1..] == parts;
        assert AllNoNewline(rest) by {
          forall k | 0 <= k < |rest| ensures NoNewline(rest[k]) {
            if k == 0 {
              assert forall i :: 0 <= i < |t| ==> t[i] == parts[0][i + 1];
            } else {
              assert rest[k] == parts[k];
            }
          }
        }
        SplitJoin(rest, s[1..]);
      }
    }
  }

  /** Joining `a` and `[b]` puts one line feed between them. */
  lemma {:induction false} JoinSnoc(a: seq<string>, b: string)
    requires |a| >= 1
    ensures JoinLines(a + [b]) == JoinLines(a) + "\n" + b
    decreases |a|
  {
    if |a| == 1 {
      assert (a + [b])[1..] == [b];
    } else {
      assert (a + [b])[1..] == a[1..] + [b];
      JoinSnoc(a[1..], b);
    }
  }

  /** A text joined from lines whose last line is not empty ends with that
      line's last character. */
  lemma JoinLastChar(lines: seq<string>)
    requires lines != [] && lines[|lines| - 1] != []
    ensures JoinLines(lines) != []
    ensures JoinLines(lines)[|JoinLines(lines)| - 1] == lines[|lines| - 1][|lines[|lines| - 1]| - 1]
  {
    var last := lines[|lines| - 1];
    if |lines| > 1 {
      var init := lines[..|lines| - 1];
      assert lines == init + [last];
      JoinSnoc(init, last);
    }
  }

  /** Lines that contain no line feed, the last of them not empty, come back
      from `splitlines` after `'\n'.join`. */
  lemma SplitLinesJoin(lines: seq<string>)
    requires AllNoNewline(lines)
    requires lines != [] ==> lines[|lines| - 1] != []
    ensures SplitLines(JoinLines(lines)) == lines
  {
    if lines != [] {
      var s := JoinLines(lines);
      SplitJoin(lines, s);
      JoinLastChar(lines);
      assert NoNewline(lines[|lines| - 1]);
    }
  }

  /** The text split at its line feeds ends with an empty piece when the text
      ends with a line feed. */
  lemma {:induction false} SplitEndsEmpty(s: string)
    requires s != [] && s[|s| - 1] == '\n'
    ensures |SplitOnNewline(s)| >= 2
    ensures SplitOnNewline(s)[|SplitOnNewline(s)| - 1] == []
    decreases |s|
  {
    var parts, rest := SplitOnNewline(s), SplitOnNewline(s[1..]);
    if |s| > 1 {
      assert s[1..][|s[1..]| - 1] == s[|s| - 1];
      SplitEndsEmpty(s[1..]);
    } else {
      assert s[1..] == [];
    }
    if s[0] == '\n' {
      assert parts == [[]] + rest;
    } else {
      assert parts == [[s[0]] + rest[0]] + rest[1..];
    }
  }

  /** `splitlines` then `'\n'.join` gives the text back, less a final line feed. */
  lemma JoinSplitLines(s: string)
    ensures AllNoNewline(SplitLines(s))
    ensures s != [] && s[|s| - 1] == '\n' ==> JoinLines(SplitLines(s)) + "\n" == s
    ensures !(s != [] && s[|s| - 1] == '\n') ==> JoinLines(SplitLines(s)) == s
  {
    if s != [] {
      var parts := SplitOnNewline(s);
      if s[|s| - 1] == '\n' {
        SplitEndsEmpty(s);
        var init := parts[..|parts| - 1];
        assert parts == init + [[]];
        JoinSnoc(init, []);
        assert AllNoNewline(init) by {
          forall k | 0 <= k < |init| ensures NoNewline(init[k]) {
            assert init[k] == parts[k];
          }
        }
      }
    }
  }

  // ------------------------------------------------------- remove_empty_lines

  lemma {:induction false} NonBlankLinesProps(lines: seq<string>)
    requires AllNoNewline(lines)
    ensures AllNoNewline(NonBlankLines(lines))
    ensures forall k :: 0 <= k < |NonBlankLines(lines)| ==> !IsBlank(NonBlankLines(lines)[k])
  {
    if lines != [] {
      assert AllNoNewline(lines[1..]) by {
        forall k | 0 <= k < |lines[1..]| ensures NoNewline(lines[1..][k]) {
          assert lines[1..][k] == lines[k + 1];
        }
      }
      NonBlankLinesProps(lines[1..]);
    }
  }

  /** Filtering keeps a list unchanged exactly when no line in it is blank. */
  lemma {:induction false} NonBlankLinesFixed(lines: seq<string>)
    ensures NonBlankLines(lines) == lines <==> forall k :: 0 <= k < |lines| ==> !IsBlank(lines[k])
  {
    if lines != [] {
      NonBlankLinesFixed(lines[1..]);
      if !IsBlank(lines[0]) {
        assert lines == [lines[0]] + lines[1..];
        if forall k :: 0 <= k < |lines[1..]| ==> !IsBlank(lines[1..][k]) {
          assert forall k :: 0 <= k < |lines| ==> !IsBlank(lines[k]) by {
            forall k | 0 < k < |lines| ensures !IsBlank(lines[k]) {
              assert lines[k] == lines[1..][k - 1];
            }
          }
        } else {
          var k :| 0 <= k < |lines[1..]| && IsBlank(lines[1..][k]);
          assert IsBlank(lines[k + 1]);
        }
      }
    }
  }

  /** The lines of the result are exactly the non-blank lines of the input,
      unchanged and in their order. */
  lemma RemoveEmptyLinesLines(text: string)
    ensures SplitLines(RemoveEmptyLines(text)) == NonBlankLines(SplitLines(text))
    ensures forall k :: 0 <= k < |SplitLines(RemoveEmptyLines(text))| ==> !IsBlank(SplitLines(RemoveEmptyLines(text))[k])
  {
    JoinSplitLines(text);
    var kept := NonBlankLines(SplitLines(text));
    NonBlankLinesProps(SplitLines(text));
    if kept != [] {
      assert !IsBlank(kept[|kept| - 1]);
    }
    SplitLinesJoin(kept);
  }

  /** Removing blank lines twice is removing them once. */
  lemma RemoveEmptyLinesIdempotent(text: string)
    ensures RemoveEmptyLines(RemoveEmptyLines(text)) == RemoveEmptyLines(text)
  {
    RemoveEmptyLinesLines(text);
    var kept := NonBlankLines(SplitLines(text));
    NonBlankLinesFixed(kept);
  }

  /** Lines joined without an empty one give a text with no empty line. */
  lemma {:induction false} JoinNonEmptyLines(lines: seq<string>)
    requires AllNoNewline(lines)
    requires forall k :: 0 <= k < |lines| ==> lines[k] != []
    ensures NoDoubleNewline(JoinLines(lines))
    ensures JoinLines(lines) != [] ==> JoinLines(lines)[0] != '\n' && JoinLines(lines)[|JoinLines(lines)| - 1] != '\n'
    ensures JoinLines(lines) == [] <==> lines == []
  {
    if |lines| == 1 {
      assert NoNewline(lines[0]);
    } else if |lines| >= 2 {
      var rest := lines[1..];
      assert AllNoNewline(rest) by {
        forall k | 0 <= k < |rest| ensures NoNewline(rest[k]) {
          assert rest[k] == lines[k + 1];
        }
      }
      assert forall k :: 0 <= k < |rest| ==> rest[k] != [] by {
        forall k | 0 <= k < |rest| ensures rest[k] != [] {
          assert rest[k] == lines[k + 1];
        }
      }
      JoinNonEmptyLines(rest);
      var head := lines[0];
      var tail := JoinLines(rest);
      var t := JoinLines(lines);
      assert NoNewline(head);
      assert t == head + "\n" + tail;
      forall i | 0 <= i < |t| - 1 ensures !(t[i] == '\n' && t[i + 1] == '\n') {
        if i < |head| {
          assert t[i] == head[i];
        } else if i == |head| {
          assert t[i + 1] == tail[0];
        } else {
          assert t[i] == tail[i - |head| - 1] && t[i + 1] == tail[i - |head|];
        }
      }
      assert t[0] == head[0];
      assert t[|t| - 1] == tail[|tail| - 1];
    }
  }

  /** The result never holds an empty line: no `\n\n`, and it neither starts
      nor ends with a line feed. */
  lemma RemoveEmptyLinesShape(text: string)
    ensures NoDoubleNewline(RemoveEmptyLines(text))
    ensures RemoveEmptyLines(text) != [] ==>
              RemoveEmptyLines(text)[0] != '\n' && RemoveEmptyLines(text)[|RemoveEmptyLines(text)| - 1] != '\n'
  {
    JoinSplitLines(text);
    var kept := NonBlankLines(SplitLines(text));
    NonBlankLinesProps(SplitLines(text));
    forall k | 0 <= k < |kept| ensures kept[k] != [] {
      assert !IsBlank(kept[k]);
    }
    JoinNonEmptyLines(kept);
  }

  /** The text comes back unchanged exactly when none of its lines is blank
      and it does not end with a line feed. */
  lemma RemoveEmptyLinesUnchanged(text: string)
    ensures RemoveEmptyLines(text) == text <==>
              (forall k :: 0 <= k < |SplitLines(text)| ==> !IsBlank(SplitLines(text)[k])) &&
              !(text != [] && text[|text| - 1] == '\n')
  {
    JoinSplitLines(text);
    NonBlankLinesFixed(SplitLines(text));
    if RemoveEmptyLines(text) == text {
      RemoveEmptyLinesLines(text);
      RemoveEmptyLinesShape(text);
    }
  }

  // ------------------------------------------------------- newline collapse

  /** The text with every line feed deleted. */
  function DropNewlines(s: string): (r: string)
  {
    if s == [] then []
    else (if s[0] == '\n' then [] else [s[0]]) + DropNewlines(s[1..])
  }

  /** Length of the run of line feeds that starts `s`. */
  function LeadingNewlines(s: string): (n: nat)
    ensures n <= |s|
    ensures forall i :: 0 <= i < n ==> s[i] == '\n'
    ensures n == |s| || s[n] != '\n'
  {
    if s == [] || s[0] != '\n' then 0 else 1 + LeadingNewlines(s[1..])
  }

  /** Deleting line feeds from a run of line feeds and the rest of the text. */
  lemma {:induction false} DropLeadingNewlines(s: string, n: nat)
    requires n <= |s|
    requires forall i :: 0 <= i < n ==> s[i] == '\n'
    ensures DropNewlines(s) == DropNewlines(s[n..])
    decreases n
  {
    if n > 0 {
      assert s[1..][n - 1..] == s[n..];
      DropLeadingNewlines(s[1..], n - 1);
    }
  }

  /** `re.sub(r'\n+', '\n', text)` (summarize.py:41): every run of line feeds
      becomes one line feed. */
  function CollapseNewlines(s: string): (r: string)
    ensures NoDoubleNewline(r)
    ensures (r != [] && r[0] == '\n') <==> (s != [] && s[0] == '\n')
    ensures DropNewlines(r) == DropNewlines(s)
    ensures |r| <= |s|
    decreases |s|
  {
    if s == [] then []
    else if s[0] == '\n' then
      var n := LeadingNewlines(s);
      var c := CollapseNewlines(s[n..]);
      DropLeadingNewlines(s, n);
      assert forall i :: 0 <= i < |c| ==> ("\n" + c)[i + 1] == c[i];
      "\n" + c
    else
      var c := CollapseNewlines(s[1..]);
      assert forall i :: 0 <= i < |c| ==> ([s[0]] + c)[i + 1] == c[i];
      [s[0]] + c
  }

  /** A text without `\n\n` is left alone. */
  lemma {:induction false} CollapseFixpoint(s: string)
    requires NoDoubleNewline(s)
    ensures CollapseNewlines(s) == s
    decreases |s|
  {
    if s != [] {
      assert NoDoubleNewline(s[1..]) by {
        forall i | 0 <= i < |s[1..]| - 1 ensures !(s[1..][i] == '\n' && s[1..][i + 1] == '\n') {
          assert s[1..][i] == s[i + 1] && s[1..][i + 1] == s[i + 2];
        }
      }
      CollapseFixpoint(s[1..]);
      if s[0] == '\n' && |s| > 1 {
        assert s[1] != '\n';
      }
      assert s == [s[0]] + s[1..];
    }
  }

  /** The collapse leaves a text unchanged exactly when it has no `\n\n`,
      so applying it twice is applying it once. */
  lemma CollapseIdempotent(s: string)
    ensures CollapseNewlines(s) == s <==> NoDoubleNewline(s)
    ensures CollapseNewlines(CollapseNewlines(s)) == CollapseNewlines(s)
  {
    if NoDoubleNewline(s) {
      CollapseFixpoint(s);
    }
    CollapseFixpoint(CollapseNewlines(s));
  }
  /** The pieces between line feeds that are not empty, in their order. */
  function NonEmptyPieces(parts: seq<string>): (kept: seq<string>)
    ensures forall k :: 0 <= k < |kept| ==> kept[k] != []
  {
    if parts == [] then []
    else if parts[0] == [] then NonEmptyPieces(parts[1..])
    else [parts[0]] + NonEmptyPieces(parts[1..])
  }

  /** A run of line feeds at the start only adds empty pieces. */
  lemma {:induction false} LeadingNewlinesPieces(s: string, n: nat)
    requires n <= |s|
    requires forall i :: 0 <= i < n ==> s[i] == '\n'
    ensures NonEmptyPieces(SplitOnNewline(s)) == NonEmptyPieces(SplitOnNewline(s[n..]))
    decreases n
  {
    if n > 0 {
      var rest := SplitOnNewline(s[1..]);
      assert SplitOnNewline(s) == [[]] + rest;
      assert ([[]] + rest)[1..] == rest;
      assert s[1..][n - 1..] == s[n..];
      LeadingNewlinesPieces(s[1..], n - 1);
    }
  }

  /** The collapse keeps the text before the first line feed and, after it,
      every non-empty piece between line feeds, in order: each run of line
      feeds became one line feed in the same place. */
  lemma {:induction false} CollapseNewlinesPieces(s: string)
    ensures SplitOnNewline(CollapseNewlines(s))[0] == SplitOnNewline(s)[0]
    ensures NonEmptyPieces(SplitOnNewline(CollapseNewlines(s))[1..]) == NonEmptyPieces(SplitOnNewline(s)[1..])
    ensures NonEmptyPieces(SplitOnNewline(CollapseNewlines(s))) == NonEmptyPieces(SplitOnNewline(s))
    decreases |s|
  {
    var r := CollapseNewlines(s);
    if s != [] {
      var ps := SplitOnNewline(s);
      var pr := SplitOnNewline(r);
      if s[0] == '\n' {
        var n := LeadingNewlines(s);
        var c := CollapseNewlines(s[n..]);
        assert r == "\n" + c;
        assert r[0] == '\n' && r[1..] == c;
        assert pr == [[]] + SplitOnNewline(c);
        assert pr[1..] == SplitOnNewline(c);
        assert ps == [[]] + SplitOnNewline(s[1..]);
        assert ps[1..] == SplitOnNewline(s[1..]);
        assert s[1..][n - 1..] == s[n..];
        LeadingNewlinesPieces(s[1..], n - 1);
        CollapseNewlinesPieces(s[n..]);
      } else {
        var c := CollapseNewlines(s[1..]);
        assert r == [s[0]] + c;
        assert r[0] == s[0] && r[1..] == c;
        var rc := SplitOnNewline(c);
        var rs := SplitOnNewline(s[1..]);
        assert pr == [[s[0]] + rc[0]] + rc[1..];
        assert ps == [[s[0]] + rs[0]] + rs[1..];
        assert pr[1..] == rc[1..] && ps[1..] == rs[1..];
        CollapseNewlinesPieces(s[1..]);
      }
    }
  }

  /** The collapse of a non-empty text is non-empty and ends with the same
      character, so it ends with a line feed exactly when the input does. */
  lemma {:induction false} CollapseNewlinesLast(s: string)
    ensures CollapseNewlines(s) == [] <==> s == []
    ensures s != [] ==> CollapseNewlines(s)[|CollapseNewlines(s)| - 1] == s[|s| - 1]
    decreases |s|
  {
    if s != [] {
      if s[0] == '\n' {
        var n := LeadingNewlines(s);
        var c := CollapseNewlines(s[n..]);
        assert CollapseNewlines(s) == "\n" + c;
        if n < |s| {
          CollapseNewlinesLast(s[n..]);
        }
      } else {
        var c := CollapseNewlines(s[1..]);
        assert CollapseNewlines(s) == [s[0]] + c;
        if |s| > 1 {
          CollapseNewlinesLast(s[1..]);
        }
      }
    }
  }
}
