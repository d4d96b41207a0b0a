/**
 * The string operations the player's URL resolver relies on: ASCII case
 * folding (what `toLowerCase` and a case-insensitive regular expression do
 * to the ASCII patterns involved), `String.prototype.trim`, prefix, suffix
 * and substring tests, and splitting a text on the line breaks `/\r?\n/`.
 */
module Text {
  import opened Wrappers

  function LowerChar(c: char): char
  {
    if 'A' <= c <= 'Z' then (c as int + 32) as char else c
  }

  function Lower(s: string): (r: string)
    ensures |r| == |s|
    ensures forall i :: 0 <= i < |s| ==> r[i] == LowerChar(s[i])
  {
    seq(|s|, i requires 0 <= i < |s| => LowerChar(s[i]))
  }

  /** Case folding works character by character, so it distributes over concatenation. */
  lemma LowerAppend(a: string, b: string)
    ensures Lower(a + b) == Lower(a) + Lower(b)
  {
    var l, r := Lower(a + b), Lower(a) + Lower(b);
    forall i | 0 <= i < |l| ensures l[i] == r[i] {
      if i < |a| {
        assert (a + b)[i] == a[i];
      } else {
        assert (a + b)[i] == b[i - |a|];
      }
    }
  }

  predicate StartsWith(s: string, prefix: string)
  {
    |prefix| <= |s| && forall i :: 0 <= i < |prefix| ==> s[i] == prefix[i]
  }

  predicate EndsWith(s: string, suffix: string)
  {
    |suffix| <= |s| && forall i :: 0 <= i < |suffix| ==> s[|s| - |suffix| + i] == suffix[i]
  }

  lemma EndsWithAppend(a: string, b: string)
    ensures EndsWith(a + b, b)
  {
    assert forall i :: 0 <= i < |b| ==> (a + b)[|a| + i] == b[i];
  }

  predicate Contains(s: string, part: string)
    decreases |s|
  {
    StartsWith(s, part) || (s != [] && Contains(s[1..], part))
  }

  /** The characters JavaScript's `trim` removes: WhiteSpace and LineTerminator. */
  predicate IsSpace(c: char)
  {
    || c == ' ' || c == '\t' || c == '\n' || c == '\r'
    || c == '\U{000B}' || c == '\U{000C}' || c == '\U{00A0}' || c == '\U{FEFF}'
    || c == '\U{1680}' || ('\U{2000}' <= c <= '\U{200A}')
    || c == '\U{2028}' || c == '\U{2029}' || c == '\U{202F}' || c == '\U{205F}'
    || c == '\U{3000}'
  }

  /** `s` without the white space at its start. */
  function TrimStart(s: string): (r: string)
    ensures r == [] || !IsSpace(r[0])
    ensures |r| <= |s| && r == s[|s| - |r|..]
    ensures forall i :: 0 <= i < |s| - |r| ==> IsSpace(s[i])
  {
    if s != [] && IsSpace(s[0]) then TrimStart(s[1..]) else s
  }

  /** `s` without the white space at its end. */
  function TrimEnd(s: string): (r: string)
    ensures r == [] || !IsSpace(r[|r| - 1])
    ensures |r| <= |s| && r == s[..|r|]
    ensures forall i :: |r| <= i < |s| ==> IsSpace(s[i])
  {
    if s != [] && IsSpace(s[|s| - 1]) then TrimEnd(s[..|s| - 1]) else s
  }

  /** `r` is `s` from position `a` on, with only white space removed around it. */
  predicate Strips(s: string, a: int, r: string)
  {
    && 0 <= a && a + |r| <= |s| && r == s[a..a + |r|]
    && (forall i :: 0 <= i < a ==> IsSpace(s[i]))
    && (forall i :: a + |r| <= i < |s| ==> IsSpace(s[i]))
  }

  /** `s.trim()`: the infix of `s` left once the white space at both ends is
      removed; no white space is left at either end. */
  function Trim(s: string): (r: string)
    ensures r == [] || (!IsSpace(r[0]) && !IsSpace(r[|r| - 1]))
    ensures exists a :: Strips(s, a, r)
    ensures s == [] || (!IsSpace(s[0]) && !IsSpace(s[|s| - 1])) ==> r == s
  {
    var t := TrimStart(s);
    StripsBoth(s, t, TrimEnd(t));
    TrimKeeps(s);
    TrimEnd(t)
  }

  /** Cutting white space off the start of `s`, giving `t`, then off the end
      of `t`, giving `r`, leaves `r` an infix of `s` with white space around it. */
  lemma StripsBoth(s: string, t: string, r: string)
    requires |t| <= |s| && t == s[|s| - |t|..] && forall i :: 0 <= i < |s| - |t| ==> IsSpace(s[i])
    requires |r| <= |t| && r == t[..|r|] && forall i :: |r| <= i < |t| ==> IsSpace(t[i])
    ensures Strips(s, |s| - |t|, r)
  {
    var a := |s| - |t|;
    assert r == s[a..a + |r|];
    forall i | a + |r| <= i < |s| ensures IsSpace(s[i]) {
      assert s[i] == t[i - a];
    }
  }

  /** A string with no white space at its ends is its own trimmed form. */
  lemma TrimKeeps(s: string)
    ensures s == [] || (!IsSpace(s[0]) && !IsSpace(s[|s| - 1])) ==> TrimEnd(TrimStart(s)) == s
  {
  }

  /** The position of the first occurrence of `c` in `s`, if any. */
  function IndexOf(s: string, c: char): (r: Option<nat>)
    ensures r.None? <==> c !in s
    ensures r.Some? ==> r.value < |s| && s[r.value] == c && c !in s[..r.value]
  {
    if s == [] then None
    else if s[0] == c then Some(0)
    else match IndexOf(s[1..], c)
      case None => None
      case Some(i) =>
        assert s[1..][..i] == s[1..i + 1];
        Some(i + 1)
  }

  /** Removes the `\r` of a `\r\n` pair. */
  function DropCarriageReturn(line: string): string
  {
    if line != [] && line[|line| - 1] == '\r' then line[..|line| - 1] else line
  }

  /** Putting back the piece in front of the first `\n` of `text` and its
      break restores `text` from what the rest of it joins to. */
  lemma JoinStep(text: string, i: nat, rest: seq<string>, breaks: seq<bool>)
    requires i < |text| && text[i] == '\n'
    requires rest != [] && |breaks| == |rest| - 1 && JoinLines(rest, breaks) == text[i + 1..]
    ensures JoinLines([DropCarriageReturn(text[..i])] + rest, [i > 0 && text[i - 1] == '\r'] + breaks) == text
  {
    var head := DropCarriageReturn(text[..i]);
    var crlf := i > 0 && text[i - 1] == '\r';
    var lines := [head] + rest;
    var all := [crlf] + breaks;
    assert lines[0] == head && lines[1..] == rest && all[0] == crlf && all[1..] == breaks;
    DropThenBreak(text[..i]);
    assert text == text[..i] + "\n" + text[i + 1..];
  }

  /** A piece with its `\r` dropped, followed by the break it ended, is the piece and its `\n`. */
  lemma DropThenBreak(piece: string)
    ensures DropCarriageReturn(piece) + LineBreak(piece != [] && piece[|piece| - 1] == '\r') == piece + "\n"
  {
    if piece != [] && piece[|piece| - 1] == '\r' {
      assert piece == piece[..|piece| - 1] + "\r";
    }
  }

  /** The kind of each line break of `text`, in order: `true` for `\r\n`, `false` for a bare `\n`. */
  function LineBreaks(text: string): seq<bool>
    decreases |text|
  {
    match IndexOf(text, '\n')
    case None => []
    case Some(i) => [i > 0 && text[i - 1] == '\r'] + LineBreaks(text[i + 1..])
  }

  function LineBreak(crlf: bool): string
  {
    if crlf then "\r\n" else "\n"
  }

  /** The inverse of SplitLines: the lines joined with the given breaks,
      `\r\n` where `breaks` says `true` and `\n` elsewhere. */
  function JoinLines(lines: seq<string>, breaks: seq<bool>): string
    requires lines != [] && |breaks| == |lines| - 1
  {
    if |lines| == 1 then lines[0]
    else lines[0] + LineBreak(breaks[0]) + JoinLines(lines[1..], breaks[1..])
  }

  /** `text.split(/\r?\n/)`: the pieces between line breaks, where a line
      break is `\n` or `\r\n`; joining them back with the breaks found
      gives the text again, so nothing but the breaks is lost. */
  function SplitLines(text: string): (lines: seq<string>)
    ensures |lines| >= 1
    ensures forall l :: l in lines ==> '\n' !in l
    ensures |LineBreaks(text)| == |lines| - 1 && JoinLines(lines, LineBreaks(text)) == text
    decreases |text|
  {
    match IndexOf(text, '\n')
    case None => [text]
    case Some(i) =>
      var rest := SplitLines(text[i + 1..]);
      JoinStep(text, i, rest, LineBreaks(text[i + 1..]));
      [DropCarriageReturn(text[..i])] + rest
  }

  /** A line that survives a split unchanged: no `\n` inside, no `\r` at its end. */
  predicate IsLine(l: string)
  {
    '\n' !in l && (l == [] || l[|l| - 1] != '\r')
  }

  /** Splitting lines joined with any mix of `\n` and `\r\n` gives the lines back. */
  lemma {:induction false} SplitJoin(lines: seq<string>, breaks: seq<bool>)
    requires lines != [] && |breaks| == |lines| - 1
    requires forall l :: l in lines ==> IsLine(l)
    ensures SplitLines(JoinLines(lines, breaks)) == lines
  {
    var head := lines[0];
    assert IsLine(head);
    if |lines| == 1 {
      assert IndexOf(head, '\n').None?;
    } else {
      var rest := JoinLines(lines[1..], breaks[1..]);
      assert JoinLines(lines, breaks) == head + LineBreak(breaks[0]) + rest;
      SplitHead(head, breaks[0], rest);
      assert forall l :: l in lines[1..] ==> l in lines;
      SplitJoin(lines[1..], breaks[1..]);
      assert lines == [head] + lines[1..];
    }
  }

  /** A line followed by a break splits off as the first piece. */
  lemma SplitHead(head: string, crlf: bool, rest: string)
    requires IsLine(head)
    ensures SplitLines(head + LineBreak(crlf) + rest) == [head] + SplitLines(rest)
  {
    var sep := LineBreak(crlf);
    var t := head + sep + rest;
    var n := |head| + |sep| - 1;
    assert t[..n] == head + sep[..|sep| - 1];
    assert t[n] == '\n';
    assert t[n + 1..] == rest;
    assert forall j :: 0 <= j < n ==> t[j] != '\n';
    IndexOfFirst(t, '\n', n);
    assert DropCarriageReturn(t[..n]) == head;
  }

  /** A character whose first occurrence is at `n` is found at `n`. */
  lemma {:induction false} IndexOfFirst(s: string, c: char, n: nat)
    requires n < |s| && s[n] == c && forall j :: 0 <= j < n ==> s[j] != c
    ensures IndexOf(s, c) == Some(n)
  {
    if n > 0 {
      IndexOfFirst(s[1..], c, n - 1);
    }
  }
}
