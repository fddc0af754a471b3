/**
  ASCII models of the Python string operations the assistant relies on.

  Python's `str.lower`, `str.strip`, `str.isdigit`, `str.split` and `str.splitlines`
  follow Unicode; the functions here agree with them on ASCII text and treat every
  other character as an ordinary letter (never whitespace, never a digit, never a
  line boundary, never changed by lower-casing).
*/
module Text {
  import opened Wrappers

  // ---------------------------------------------------------------------------
  // Character classes
  // ---------------------------------------------------------------------------

  /** The ASCII characters for which Python's `str.isspace` holds. */
  const Whitespace: set<char> :=
    {' ', '\t', '\n', '\r', '\U{0B}', '\U{0C}', '\U{1C}', '\U{1D}', '\U{1E}', '\U{1F}'}

  /** The ASCII characters at which Python's `str.splitlines` breaks a line
      (`\r\n` counts as one boundary there; here it is two, with an empty line between). */
  const LineBreaks: set<char> :=
    {'\n', '\r', '\U{0B}', '\U{0C}', '\U{1C}', '\U{1D}', '\U{1E}'}

  predicate IsDigit(c: char) {
    '0' <= c <= '9'
  }

  /** Python's `s.isdigit()` on ASCII: non-empty and every character a digit. */
  predicate IsDigits(s: string) {
    |s| > 0 && forall i :: 0 <= i < |s| ==> IsDigit(s[i])
  }

  predicate NoLineBreak(s: string) {
    forall i :: 0 <= i < |s| ==> s[i] !in LineBreaks
  }

  // ---------------------------------------------------------------------------
  // Case and trimming
  // ---------------------------------------------------------------------------

  function LowerChar(c: char): char {
    if 'A' <= c <= 'Z' then (c as int + 32) as char else c
  }

  /** Python's `s.lower()` on ASCII. */
  function Lower(s: string): (r: string)
    ensures |r| == |s|
    ensures forall i :: 0 <= i < |s| ==> r[i] == LowerChar(s[i])
  {
    seq(|s|, i requires 0 <= i < |s| => LowerChar(s[i]))
  }

  lemma LowerAppend(a: string, b: string)
    ensures Lower(a + b) == Lower(a) + Lower(b)
  {
  }

  /** Python's `s.lstrip(chars)`: drop the longest prefix made of characters in `cs`. */
  function TrimLeft(s: string, cs: set<char>): (r: string)
    ensures |r| <= |s| && r == s[|s| - |r|..]
    ensures forall i :: 0 <= i < |s| - |r| ==> s[i] in cs
    ensures r != [] ==> r[0] !in cs
    decreases |s|
  {
    if |s| > 0 && s[0] in cs then TrimLeft(s[1..], cs) else s
  }

  /** Python's `s.rstrip(chars)`: drop the longest suffix made of characters in `cs`. */
  function TrimRight(s: string, cs: set<char>): (r: string)
    ensures |r| <= |s| && r == s[..|r|]
    ensures forall i :: |r| <= i < |s| ==> s[i] in cs
    ensures r != [] ==> r[|r| - 1] !in cs
    decreases |s|
  {
    if |s| > 0 && s[|s| - 1] in cs then TrimRight(s[..|s| - 1], cs) else s
  }

  /** Python's `s.strip()`: no leading and no trailing whitespace. */
  function Strip(s: string): (r: string)
    ensures |r| <= |s|
    ensures r != [] ==> r[0] !in Whitespace && r[|r| - 1] !in Whitespace
  {
    TrimRight(TrimLeft(s, Whitespace), Whitespace)
  }

  predicate IsStripped(s: string) {
    s == [] || (s[0] !in Whitespace && s[|s| - 1] !in Whitespace)
  }

  lemma StripIsStripped(s: string)
    ensures IsStripped(Strip(s))
  {
  }

  lemma StripStripped(s: string)
    requires IsStripped(s)
    ensures Strip(s) == s
  {
  }

  /** Stripping only removes characters: one absent from `s` is absent afterwards. */
  lemma StripKeepsOut(s: string, c: char)
    requires c !in s
    ensures c !in Strip(s)
  {
    var l := TrimLeft(s, Whitespace);
    assert l == s[|s| - |l|..];
    var r := TrimRight(l, Whitespace);
    assert r == l[..|r|];
  }

  /** Text that is only whitespace strips to nothing. */
  lemma StripAllWhitespace(s: string)
    requires forall i :: 0 <= i < |s| ==> s[i] in Whitespace
    ensures Strip(s) == []
  {
  }

  /** Leading whitespace does not change what `strip` gives. */
  lemma {:induction false} StripAfterSpaces(w: string, s: string)
    requires forall i :: 0 <= i < |w| ==> w[i] in Whitespace
    ensures TrimLeft(w + s, Whitespace) == TrimLeft(s, Whitespace)
    ensures Strip(w + s) == Strip(s)
    decreases |w|
  {
    if w != [] {
      assert (w + s)[0] == w[0] && (w + s)[1..] == w[1..] + s;
      StripAfterSpaces(w[1..], s);
      assert TrimLeft(w + s, Whitespace) == TrimLeft(w[1..] + s, Whitespace);
    } else {
      assert w + s == s;
    }
  }

  // ---------------------------------------------------------------------------
  // Searching
  // ---------------------------------------------------------------------------

  /** `t` occurs in `s` starting at index `i`. */
  predicate MatchAt(s: string, t: string, i: nat) {
    i + |t| <= |s| && s[i..i + |t|] == t
  }

  /** Python's `s.find(t)`: the first index at which `t` occurs, if any. */
  function Find(s: string, t: string): (r: Option<nat>)
    ensures r.Some? ==> MatchAt(s, t, r.value)
    ensures r.Some? ==> forall j: nat :: j < r.value ==> !MatchAt(s, t, j)
    ensures r.None? ==> forall j: nat :: !MatchAt(s, t, j)
    decreases |s|
  {
    if |s| < |t| then None
    else if s[..|t|] == t then Some(0)
    else
      match Find(s[1..], t)
      case None =>
        assert forall j: nat :: MatchAt(s, t, j + 1) ==> MatchAt(s[1..], t, j);
        assert forall j: nat :: MatchAt(s, t, j) ==> j == 0 || MatchAt(s[1..], t, j - 1);
        None
      case Some(i) =>
        assert forall j: nat :: MatchAt(s, t, j) ==> j == 0 || MatchAt(s[1..], t, j - 1);
        assert MatchAt(s, t, i + 1) by { assert s[i + 1..i + 1 + |t|] == s[1..][i..i + |t|]; }
        Some(i + 1)
  }

  /** Python's `t in s`. */
  predicate Contains(s: string, t: string) {
    Find(s, t).Some?
  }

  lemma ContainsAt(s: string, t: string, i: nat)
    requires MatchAt(s, t, i)
    ensures Contains(s, t)
  {
  }

  /** Text found in the middle part is found in the whole. */
  lemma ContainsInfix(a: string, b: string, c: string, t: string)
    requires Contains(b, t)
    ensures Contains(a + b + c, t)
  {
    var i := Find(b, t).value;
    var s := a + b + c;
    assert s[|a| + i..|a| + i + |t|] == b[i..i + |t|];
    ContainsAt(s, t, |a| + i);
  }

  /** Text found in a prefix is found in the whole. */
  lemma ContainsLeft(a: string, b: string, t: string)
    requires Contains(a, t)
    ensures Contains(a + b, t)
  {
    var i := Find(a, t).value;
    assert (a + b)[i..i + |t|] == a[i..i + |t|];
    ContainsAt(a + b, t, i);
  }

  lemma ContainsRight(a: string, b: string, t: string)
    requires Contains(b, t)
    ensures Contains(a + b, t)
  {
    var i := Find(b, t).value;
    assert (a + b)[|a| + i..|a| + i + |t|] == b[i..i + |t|];
    ContainsAt(a + b, t, |a| + i);
  }

  // ---------------------------------------------------------------------------
  // Splitting and joining
  // ---------------------------------------------------------------------------

  /** Python's `sep.join(parts)`. */
  function Join(parts: seq<string>, sep: string): (r: string)
    decreases |parts|
  {
    if |parts| == 0 then ""
    else if |parts| == 1 then parts[0]
    else parts[0] + sep + Join(parts[1..], sep)
  }

  /** Length of the text before the first occurrence of `c` (all of it if none). */
  function SpanWithout(s: string, c: char): (n: nat)
    ensures n <= |s|
    ensures forall i :: 0 <= i < n ==> s[i] != c
    ensures n < |s| ==> s[n] == c
    decreases |s|
  {
    if |s| == 0 || s[0] == c then 0 else 1 + SpanWithout(s[1..], c)
  }

  /** Python's `s.split(c)` for a one-character separator: always at least one piece. */
  function SplitOn(s: string, c: char): (r: seq<string>)
    ensures |r| >= 1
    ensures forall k :: 0 <= k < |r| ==> c !in r[k]
    decreases |s|
  {
    var n := SpanWithout(s, c);
    if n == |s| then [s] else [s[..n]] + SplitOn(s[n + 1..], c)
  }

  /** Proof helper: `Join` unfolded once at a first part followed by more parts. */
  lemma JoinCons(a: string, rest: seq<string>, sep: string)
    requires |rest| >= 1
    ensures Join([a] + rest, sep) == a + sep + Join(rest, sep)
  {
    assert ([a] + rest)[1..] == rest;
  }

  /** The other direction of the round trip: the pieces of any text, joined again
      with the separator, give back that text. */
  lemma {:induction false} SplitOnJoinBack(s: string, c: char)
    ensures Join(SplitOn(s, c), [c]) == s
    decreases |s|
  {
    var n := SpanWithout(s, c);
    if n < |s| {
      var rest := SplitOn(s[n + 1..], c);
      SplitOnJoinBack(s[n + 1..], c);
      assert SplitOn(s, c) == [s[..n]] + rest;
      JoinCons(s[..n], rest, [c]);
      assert s == s[..n] + [c] + s[n + 1..];
    }
  }

  /** Every part with `pad` in front. */
  function PrefixEach(pad: string, parts: seq<string>): (r: seq<string>)
    ensures |r| == |parts|
    ensures forall k :: 0 <= k < |r| ==> r[k] == pad + parts[k]
  {
    seq(|parts|, k requires 0 <= k < |parts| => pad + parts[k])
  }

  /** Splitting text joined with `c` followed by `pad` gives the parts back, each part
      after the first still carrying `pad` in front. */
  lemma {:induction false} SplitOnJoin(parts: seq<string>, c: char, pad: string)
    requires |parts| >= 1
    requires c !in pad && forall k :: 0 <= k < |parts| ==> c !in parts[k]
    ensures SplitOn(Join(parts, [c] + pad), c)
            == [parts[0]] + PrefixEach(pad, parts[1..])
    decreases |parts|
  {
    if |parts| > 1 {
      var sep := [c] + pad;
      var a, rest := parts[0], Join(parts[1..], sep);
      var s := a + sep + rest;
      assert s == Join(parts, sep);
      assert s[|a|] == c;
      assert forall i :: 0 <= i < |a| ==> s[i] == a[i];
      assert SpanWithout(s, c) == |a|;
      assert s[..|a|] == a;
      var shifted := [pad + parts[1]] + parts[2..];
      assert Join(shifted, sep) == pad + rest by {
        if |parts| > 2 {
          assert shifted[1..] == parts[2..];
          assert rest == parts[1] + sep + Join(parts[2..], sep);
        }
      }
      assert s[|a| + 1..] == pad + rest;
      assert c !in shifted[0] by {
        assert forall i :: 0 <= i < |pad| + |parts[1]| ==>
          shifted[0][i] == if i < |pad| then pad[i] else parts[1][i - |pad|];
      }
      SplitOnJoin(shifted, c, pad);
      assert [shifted[0]] + PrefixEach(pad, shifted[1..]) == PrefixEach(pad, parts[1..]) by {
        assert shifted[1..] == parts[2..];
      }
    } else {
      assert Join(parts, [c] + pad) == parts[0];
    }
  }

  /** Length of the text before the first line boundary (all of it if none). */
  function LineLength(s: string): (n: nat)
    ensures n <= |s|
    ensures forall i :: 0 <= i < n ==> s[i] !in LineBreaks
    ensures n < |s| ==> s[n] in LineBreaks
    decreases |s|
  {
    if |s| == 0 || s[0] in LineBreaks then 0 else 1 + LineLength(s[1..])
  }

  /** The text cut at every line boundary; no piece holds a boundary. */
  function LinePieces(s: string): (r: seq<string>)
    ensures |r| >= 1
    ensures forall k :: 0 <= k < |r| ==> NoLineBreak(r[k])
    decreases |s|
  {
    var n := LineLength(s);
    if n == |s| then [s] else [s[..n]] + LinePieces(s[n + 1..])
  }

  /** The text with every line-boundary character written as "\n". */
  function Breaks(s: string): (r: string)
    ensures |r| == |s|
    ensures forall i :: 0 <= i < |s| ==> r[i] == if s[i] in LineBreaks then '\n' else s[i]
  {
    seq(|s|, i requires 0 <= i < |s| => if s[i] in LineBreaks then '\n' else s[i])
  }

  /** A first line without boundaries, one boundary, then the rest. */
  lemma BreaksAt(s: string, n: nat)
    requires n < |s| && s[n] in LineBreaks
    requires forall i :: 0 <= i < n ==> s[i] !in LineBreaks
    ensures Breaks(s) == s[..n] + "\n" + Breaks(s[n + 1..])
  {
    var t := s[..n] + "\n" + Breaks(s[n + 1..]);
    assert |t| == |s|;
    forall i | 0 <= i < |s| ensures Breaks(s)[i] == t[i] {
      if i > n {
        assert s[i] == s[n + 1..][i - n - 1];
      }
    }
  }

  /** The other direction of the round trip: the pieces of any text, joined with
      "\n", give back the text with each boundary character read as "\n". In
      particular nothing is lost or reordered by the cut. */
  lemma {:induction false} LinePiecesJoinBack(s: string)
    ensures Join(LinePieces(s), "\n") == Breaks(s)
    decreases |s|
  {
    var n := LineLength(s);
    if n == |s| {
      assert Breaks(s) == s;
    } else {
      var tail := s[n + 1..];
      var rest := LinePieces(tail);
      calc {
        Join(LinePieces(s), "\n");
        Join([s[..n]] + rest, "\n");
        { JoinCons(s[..n], rest, "\n"); }
        s[..n] + "\n" + Join(rest, "\n");
        { LinePiecesJoinBack(tail); }
        s[..n] + "\n" + Breaks(tail);
        { BreaksAt(s, n); }
        Breaks(s);
      }
    }
  }

  /** Cutting lines joined with "\n" gives the lines back. */
  lemma {:induction false} LinePiecesJoin(lines: seq<string>)
    requires |lines| >= 1
    requires forall k :: 0 <= k < |lines| ==> NoLineBreak(lines[k])
    ensures LinePieces(Join(lines, "\n")) == lines
    decreases |lines|
  {
    if |lines| > 1 {
      var a, rest := lines[0], Join(lines[1..], "\n");
      var s := a + "\n" + rest;
      assert s == Join(lines, "\n");
      var n := LineLength(s);
      assert s[|a|] == '\n';
      assert forall i :: 0 <= i < |a| ==> s[i] == a[i];
      assert n == |a|;
      assert s[..n] == a;
      assert s[n + 1..] == rest;
      LinePiecesJoin(lines[1..]);
    }
  }

  /** Python's `len(s.split())`: the number of maximal runs of non-whitespace. */
  function WordCount(s: string): (n: nat)
    ensures n <= |s|
    decreases |s|
  {
    if |s| == 0 then 0
    else if s[0] in Whitespace then WordCount(s[1..])
    else if |s| == 1 || s[1] in Whitespace then 1 + WordCount(s[1..])
    else WordCount(s[1..])
  }

  /** A run of non-whitespace characters is one word. */
  lemma {:induction false} WordCountOne(w: string)
    requires w != [] && forall i :: 0 <= i < |w| ==> w[i] !in Whitespace
    ensures WordCount(w) == 1
    decreases |w|
  {
    if |w| > 1 {
      WordCountOne(w[1..]);
    }
  }

  /** Words are counted piece by piece across a whitespace boundary: text that ends
      in whitespace (or is empty) followed by any text. */
  lemma {:induction false} WordCountAppend(a: string, b: string)
    requires a == [] || a[|a| - 1] in Whitespace
    ensures WordCount(a + b) == WordCount(a) + WordCount(b)
    decreases |a|
  {
    if a == [] {
      assert a + b == b;
    } else {
      assert (a + b)[0] == a[0] && (a + b)[1..] == a[1..] + b;
      if |a| > 1 {
        assert (a + b)[1] == a[1];
      }
      WordCountAppend(a[1..], b);
    }
  }

  // ---------------------------------------------------------------------------
  // Decimal numerals
  // ---------------------------------------------------------------------------

  /** The value of a string of decimal digits. */
  function DigitsValue(s: string): int
    requires forall i :: 0 <= i < |s| ==> IsDigit(s[i])
  {
    if |s| == 0 then 0 else 10 * DigitsValue(s[..|s| - 1]) + (s[|s| - 1] as int - '0' as int)
  }

  /** Python's `str(n)` for a natural number: digits only, no leading zero, reads back as `n`. */
  function NatToDecimal(n: nat): (r: string)
    ensures IsDigits(r)
    ensures |r| > 1 ==> r[0] != '0'
    ensures DigitsValue(r) == n
  {
    var d := ['0' + (n % 10) as char];
    if n < 10 then d
    else
      var h := NatToDecimal(n / 10);
      assert (h + d)[..|h + d| - 1] == h;
      h + d
  }

  /** Python's `str(n)` for any integer: a minus sign before the digits of `-n`. */
  function IntToDecimal(n: int): (r: string)
    ensures n >= 0 ==> r == NatToDecimal(n)
    ensures n < 0 ==> r == "-" + NatToDecimal(-n)
  {
    if n < 0 then "-" + NatToDecimal(-n) else NatToDecimal(n)
  }

  // ---------------------------------------------------------------------------
  // Numbered lists
  // ---------------------------------------------------------------------------

  /** The lines `"1. q0"`, `"2. q1"`, ... of an enumerated list. */
  function NumberedLines(items: seq<string>): (r: seq<string>)
    ensures |r| == |items|
    ensures forall i :: 0 <= i < |items| ==> r[i] == NatToDecimal(i + 1) + ". " + items[i]
  {
    seq(|items|, i requires 0 <= i < |items| => NatToDecimal(i + 1) + ". " + items[i])
  }

  /** Python's `"\n".join(f"{i+1}. {q}" for i, q in enumerate(items))`. */
  function NumberedList(items: seq<string>): string {
    Join(NumberedLines(items), "\n")
  }
}
