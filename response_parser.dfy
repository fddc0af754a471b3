/**
  The heuristic that turns a free-form completion into a list of questions
  (`Chatbot._parse_questions`): cut into lines, drop blank lines, remove a bullet
  run, remove numbering, keep only lines longer than ten characters, keep the
  first fifteen.
*/
module ResponseParser {
  import opened Wrappers
  import opened Text

  /** The numbering separators, tried in this order, each at most once. */
  const Separators: seq<string> := [". ", ") ", " - "]

  /** The characters `lstrip("-* ")` removes from a bulleted line. */
  const BulletChars: set<char> := {'-', '*', ' '}

  /** A cleaned line is kept only when it is strictly longer than this. */
  const MinQuestionLength: nat := 10

  /** At most this many questions are returned. */
  const MaxQuestions: nat := 15

  /** `[l.strip() for l in pieces if l.strip()]` */
  function NonBlankStripped(pieces: seq<string>): (r: seq<string>)
    ensures |r| <= |pieces|
    ensures forall k :: 0 <= k < |r| ==> r[k] != [] && IsStripped(r[k])
    decreases |pieces|
  {
    if pieces == [] then []
    else
      StripIsStripped(pieces[0]);
      (if Strip(pieces[0]) != [] then [Strip(pieces[0])] else []) + NonBlankStripped(pieces[1..])
  }

  /** What one piece contributes. */
  function NonBlankPiece(piece: string): seq<string> {
    if Strip(piece) != [] then [Strip(piece)] else []
  }

  lemma NonBlankStrippedCons(piece: string, rest: seq<string>)
    ensures NonBlankStripped([piece] + rest) == NonBlankPiece(piece) + NonBlankStripped(rest)
  {
    assert ([piece] + rest)[0] == piece && ([piece] + rest)[1..] == rest;
  }

  /** One piece is kept, stripped, exactly when it is not blank. */
  lemma NonBlankStrippedOne(piece: string)
    ensures NonBlankStripped([piece]) == if Strip(piece) != [] then [Strip(piece)] else []
  {
    assert [piece][1..] == [];
  }

  /** The pieces are filtered one by one: the result for a concatenation is the
      results for its parts, in order. */
  lemma {:induction false} NonBlankStrippedAppend(a: seq<string>, b: seq<string>)
    ensures NonBlankStripped(a + b) == NonBlankStripped(a) + NonBlankStripped(b)
    decreases |a|
  {
    if a == [] {
      assert a + b == b;
    } else {
      var x, xs := a[0], a[1..];
      assert a == [x] + xs;
      calc {
        NonBlankStripped(a + b);
        { assert a + b == [x] + (xs + b); }
        NonBlankStripped([x] + (xs + b));
        { NonBlankStrippedCons(x, xs + b); }
        NonBlankPiece(x) + NonBlankStripped(xs + b);
        { NonBlankStrippedAppend(xs, b); }
        NonBlankPiece(x) + (NonBlankStripped(xs) + NonBlankStripped(b));
        (NonBlankPiece(x) + NonBlankStripped(xs)) + NonBlankStripped(b);
        { NonBlankStrippedCons(x, xs); }
        NonBlankStripped(a) + NonBlankStripped(b);
      }
    }
  }

  /** The non-blank lines of a completion, each stripped. */
  function StrippedLines(text: string): seq<string> {
    NonBlankStripped(LinePieces(text))
  }

  /** A line whose first non-blank character is `-` or `*` loses its leading run of
      `-`, `*` and spaces and is stripped again; any other line is left alone. */
  function DropBullets(line: string): (r: string)
    ensures IsStripped(line) ==> IsStripped(r)
  {
    var l := TrimLeft(line, Whitespace);
    if |l| > 0 && (l[0] == '-' || l[0] == '*') then
      StripIsStripped(TrimLeft(line, BulletChars));
      Strip(TrimLeft(line, BulletChars))
    else line
  }

  /** One numbering step: when `sep` occurs and the text before its first occurrence
      is all digits, everything through that occurrence goes and the rest is stripped. */
  function DropNumber(s: string, sep: string): (r: string)
    ensures IsStripped(s) ==> IsStripped(r)
  {
    match Find(s, sep)
    case Some(i) =>
      if IsDigits(s[..i]) then
        StripIsStripped(s[i + |sep|..]);
        Strip(s[i + |sep|..])
      else s
    case None => s
  }

  /** The first `n` numbering steps, in separator order. */
  function DropNumbers(s: string, n: nat): (r: string)
    requires n <= |Separators|
    ensures IsStripped(s) ==> IsStripped(r)
  {
    if n == 0 then s else DropNumber(DropNumbers(s, n - 1), Separators[n - 1])
  }

  lemma DropNumbersStep(s: string, k: nat)
    requires k < |Separators|
    ensures DropNumbers(s, k + 1) == DropNumber(DropNumbers(s, k), Separators[k])
  {
  }

  /** What one stripped, non-blank line becomes. */
  function CleanLine(line: string): (r: string)
    ensures IsStripped(line) ==> IsStripped(r)
  {
    DropNumbers(DropBullets(line), |Separators|)
  }

  predicate IsKept(cleaned: string) {
    |cleaned| > MinQuestionLength
  }

  /** Every line cleaned, position by position. */
  function CleanedLines(lines: seq<string>): (r: seq<string>)
    ensures |r| == |lines|
    ensures forall i :: 0 <= i < |lines| ==> r[i] == CleanLine(lines[i])
  {
    seq(|lines|, i requires 0 <= i < |lines| => CleanLine(lines[i]))
  }

  /** The cleaned lines that are long enough, in order. */
  function KeepLong(cleaned: seq<string>): (r: seq<string>)
    decreases |cleaned|
  {
    if cleaned == [] then []
    else
      var last := cleaned[|cleaned| - 1];
      KeepLong(cleaned[..|cleaned| - 1]) + (if IsKept(last) then [last] else [])
  }

  /** Cleaning one more line appends it to the kept questions when it is long enough. */
  lemma KeepLongStep(lines: seq<string>, i: nat)
    requires i < |lines|
    ensures var cleaned := CleanLine(lines[i]);
      KeepLong(CleanedLines(lines[..i + 1]))
        == KeepLong(CleanedLines(lines[..i])) + (if IsKept(cleaned) then [cleaned] else [])
  {
    var c := CleanedLines(lines[..i + 1]);
    assert c[..i] == CleanedLines(lines[..i]);
  }

  /** Python's `questions[:n]`. */
  function Truncate(qs: seq<string>, n: nat): (r: seq<string>)
    ensures |r| == (if |qs| <= n then |qs| else n) && r == qs[..|r|]
  {
    if |qs| <= n then qs else qs[..n]
  }

  /** The questions `_parse_questions` returns for a completion. */
  function ParsedQuestions(text: string): seq<string> {
    Truncate(KeepLong(CleanedLines(StrippedLines(text))), MaxQuestions)
  }

  // ---------------------------------------------------------------------------
  // What the parser guarantees
  // ---------------------------------------------------------------------------

  /** The positions of the cleaned lines that are kept. */
  function KeptIndices(cleaned: seq<string>): seq<nat>
    decreases |cleaned|
  {
    if cleaned == [] then []
    else
      KeptIndices(cleaned[..|cleaned| - 1])
      + (if IsKept(cleaned[|cleaned| - 1]) then [|cleaned| - 1] else [])
  }

  /** The kept entries are the cleaned lines at the kept positions, and those
      positions increase: the parser keeps the order of the lines. */
  lemma {:induction false} KeepLongInOrder(cleaned: seq<string>)
    ensures |KeptIndices(cleaned)| == |KeepLong(cleaned)|
    ensures forall k :: 0 <= k < |KeptIndices(cleaned)| ==>
              KeptIndices(cleaned)[k] < |cleaned|
              && KeepLong(cleaned)[k] == cleaned[KeptIndices(cleaned)[k]]
    ensures forall k, m :: 0 <= k < m < |KeptIndices(cleaned)| ==>
              KeptIndices(cleaned)[k] < KeptIndices(cleaned)[m]
    decreases |cleaned|
  {
    if cleaned != [] {
      var n := |cleaned| - 1;
      KeepLongInOrder(cleaned[..n]);
      assert forall j :: 0 <= j < n ==> cleaned[..n][j] == cleaned[j];
    }
  }

  /** A position is kept exactly when its cleaned line is longer than ten characters. */
  lemma {:induction false} KeptIndicesExact(cleaned: seq<string>)
    ensures forall j :: 0 <= j < |cleaned| ==>
              (j in KeptIndices(cleaned) <==> IsKept(cleaned[j]))
    decreases |cleaned|
  {
    if cleaned != [] {
      var n := |cleaned| - 1;
      KeptIndicesExact(cleaned[..n]);
      KeepLongInOrder(cleaned[..n]);
      assert forall j :: 0 <= j < n ==> cleaned[..n][j] == cleaned[j];
    }
  }

  /** Every kept entry is longer than ten characters, and stripped when the lines were. */
  lemma {:induction false} KeepLongShape(cleaned: seq<string>)
    ensures forall k :: 0 <= k < |KeepLong(cleaned)| ==> IsKept(KeepLong(cleaned)[k])
    ensures (forall k :: 0 <= k < |cleaned| ==> IsStripped(cleaned[k])) ==>
              forall k :: 0 <= k < |KeepLong(cleaned)| ==> IsStripped(KeepLong(cleaned)[k])
    decreases |cleaned|
  {
    if cleaned != [] {
      KeepLongShape(cleaned[..|cleaned| - 1]);
    }
  }

  /** `_parse_questions` returns the first fifteen of the cleaned non-blank lines
      that are long enough (all of them when there are fewer), each trimmed and longer
      than ten characters. */
  lemma ParsedQuestionsShape(text: string)
    ensures var kept := KeepLong(CleanedLines(StrippedLines(text)));
      |ParsedQuestions(text)| == if |kept| <= MaxQuestions then |kept| else MaxQuestions
    ensures forall k :: 0 <= k < |ParsedQuestions(text)| ==>
              |ParsedQuestions(text)[k]| > MinQuestionLength && IsStripped(ParsedQuestions(text)[k])
    ensures ParsedQuestions(text)
            == KeepLong(CleanedLines(StrippedLines(text)))[..|ParsedQuestions(text)|]
  {
    var lines := StrippedLines(text);
    var cleaned := CleanedLines(lines);
    forall k | 0 <= k < |cleaned| ensures IsStripped(cleaned[k]) {
      assert IsStripped(lines[k]);
    }
    KeepLongShape(cleaned);
    TruncateKept(KeepLong(cleaned));
  }

  /** Truncation keeps the shape of the entries it keeps. */
  lemma TruncateKept(kept: seq<string>)
    requires forall k :: 0 <= k < |kept| ==> IsKept(kept[k]) && IsStripped(kept[k])
    ensures forall k :: 0 <= k < |Truncate(kept, MaxQuestions)| ==>
              |Truncate(kept, MaxQuestions)[k]| > MinQuestionLength
              && IsStripped(Truncate(kept, MaxQuestions)[k])
  {
  }

  // ---------------------------------------------------------------------------
  // How single lines are cleaned
  // ---------------------------------------------------------------------------

  /** Text that does not start with a digit keeps every numbering step away. */
  predicate Unnumbered(q: string) {
    q != [] && IsStripped(q) && !IsDigit(q[0]) && NoLineBreak(q)
  }

  lemma DropNumberUnnumbered(q: string, sep: string)
    requires q != [] && !IsDigit(q[0])
    ensures DropNumber(q, sep) == q
  {
    match Find(q, sep)
    case Some(i) =>
      if i > 0 {
        assert !IsDigit(q[..i][0]);
      }
    case None =>
  }

  lemma DropNumbersUnnumbered(q: string, n: nat)
    requires q != [] && !IsDigit(q[0])
    requires n <= |Separators|
    ensures DropNumbers(q, n) == q
  {
    if n > 0 {
      DropNumbersUnnumbered(q, n - 1);
      DropNumberUnnumbered(q, Separators[n - 1]);
    }
  }

  /** A line without bullet or digit prefix comes through unchanged. */
  lemma CleanLineUnnumbered(line: string)
    requires Unnumbered(line)
    requires line[0] != '-' && line[0] != '*'
    ensures CleanLine(line) == line
  {
    StripStripped(line);
    assert TrimLeft(line, Whitespace) == line;
    DropNumbersUnnumbered(line, |Separators|);
  }

  /** The three numbering steps of a line, spelled out. */
  lemma CleanLineSteps(line: string)
    ensures CleanLine(line) == DropNumber(DropNumber(DropNumber(DropBullets(line), ". "), ") "), " - ")
  {
    var b := DropBullets(line);
    assert DropNumbers(b, 1) == DropNumber(b, ". ");
    assert DropNumbers(b, 2) == DropNumber(DropNumbers(b, 1), ") ");
    assert DropNumbers(b, 3) == DropNumber(DropNumbers(b, 2), " - ");
  }

  /** The three numbering steps of a line, as a chain of intermediate results. */
  lemma CleanLineChain(line: string, x1: string, x2: string, x3: string)
    requires DropBullets(line) == line
    requires DropNumber(line, ". ") == x1
    requires DropNumber(x1, ") ") == x2
    requires DropNumber(x2, " - ") == x3
    ensures CleanLine(line) == x3
  {
    CleanLineSteps(line);
  }

  /** A digit run, a separator and stripped text make a stripped line starting with a digit. */
  lemma DigitsThenText(k: string, sep: string, rest: string)
    requires IsDigits(k) && rest != [] && IsStripped(rest)
    ensures k + sep + rest != [] && IsDigit((k + sep + rest)[0]) && IsStripped(k + sep + rest)
  {
    var s := k + sep + rest;
    assert s[0] == k[0] && s[|s| - 1] == rest[|rest| - 1];
  }

  /** A digit run, `". "` and then text without a digit prefix: the number goes,
      whichever separators the text itself holds. */
  lemma CleanLineNumbered(k: string, q: string)
    requires IsDigits(k) && Unnumbered(q)
    ensures CleanLine(k + ". " + q) == q
  {
    var line := k + ". " + q;
    DigitsThenText(k, ". ", q);
    BulletFree(line);
    StackedStep(k, ". ", q);
    DropNumberUnnumbered(q, ") ");
    DropNumberUnnumbered(q, " - ");
    CleanLineChain(line, q, q, q);
  }

  /** Prefixes are removed cumulatively: `"1. 2) q"` gives `q`. */
  lemma CleanLineTwoPrefixes(a: string, b: string, q: string)
    requires IsDigits(a) && IsDigits(b) && Unnumbered(q)
    ensures CleanLine(a + ". " + (b + ") " + q)) == q
  {
    var rest := b + ") " + q;
    var line := a + ". " + rest;
    DigitsThenText(b, ") ", q);
    DigitsThenText(a, ". ", rest);
    BulletFree(line);
    StackedStep(a, ". ", rest);
    StackedStep(b, ") ", q);
    DropNumberUnnumbered(q, " - ");
    CleanLineChain(line, rest, q, q);
  }

  /** All three steps can fire on one line: `"1. 2) 3 - q"` gives `q`. */
  lemma CleanLineThreePrefixes(a: string, b: string, c: string, q: string)
    requires IsDigits(a) && IsDigits(b) && IsDigits(c) && Unnumbered(q)
    ensures CleanLine(a + ". " + (b + ") " + (c + " - " + q))) == q
  {
    var rest3 := c + " - " + q;
    var rest2 := b + ") " + rest3;
    var line := a + ". " + rest2;
    DigitsThenText(c, " - ", q);
    DigitsThenText(b, ") ", rest3);
    DigitsThenText(a, ". ", rest2);
    BulletFree(line);
    StackedStep(a, ". ", rest2);
    StackedStep(b, ") ", rest3);
    StackedStep(c, " - ", q);
    CleanLineChain(line, rest2, rest3, q);
  }

  /** A line that starts with a digit has no bullet to remove. */
  lemma BulletFree(line: string)
    requires line != [] && IsDigit(line[0])
    ensures DropBullets(line) == line
  {
    assert line[0] !in Whitespace && line[0] != '-' && line[0] != '*';
    assert TrimLeft(line, Whitespace) == line;
  }

  /** `lstrip("-* ")` removes exactly a run of bullet characters in front of text
      that does not itself start with one. */
  lemma {:induction false} TrimBullets(b: string, q: string)
    requires forall i :: 0 <= i < |b| ==> b[i] in BulletChars
    requires q != [] && q[0] !in BulletChars
    ensures TrimLeft(b + q, BulletChars) == q
    decreases |b|
  {
    if b == [] {
      assert b + q == q;
    } else {
      assert (b + q)[0] == b[0] && (b + q)[1..] == b[1..] + q;
      TrimBullets(b[1..], q);
    }
  }

  /** A line opening with `-` or `*` loses its whole leading run of `-`, `*` and
      spaces, not just one marker. */
  lemma BulletRunRemoved(b: string, q: string)
    requires b != [] && (b[0] == '-' || b[0] == '*')
    requires forall i :: 0 <= i < |b| ==> b[i] in BulletChars
    requires q != [] && IsStripped(q) && q[0] !in BulletChars
    ensures DropBullets(b + q) == q
  {
    assert (b + q)[0] == b[0] && b[0] !in Whitespace;
    assert TrimLeft(b + q, Whitespace) == b + q;
    TrimBullets(b, q);
    StripStripped(q);
  }

  /** A bulleted, numbered line such as `"- 3. q"` or `"** 12. q"` cleans to `q`. */
  lemma CleanLineBulleted(b: string, k: string, q: string)
    requires b != [] && (b[0] == '-' || b[0] == '*')
    requires forall i :: 0 <= i < |b| ==> b[i] in BulletChars
    requires IsDigits(k) && Unnumbered(q)
    ensures CleanLine(b + (k + ". " + q)) == q
  {
    var line := k + ". " + q;
    DigitsThenText(k, ". ", q);
    assert line[0] !in BulletChars;
    BulletRunRemoved(b, line);
    CleanLineNumbered(k, q);
    BulletFree(line);
  }

  /** A digit run followed by a separator that does not start with a digit is
      removed, together with the separator, by that separator's step. */
  lemma StackedStep(k: string, sep: string, rest: string)
    requires IsDigits(k) && sep != [] && !IsDigit(sep[0])
    requires rest != [] && IsStripped(rest)
    ensures DropNumber(k + sep + rest, sep) == rest
  {
    var s := k + sep + rest;
    assert MatchAt(s, sep, |k|) by { assert s[|k|..|k| + |sep|] == sep; }
    assert forall j :: 0 <= j < |k| ==> s[j] == k[j];
    assert Find(s, sep).value == |k|;
    assert s[..|k|] == k;
    assert s[|k| + |sep|..] == rest;
    StripStripped(rest);
  }

  // ---------------------------------------------------------------------------
  // Round trip through a numbered list
  // ---------------------------------------------------------------------------

  /** A question that survives being numbered and parsed again: one trimmed line,
      longer than ten characters, not starting with a digit. */
  predicate ParseStable(q: string) {
    Unnumbered(q) && IsKept(q)
  }

  lemma {:induction false} NonBlankStrippedIdentity(lines: seq<string>)
    requires forall k :: 0 <= k < |lines| ==> lines[k] != [] && IsStripped(lines[k])
    ensures NonBlankStripped(lines) == lines
    decreases |lines|
  {
    if lines != [] {
      StripStripped(lines[0]);
      NonBlankStrippedIdentity(lines[1..]);
    }
  }

  lemma {:induction false} KeepLongOfLong(cleaned: seq<string>)
    requires forall k :: 0 <= k < |cleaned| ==> IsKept(cleaned[k])
    ensures KeepLong(cleaned) == cleaned
    decreases |cleaned|
  {
    if cleaned != [] {
      KeepLongOfLong(cleaned[..|cleaned| - 1]);
    }
  }

  /** One line `"n. q"` of a numbered list is a single stripped line. */
  lemma NumberedLineShape(n: nat, q: string)
    requires Unnumbered(q)
    ensures var line := NatToDecimal(n) + ". " + q;
      line != [] && IsStripped(line) && NoLineBreak(line)
  {
    var k := NatToDecimal(n);
    var line := k + ". " + q;
    DigitsThenText(k, ". ", q);
    forall i | 0 <= i < |line| ensures line[i] !in LineBreaks {
      if i < |k| {
        assert line[i] == k[i];
      } else if i >= |k| + 2 {
        assert line[i] == q[i - |k| - 2];
      }
    }
  }

  /** The lines of a numbered list of unnumbered questions are its numbered lines,
      and each cleans back to its question. */
  lemma NumberedListLines(qs: seq<string>)
    requires forall k :: 0 <= k < |qs| ==> Unnumbered(qs[k])
    ensures StrippedLines(NumberedList(qs)) == NumberedLines(qs)
    ensures CleanedLines(NumberedLines(qs)) == qs
  {
    var lines := NumberedLines(qs);
    if qs == [] {
      assert NumberedList(qs) == "";
      assert LinePieces("") == [""];
    } else {
      forall k | 0 <= k < |lines|
        ensures lines[k] != [] && IsStripped(lines[k]) && NoLineBreak(lines[k])
      {
        NumberedLineShape(k + 1, qs[k]);
      }
      LinePiecesJoin(lines);
      NonBlankStrippedIdentity(lines);
    }
    forall k | 0 <= k < |lines| ensures CleanedLines(lines)[k] == qs[k] {
      CleanLineNumbered(NatToDecimal(k + 1), qs[k]);
    }
  }

  /** Parsing a numbered list of questions without digit prefixes gives back those
      longer than ten characters, at most fifteen of them, in order. */
  lemma ParseNumberedList(qs: seq<string>)
    requires forall k :: 0 <= k < |qs| ==> Unnumbered(qs[k])
    ensures ParsedQuestions(NumberedList(qs)) == Truncate(KeepLong(qs), MaxQuestions)
  {
    NumberedListLines(qs);
  }

  /** Round trip: at most fifteen stable questions, numbered and parsed, come back unchanged. */
  lemma ParseNumberedStable(qs: seq<string>)
    requires |qs| <= MaxQuestions
    requires forall k :: 0 <= k < |qs| ==> ParseStable(qs[k])
    ensures ParsedQuestions(NumberedList(qs)) == qs
  {
    ParseNumberedList(qs);
    KeepLongOfLong(qs);
  }

  lemma TwoLineNumberedList()
    ensures NumberedList(["Explain X", "Explain Y"]) == "1. Explain X\n2. Explain Y"
  {
    var lines := NumberedLines(["Explain X", "Explain Y"]);
    assert NatToDecimal(1) == "1" && NatToDecimal(2) == "2";
    assert lines == ["1. Explain X", "2. Explain Y"] by {
      assert lines[0] == "1. Explain X" && lines[1] == "2. Explain Y";
    }
    assert Join(lines, "\n") == "1. Explain X\n2. Explain Y";
  }

  lemma ShortQuestionsNotKept()
    ensures KeepLong(["Explain X", "Explain Y"]) == []
  {
    var qs := ["Explain X", "Explain Y"];
    assert KeepLong(qs[..1]) == [];
  }

  /** Numbered questions of ten characters or fewer are all dropped: the list
      `"1. Explain X\n2. Explain Y"` parses to nothing. */
  lemma ShortNumberedQuestionsDropped()
    ensures NumberedList(["Explain X", "Explain Y"]) == "1. Explain X\n2. Explain Y"
    ensures ParsedQuestions("1. Explain X\n2. Explain Y") == []
  {
    var qs := ["Explain X", "Explain Y"];
    TwoLineNumberedList();
    assert Unnumbered(qs[0]) && Unnumbered(qs[1]);
    ParseNumberedList(qs);
    ShortQuestionsNotKept();
  }
}
