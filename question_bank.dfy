/**
  The canned question bank (`RULE_BASED_QUESTION_BANK`) and the offline reply built
  from it (`LLMWrapper._rule_based_from_prompt`), as specification functions.
  The loops that compute the reply are `Llm.LlmWrapper.RuleBasedFromPrompt`.
*/
module QuestionBank {
  import opened Text
  import opened ResponseParser

  // Each question is written as two literals of at most forty characters. The
  // text is the same as one literal; the split only keeps the verifier's work on
  // each piece small when it inspects the characters (see StableFromHalves).

  const PythonQuestions: seq<string> := [
    "Explain the difference between a list " + "and a tuple in Python.",
    "How does Python's GIL affect " + "multi-threaded programs?",
    "Write a function to reverse a string " + "and explain its complexity."
  ]
  const DjangoQuestions: seq<string> := [
    "What is Django's MTV architecture? How " + "is it different from MVC?",
    "How do you manage database migrations " + "in Django?",
    "Explain middlewares in Django and a use-" + "case for creating a custom middleware."
  ]
  const ReactQuestions: seq<string> := [
    "What are React hooks and why were they " + "introduced?",
    "Explain the difference between props " + "and state in React.",
    "How does the virtual DOM " + "work?"
  ]
  const SqlQuestions: seq<string> := [
    "Write a SQL query to find duplicate " + "rows in a table.",
    "Explain the difference between INNER " + "JOIN and LEFT JOIN.",
    "What is indexing and how does it " + "improve query performance?"
  ]
  const AwsQuestions: seq<string> := [
    "What is IAM and why is it " + "important?",
    "Describe how S3 versioning works and a " + "use-case.",
    "Compare EC2 and Lambda for running " + "compute workloads."
  ]

  /** The bank as an ordered dictionary: its entries in insertion order. */
  const Bank: seq<(string, seq<string>)> := [
    ("python", PythonQuestions),
    ("django", DjangoQuestions),
    ("react", ReactQuestions),
    ("sql", SqlQuestions),
    ("aws", AwsQuestions)
  ]

  /** At most this many questions are taken per technology (`[:3]`). */
  const PerTech: nat := 3

  /** The reply when no bank key occurs in the prompt. */
  const Guidance :=
    "I couldn't use an LLM backend. " + "Here's a helpful fallback: "
    + "Please list your tech stack (e.g., Python, Django, React). "
    + "I can generate technical questions once you provide technologies."

  // ---------------------------------------------------------------------------
  // Dictionary access
  // ---------------------------------------------------------------------------

  /** An ordered dictionary from technology names to question lists: its entries in
      insertion order. The functions below take it as a parameter so that what is
      proved about them does not depend on the bank's text. */
  type Entries = seq<(string, seq<string>)>

  /** The position of the first `k` in `s`, or `|s|` when there is none. */
  function IndexOf(s: seq<string>, k: string): (r: nat)
    ensures r <= |s|
    ensures r < |s| ==> s[r] == k
    ensures forall j :: 0 <= j < r ==> s[j] != k
    ensures k in s ==> r < |s|
    decreases |s|
  {
    if |s| == 0 then 0 else if s[0] == k then 0 else 1 + IndexOf(s[1..], k)
  }

  /** `entries.keys()`, in insertion order. */
  function KeysOf(entries: Entries): (r: seq<string>)
    ensures |r| == |entries|
    ensures forall i :: 0 <= i < |entries| ==> r[i] == entries[i].0
  {
    seq(|entries|, i requires 0 <= i < |entries| => entries[i].0)
  }

  /** A dictionary holds each key once. */
  predicate DistinctKeys(entries: Entries) {
    forall i, j :: 0 <= i < j < |entries| ==> entries[i].0 != entries[j].0
  }

  /** In a dictionary, each key's first position is its own. */
  lemma KeyPosition(entries: Entries, i: nat)
    requires DistinctKeys(entries) && i < |entries|
    ensures IndexOf(KeysOf(entries), entries[i].0) == i
  {
    assert KeysOf(entries)[i] == entries[i].0;
  }

  /** `entries.get(tech, [])`: the list of the first entry with that key, or nothing. */
  function LookupIn(entries: Entries, tech: string): (r: seq<string>)
    ensures var i := IndexOf(KeysOf(entries), tech);
      (i < |entries| ==> r == entries[i].1) && (i == |entries| ==> r == [])
    decreases |entries|
  {
    if |entries| == 0 then []
    else if entries[0].0 == tech then entries[0].1
    else
      assert KeysOf(entries)[1..] == KeysOf(entries[1..]);
      LookupIn(entries[1..], tech)
  }

  // ---------------------------------------------------------------------------
  // Facts about the bank's contents
  // ---------------------------------------------------------------------------

  /** Characters from the space upwards: never a line boundary. */
  predicate Printable(s: string) {
    forall i :: 0 <= i < |s| ==> ' ' <= s[i]
  }

  /** A question written out as two printable halves, starting with neither a
      space nor a digit and not ending in a space, is stable under numbering and
      parsing. */
  lemma StableFromHalves(q: string, a: string, b: string)
    requires q == a + b
    requires Printable(a) && Printable(b)
    requires |a| > MinQuestionLength && a[0] != ' ' && !IsDigit(a[0])
    requires b != [] && b[|b| - 1] != ' '
    ensures ParseStable(q)
  {
    assert forall i :: 0 <= i < |q| ==> ' ' <= q[i] by {
      forall i | 0 <= i < |q|
        ensures ' ' <= q[i]
      {
        if i < |a| {
          assert q[i] == a[i];
        } else {
          assert q[i] == b[i - |a|];
        }
      }
    }
    assert q[0] == a[0] && q[|q| - 1] == b[|b| - 1];
  }

  lemma PythonQuestion0Stable()
    ensures ParseStable(PythonQuestions[0])
  {
    StableFromHalves(PythonQuestions[0], "Explain the difference between a list ", "and a tuple in Python.");
  }

  lemma PythonQuestion1Stable()
    ensures ParseStable(PythonQuestions[1])
  {
    StableFromHalves(PythonQuestions[1], "How does Python's GIL affect ", "multi-threaded programs?");
  }

  lemma PythonQuestion2Stable()
    ensures ParseStable(PythonQuestions[2])
  {
    StableFromHalves(PythonQuestions[2], "Write a function to reverse a string ", "and explain its complexity.");
  }

  lemma DjangoQuestion0Stable()
    ensures ParseStable(DjangoQuestions[0])
  {
    StableFromHalves(DjangoQuestions[0], "What is Django's MTV architecture? How ", "is it different from MVC?");
  }

  lemma DjangoQuestion1Stable()
    ensures ParseStable(DjangoQuestions[1])
  {
    StableFromHalves(DjangoQuestions[1], "How do you manage database migrations ", "in Django?");
  }

  lemma DjangoQuestion2Stable()
    ensures ParseStable(DjangoQuestions[2])
  {
    StableFromHalves(DjangoQuestions[2], "Explain middlewares in Django and a use-", "case for creating a custom middleware.");
  }

  lemma ReactQuestion0Stable()
    ensures ParseStable(ReactQuestions[0])
  {
    StableFromHalves(ReactQuestions[0], "What are React hooks and why were they ", "introduced?");
  }

  lemma ReactQuestion1Stable()
    ensures ParseStable(ReactQuestions[1])
  {
    StableFromHalves(ReactQuestions[1], "Explain the difference between props ", "and state in React.");
  }

  lemma ReactQuestion2Stable()
    ensures ParseStable(ReactQuestions[2])
  {
    StableFromHalves(ReactQuestions[2], "How does the virtual DOM ", "work?");
  }

  lemma SqlQuestion0Stable()
    ensures ParseStable(SqlQuestions[0])
  {
    StableFromHalves(SqlQuestions[0], "Write a SQL query to find duplicate ", "rows in a table.");
  }

  lemma SqlQuestion1Stable()
    ensures ParseStable(SqlQuestions[1])
  {
    StableFromHalves(SqlQuestions[1], "Explain the difference between INNER ", "JOIN and LEFT JOIN.");
  }

  lemma SqlQuestion2Stable()
    ensures ParseStable(SqlQuestions[2])
  {
    StableFromHalves(SqlQuestions[2], "What is indexing and how does it ", "improve query performance?");
  }

  lemma AwsQuestion0Stable()
    ensures ParseStable(AwsQuestions[0])
  {
    StableFromHalves(AwsQuestions[0], "What is IAM and why is it ", "important?");
  }

  lemma AwsQuestion1Stable()
    ensures ParseStable(AwsQuestions[1])
  {
    StableFromHalves(AwsQuestions[1], "Describe how S3 versioning works and a ", "use-case.");
  }

  lemma AwsQuestion2Stable()
    ensures ParseStable(AwsQuestions[2])
  {
    StableFromHalves(AwsQuestions[2], "Compare EC2 and Lambda for running ", "compute workloads.");
  }

  lemma PythonQuestionsStable()
    ensures forall k :: 0 <= k < |PythonQuestions| ==> ParseStable(PythonQuestions[k])
  {
    PythonQuestion0Stable();
    PythonQuestion1Stable();
    PythonQuestion2Stable();
  }

  lemma DjangoQuestionsStable()
    ensures forall k :: 0 <= k < |DjangoQuestions| ==> ParseStable(DjangoQuestions[k])
  {
    DjangoQuestion0Stable();
    DjangoQuestion1Stable();
    DjangoQuestion2Stable();
  }

  lemma ReactQuestionsStable()
    ensures forall k :: 0 <= k < |ReactQuestions| ==> ParseStable(ReactQuestions[k])
  {
    ReactQuestion0Stable();
    ReactQuestion1Stable();
    ReactQuestion2Stable();
  }

  lemma SqlQuestionsStable()
    ensures forall k :: 0 <= k < |SqlQuestions| ==> ParseStable(SqlQuestions[k])
  {
    SqlQuestion0Stable();
    SqlQuestion1Stable();
    SqlQuestion2Stable();
  }

  lemma AwsQuestionsStable()
    ensures forall k :: 0 <= k < |AwsQuestions| ==> ParseStable(AwsQuestions[k])
  {
    AwsQuestion0Stable();
    AwsQuestion1Stable();
    AwsQuestion2Stable();
  }

  /** A dictionary shaped like the bank: each key once, and under each key exactly
      three questions that survive being numbered and parsed. */
  predicate StableBank(entries: Entries) {
    && DistinctKeys(entries)
    && (forall i :: 0 <= i < |entries| ==> |entries[i].1| == PerTech)
    && (forall i, k :: 0 <= i < |entries| && 0 <= k < |entries[i].1| ==> ParseStable(entries[i].1[k]))
  }

  /** The bank's keys in order, and its shape. */
  lemma BankShape()
    ensures KeysOf(Bank) == ["python", "django", "react", "sql", "aws"]
    ensures StableBank(Bank)
  {
    PythonQuestionsStable();
    DjangoQuestionsStable();
    ReactQuestionsStable();
    SqlQuestionsStable();
    AwsQuestionsStable();
  }

  // ---------------------------------------------------------------------------
  // The offline reply
  // ---------------------------------------------------------------------------

  /** The keys among the first `n` entries that occur in `lower`, in dictionary order. */
  function MatchedIn(entries: Entries, lower: string, n: nat): (r: seq<string>)
    requires DistinctKeys(entries) && n <= |entries|
    ensures |r| <= n
    ensures forall i :: 0 <= i < |r| ==> IndexOf(KeysOf(entries), r[i]) < n
    ensures forall i, j :: 0 <= i < j < |r| ==>
      IndexOf(KeysOf(entries), r[i]) < IndexOf(KeysOf(entries), r[j])
    ensures forall k :: k in r <==> k in KeysOf(entries)[..n] && Contains(lower, k)
  {
    if n == 0 then []
    else
      var key := entries[n - 1].0;
      KeyPosition(entries, n - 1);
      assert KeysOf(entries)[..n] == KeysOf(entries)[..n - 1] + [key];
      MatchedIn(entries, lower, n - 1) + (if Contains(lower, key) then [key] else [])
  }

  /** One more entry adds its key when the text contains it. */
  lemma MatchedInStep(entries: Entries, lower: string, i: nat)
    requires DistinctKeys(entries) && i < |entries|
    ensures MatchedIn(entries, lower, i + 1)
      == MatchedIn(entries, lower, i) + (if Contains(lower, entries[i].0) then [entries[i].0] else [])
  {
  }

  /** The first three questions of each matched key, one key after another. */
  function GatherQuestions(entries: Entries, matched: seq<string>): (r: seq<string>)
    ensures |r| <= PerTech * |matched|
  {
    if |matched| == 0 then []
    else
      GatherQuestions(entries, matched[..|matched| - 1])
      + Truncate(LookupIn(entries, matched[|matched| - 1]), PerTech)
  }

  /** The keys `_rule_based_from_prompt` collects: those that occur in the lower-cased prompt. */
  function MatchedTechs(prompt: string): seq<string> {
    BankShape();
    MatchedIn(Bank, Lower(prompt), |Bank|)
  }

  /** The questions `_rule_based_from_prompt` lists for the matched keys. */
  function BankQuestions(matched: seq<string>): seq<string> {
    GatherQuestions(Bank, matched)
  }

  /** `_rule_based_from_prompt(prompt)`: the matched questions as a numbered list, or
      the guidance text when no key occurs in the prompt. */
  function RuleBasedReply(prompt: string): string {
    var matched := MatchedTechs(prompt);
    if matched == [] then Guidance else NumberedList(BankQuestions(matched))
  }

  // Proof helper only (a sequence identity, not part of the program): kept as its own
  // lemma so that each proof obligation that uses it stays small.
  lemma SplitAt(s: seq<string>, n: nat)
    requires n <= |s|
    ensures s == s[..n] + s[n..]
  {
  }

  // Proof helper only (a sequence identity, not part of the program): kept as its own
  // lemma so that each proof obligation that uses it stays small.
  lemma ConcatAssoc(a: seq<string>, b: seq<string>, c: seq<string>)
    ensures a + b + c == a + (b + c)
  {
  }

  /** Questions gathered for several groups of keys are the groups' questions in turn. */
  lemma {:induction false} GatherAppend(entries: Entries, m1: seq<string>, m2: seq<string>)
    ensures GatherQuestions(entries, m1 + m2) == GatherQuestions(entries, m1) + GatherQuestions(entries, m2)
    decreases |m2|
  {
    if |m2| == 0 {
      assert m1 + m2 == m1;
    } else {
      var init, last := m2[..|m2| - 1], m2[|m2| - 1];
      var t := Truncate(LookupIn(entries, last), PerTech);
      SnocSplit(m1, m2);
      GatherAppend(entries, m1, init);
      ConcatAssoc(GatherQuestions(entries, m1), GatherQuestions(entries, init), t);
    }
  }

  /** Dropping the last element of `m1 + m2`, for a non-empty `m2`. */
  lemma SnocSplit(m1: seq<string>, m2: seq<string>)
    requires m2 != []
    ensures (m1 + m2)[..|m1 + m2| - 1] == m1 + m2[..|m2| - 1]
    ensures (m1 + m2)[|m1 + m2| - 1] == m2[|m2| - 1]
  {
  }

  /** Keys of a bank-shaped dictionary bring exactly three questions each, all of
      which survive parsing. */
  lemma {:induction false} GatherOfKeys(entries: Entries, matched: seq<string>)
    requires StableBank(entries)
    requires forall i :: 0 <= i < |matched| ==> matched[i] in KeysOf(entries)
    ensures |GatherQuestions(entries, matched)| == PerTech * |matched|
    ensures forall k :: 0 <= k < |GatherQuestions(entries, matched)| ==>
      ParseStable(GatherQuestions(entries, matched)[k])
    decreases |matched|
  {
    if |matched| > 0 {
      var init, last := matched[..|matched| - 1], matched[|matched| - 1];
      GatherOfKeys(entries, init);
      var i := IndexOf(KeysOf(entries), last);
      var qs := Truncate(LookupIn(entries, last), PerTech);
      assert qs == entries[i].1;
      assert GatherQuestions(entries, matched) == GatherQuestions(entries, init) + qs;
    }
  }

  /** Matching among fewer entries gives a prefix of matching among more. */
  lemma {:induction false} MatchedPrefix(entries: Entries, lower: string, a: nat, b: nat)
    requires DistinctKeys(entries) && a <= b <= |entries|
    ensures MatchedIn(entries, lower, a) <= MatchedIn(entries, lower, b)
    decreases b - a
  {
    if a < b {
      MatchedPrefix(entries, lower, a, b - 1);
    }
  }

  /** A numbered list never reads as the guidance text: it starts with "1". */
  lemma NumberedListIsNotGuidance(qs: seq<string>)
    requires qs != []
    ensures NumberedList(qs) != Guidance
  {
    var lines := NumberedLines(qs);
    assert lines[0] == "1" + ". " + qs[0];
    assert NumberedList(qs)[0] == '1';
    assert Guidance[0] == 'I';
  }

  /** The reply is the guidance text exactly when no bank key occurs in the lower-cased
      prompt; otherwise it is a numbered list of three to fifteen bank questions that
      parses back to exactly those questions. */
  lemma RuleBasedReplyOutcomes(prompt: string)
    ensures RuleBasedReply(prompt) == Guidance <==>
      forall k :: k in KeysOf(Bank) ==> !Contains(Lower(prompt), k)
    ensures RuleBasedReply(prompt) != Guidance ==>
      var qs := BankQuestions(MatchedTechs(prompt));
      && RuleBasedReply(prompt) == NumberedList(qs)
      && PerTech <= |qs| <= MaxQuestions
      && ParsedQuestions(RuleBasedReply(prompt)) == qs
  {
    BankShape();
    var matched := MatchedTechs(prompt);
    assert KeysOf(Bank)[..|Bank|] == KeysOf(Bank);
    if matched != [] {
      var qs := BankQuestions(matched);
      forall i | 0 <= i < |matched|
        ensures matched[i] in KeysOf(Bank)
      {
        assert matched[i] in matched;
      }
      GatherOfKeys(Bank, matched);
      ParseNumberedStable(qs);
      NumberedListIsNotGuidance(qs);
    }
  }

  lemma MatchedFirstTwoKeys(entries: Entries, lower: string)
    requires DistinctKeys(entries) && |entries| >= 2
    requires Contains(lower, entries[0].0) && Contains(lower, entries[1].0)
    ensures MatchedIn(entries, lower, 2) == [entries[0].0, entries[1].0]
  {
    assert MatchedIn(entries, lower, 0) == [];
    assert MatchedIn(entries, lower, 1) == [entries[0].0];
  }

  lemma GatherFirstTwo(entries: Entries)
    requires DistinctKeys(entries) && |entries| >= 2
    requires |entries[0].1| <= PerTech && |entries[1].1| <= PerTech
    ensures GatherQuestions(entries, [entries[0].0, entries[1].0]) == entries[0].1 + entries[1].1
  {
    var first := [entries[0].0, entries[1].0];
    KeyPosition(entries, 0);
    KeyPosition(entries, 1);
    assert first[..1] == [entries[0].0];
    assert GatherQuestions(entries, [entries[0].0]) == entries[0].1;
  }

  /** Text that names the first two keys of a dictionary matches them first, and
      (when they hold no more than three questions each) their questions come first. */
  lemma MatchesFirstTwo(entries: Entries, lower: string)
    requires DistinctKeys(entries) && |entries| >= 2
    requires |entries[0].1| <= PerTech && |entries[1].1| <= PerTech
    requires Contains(lower, entries[0].0) && Contains(lower, entries[1].0)
    ensures var m := MatchedIn(entries, lower, |entries|);
      && |m| >= 2 && m[..2] == [entries[0].0, entries[1].0]
      && GatherQuestions(entries, m) == entries[0].1 + entries[1].1 + GatherQuestions(entries, m[2..])
  {
    var matched := MatchedIn(entries, lower, |entries|);
    var first := [entries[0].0, entries[1].0];
    assert |matched| >= 2 && matched[..2] == first by {
      MatchedFirstTwoKeys(entries, lower);
      MatchedPrefix(entries, lower, 2, |entries|);
    }
    SplitAt(matched, 2);
    assert GatherQuestions(entries, matched) == GatherQuestions(entries, first) + GatherQuestions(entries, matched[2..]) by {
      GatherAppend(entries, first, matched[2..]);
    }
    GatherFirstTwo(entries);
  }

  /** A prompt that names both python and django matches them first, so the offline
      reply opens with their six questions. */
  lemma MatchesPythonAndDjangoFirst(prompt: string)
    requires Contains(Lower(prompt), "python") && Contains(Lower(prompt), "django")
    ensures |MatchedTechs(prompt)| >= 2 && MatchedTechs(prompt)[..2] == ["python", "django"]
    ensures BankQuestions(MatchedTechs(prompt))
      == PythonQuestions + DjangoQuestions + BankQuestions(MatchedTechs(prompt)[2..])
    ensures RuleBasedReply(prompt) != Guidance
  {
    BankShape();
    assert Bank[0] == ("python", PythonQuestions) && Bank[1] == ("django", DjangoQuestions);
    MatchesFirstTwo(Bank, Lower(prompt));
    RuleBasedReplyOutcomes(prompt);
  }

  /** For such a prompt, the offline reply parses back to the matched questions, and
      the first six are python's and django's. */
  lemma RuleBasedReplyOpensWithPythonAndDjango(prompt: string)
    requires Contains(Lower(prompt), "python") && Contains(Lower(prompt), "django")
    ensures var qs := ParsedQuestions(RuleBasedReply(prompt));
      && qs == BankQuestions(MatchedTechs(prompt))
      && |qs| >= 6
      && qs[..6] == PythonQuestions + DjangoQuestions
  {
    MatchesPythonAndDjangoFirst(prompt);
    RuleBasedReplyOutcomes(prompt);
    var first := PythonQuestions + DjangoQuestions;
    var rest := BankQuestions(MatchedTechs(prompt)[2..]);
    assert |first| == 6;
    assert (first + rest)[..6] == first;
  }
}
