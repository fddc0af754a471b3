/**
  The instruction text sent to the completion service (`question_prompt_template`):
  a fixed preamble, the tech stack joined with ", ", the task sentence with the
  number of questions per technology, a fixed format example and a closing line.
*/
module Prompts {
  import opened Text

  const Preamble := "You are a hiring-assistant that generates short technical screening questions.\n"
  const StackLabel := "Candidate tech-stack: "
  const TaskIntro := "\nTask: For each technology listed, "
  const TaskRest :=
    ", clear, and varied screening questions "
    + "(conceptual, short coding/design, and troubleshooting/ops where applicable). "
    + "Number each question and label which technology it is for. "
    + "Do not ask for personal data. Keep each question under 40 words.\n\n"
  const ExampleHeader := "Output format example:\n"
  const PythonExample := "1. [Python] Explain ...\n"
  const DjangoExample := "2. [Django] How would you ...\n\n"
  const Closing := "Begin generating now."

  /** The joined tech stack, as it appears after the label. */
  function StackText(techs: seq<string>): string {
    Join(techs, ", ")
  }

  /** The part of the task sentence that carries the count, in decimal. */
  function CountPhrase(numQuestionsPerTech: int): string {
    "produce " + IntToDecimal(numQuestionsPerTech) + " concise"
  }

  /** The task line, from the line break that ends the stack line to the blank line after it. */
  function TaskSentence(numQuestionsPerTech: int): string {
    TaskIntro + CountPhrase(numQuestionsPerTech) + TaskRest
  }

  /** The fixed format example. */
  function Examples(): string {
    ExampleHeader + PythonExample + DjangoExample
  }

  /** `question_prompt_template(techs, num_questions_per_tech)`. */
  function QuestionPrompt(techs: seq<string>, numQuestionsPerTech: int): string {
    Preamble + StackLabel + StackText(techs) + TaskSentence(numQuestionsPerTech) + Examples() + Closing
  }

  // Proof helper only (a sequence identity, not part of the program): kept as its own
  // lemma so that each proof obligation that uses it stays small.
  lemma Assoc(x: string, y: string, z: string)
    ensures x + y + z == x + (y + z)
  {
  }

  // Proof helper only (a sequence identity, not part of the program): kept as its own
  // lemma so that each proof obligation that uses it stays small.
  lemma Slices(a: string, b: string, c: string)
    ensures (a + b + c)[..|a|] == a
    ensures (a + b + c)[|a|..|a| + |b|] == b
    ensures (a + b + c)[|a| + |b|..] == c
  {
  }

  /** The prompt cut into the preamble, the stack line and the rest. */
  lemma PromptParts(techs: seq<string>, n: int)
    ensures QuestionPrompt(techs, n)
      == Preamble + (StackLabel + StackText(techs)) + (TaskSentence(n) + (Examples() + Closing))
  {
    var line2 := StackLabel + StackText(techs);
    Assoc(Preamble, StackLabel, StackText(techs));
    Assoc(Preamble + line2 + TaskSentence(n), Examples(), Closing);
    Assoc(Preamble + line2, TaskSentence(n), Examples() + Closing);
  }

  /** The prompt opens with the preamble line, then the label and the stack joined
      with ", " (nothing after the label for an empty stack). */
  lemma PromptOpens(techs: seq<string>, n: int)
    ensures var p := QuestionPrompt(techs, n);
      && |Preamble| + |StackLabel| + |StackText(techs)| <= |p|
      && p[..|Preamble|] == Preamble
      && p[|Preamble|..|Preamble| + |StackLabel| + |StackText(techs)|] == StackLabel + Join(techs, ", ")
  {
    PromptParts(techs, n);
    Slices(Preamble, StackLabel + StackText(techs), TaskSentence(n) + (Examples() + Closing));
  }

  /** The task sentence follows the stack line directly. */
  lemma PromptTaskFollowsStack(techs: seq<string>, n: int)
    ensures var p := QuestionPrompt(techs, n);
      var stackEnd := |Preamble| + |StackLabel| + |StackText(techs)|;
      && stackEnd + |TaskSentence(n)| <= |p|
      && p[stackEnd..stackEnd + |TaskSentence(n)|] == TaskSentence(n)
  {
    var head := Preamble + StackLabel + StackText(techs);
    assert QuestionPrompt(techs, n) == head + TaskSentence(n) + (Examples() + Closing) by {
      Assoc(head + TaskSentence(n), Examples(), Closing);
    }
    Slices(head, TaskSentence(n), Examples() + Closing);
  }

  /** The prompt closes with "Begin generating now.". */
  lemma PromptCloses(techs: seq<string>, n: int)
    ensures var p := QuestionPrompt(techs, n);
      |Closing| <= |p| && p[|p| - |Closing|..] == Closing
  {
    var body := Preamble + StackLabel + StackText(techs) + TaskSentence(n) + Examples();
    Slices(body, Closing, "");
  }

  /** With an empty stack nothing follows the label before the task sentence. */
  lemma PromptForEmptyStack(n: int)
    ensures QuestionPrompt([], n) == Preamble + StackLabel + TaskSentence(n) + Examples() + Closing
  {
    assert StackText([]) == "";
    assert Preamble + StackLabel + StackText([]) == Preamble + StackLabel;
  }

  /** The task sentence renders the count in decimal: "produce N concise". */
  lemma PromptStatesCount(techs: seq<string>, n: int)
    ensures Contains(QuestionPrompt(techs, n), "produce " + IntToDecimal(n) + " concise")
  {
    var w := CountPhrase(n);
    assert Contains(w, w) by {
      assert w[0..|w|] == w;
      ContainsAt(w, w, 0);
    }
    ContainsInfix(TaskIntro, w, TaskRest, w);
    var head := Preamble + StackLabel + StackText(techs);
    ContainsInfix(head, TaskSentence(n), Examples() + Closing, w);
    Assoc(head + TaskSentence(n), Examples(), Closing);
  }

  /** The first example line, lower-cased, names python. */
  lemma PythonExampleNamesPython()
    ensures Contains(Lower(PythonExample), "python")
  {
    var lp := Lower(PythonExample);
    assert lp[4] == 'p';
    assert lp[5] == 'y';
    assert lp[6] == 't';
    assert lp[7] == 'h';
    assert lp[8] == 'o';
    assert lp[9] == 'n';
    assert lp[4..10] == "python";
    ContainsAt(lp, "python", 4);
  }

  /** The second example line, lower-cased, names django. */
  lemma DjangoExampleNamesDjango()
    ensures Contains(Lower(DjangoExample), "django")
  {
    var ld := Lower(DjangoExample);
    assert ld[4] == 'd';
    assert ld[5] == 'j';
    assert ld[6] == 'a';
    assert ld[7] == 'n';
    assert ld[8] == 'g';
    assert ld[9] == 'o';
    assert ld[4..10] == "django";
    ContainsAt(ld, "django", 4);
  }

  /** Whatever the stack, the lower-cased prompt names "python" and "django", because
      the fixed format example always does. */
  lemma PromptAlwaysNamesPythonAndDjango(techs: seq<string>, n: int)
    ensures Contains(Lower(QuestionPrompt(techs, n)), "python")
    ensures Contains(Lower(QuestionPrompt(techs, n)), "django")
  {
    var lp, ld := Lower(PythonExample), Lower(DjangoExample);
    PythonExampleNamesPython();
    DjangoExampleNamesDjango();

    var lh := Lower(ExampleHeader);
    LowerAppend(ExampleHeader, PythonExample);
    LowerAppend(ExampleHeader + PythonExample, DjangoExample);
    assert Lower(Examples()) == lh + lp + ld;
    ContainsInfix(lh, lp, ld, "python");
    ContainsRight(lh + lp, ld, "django");

    var head := Preamble + StackLabel + StackText(techs) + TaskSentence(n);
    LowerAppend(head, Examples());
    LowerAppend(head + Examples(), Closing);
    assert Lower(QuestionPrompt(techs, n)) == Lower(head) + Lower(Examples()) + Lower(Closing);
    ContainsInfix(Lower(head), Lower(Examples()), Lower(Closing), "python");
    ContainsInfix(Lower(head), Lower(Examples()), Lower(Closing), "django");
  }
}
