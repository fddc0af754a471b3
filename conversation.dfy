/**
  The conversational layer (`Chatbot`): tech-name normalisation, routing of a chat
  message, question generation for a stack and the parse of the completion, and the
  one piece of state the chatbot keeps, the questions it generated last.
*/
module Conversation {
  import opened Text
  import opened ResponseParser
  import opened Prompts
  import opened QuestionBank
  import opened Llm

  /** The values a candidate record holds: text, a list of texts, or a number. */
  datatype Value = Str(text: string) | StrList(items: seq<string>) | Num(number: real)

  /** A candidate record, keyed by field name. */
  type Candidate = map<string, Value>

  const TechStackKey := "tech_stack"

  /** The words that ask for questions, looked for in the trimmed, lower-cased message. */
  const Triggers: seq<string> := ["generate", "questions", "ask me", "screening"]

  /** A chat message is read as a tech list only with at most this many comma pieces. */
  const MaxListPieces: nat := 10

  /** ... and with fewer than this many words. */
  const MaxListWords: nat := 50

  /** Trimmed messages shorter than this get the "elaborate" reply. */
  const MinMessageLength: nat := 3

  /** Questions asked for per technology. */
  const QuestionsPerTech: int := 3

  const NeedStackReply := "Please provide your tech stack (comma-separated) so I can generate questions."
  const ElaborateReply :=
    "Could you please elaborate? If you'd like, provide your tech stack or ask me to 'generate questions'."
  const NotUnderstoodReply :=
    "I didn't quite understand \U{2014} you can either update the candidate form, provide your tech stack "
    + "(e.g., 'Python, React'), or ask me to 'generate questions'."
  const QuestionsHeader := "Here are the generated technical questions:\n"

  /** `Chatbot.greeting()`. */
  const Greeting :=
    "Hi \U{2014} I'm TalentScout, your hiring assistant. "
    + "I will collect a few details and generate 3\U{2013}5 technical questions per technology you list. "
    + "Type 'done' or 'exit' to finish the conversation."

  /** `Chatbot.farewell()`. */
  const Farewell :=
    "Thanks! Your session is complete. We'll anonymize and store non-sensitive details. "
    + "Good luck!"

  // ---------------------------------------------------------------------------
  // Normalising and splitting tech names
  // ---------------------------------------------------------------------------

  /** No upper-case ASCII letter. */
  predicate IsLowered(s: string) {
    forall i :: 0 <= i < |s| ==> !('A' <= s[i] <= 'Z')
  }

  /** Lower-casing leaves no capital and keeps a trimmed text trimmed. */
  lemma LowerShape(s: string)
    ensures IsLowered(Lower(s))
    ensures IsStripped(s) ==> IsStripped(Lower(s))
  {
  }

  /** `simple_normalize_tech`: each non-empty entry trimmed and lower-cased; empty
      entries are dropped, but an entry of spaces only survives as "". */
  function NormalizeTech(techs: seq<string>): (r: seq<string>)
    ensures |r| <= |techs|
    ensures forall k :: 0 <= k < |r| ==> IsNormalName(r[k])
    decreases |techs|
  {
    if techs == [] then []
    else
      var init, last := techs[..|techs| - 1], techs[|techs| - 1];
      StripIsStripped(last);
      LowerShape(Strip(last));
      var head := NormalizeTech(init);
      var tail := if last != [] then [Lower(Strip(last))] else [];
      assert forall k :: 0 <= k < |tail| ==> IsNormalName(tail[k]);
      AllNormalAppend(head, tail);
      head + tail
  }

  /** One entry: "" is dropped, any other entry is kept trimmed and lower-cased. */
  lemma NormalizeTechOne(t: string)
    ensures NormalizeTech([t]) == if t != [] then [Lower(Strip(t))] else []
  {
    assert [t][..0] == [];
  }

  /** The entries are handled one by one: the result for a concatenation is the
      results for its parts, in order. */
  lemma {:induction false} NormalizeTechAppend(a: seq<string>, b: seq<string>)
    ensures NormalizeTech(a + b) == NormalizeTech(a) + NormalizeTech(b)
    decreases |b|
  {
    if b == [] {
      assert a + b == a;
    } else {
      var n := |b| - 1;
      assert (a + b)[..|a + b| - 1] == a + b[..n];
      assert (a + b)[|a + b| - 1] == b[n];
      NormalizeTechAppend(a, b[..n]);
    }
  }

  /** A normalised tech name: trimmed, with no capital. */
  predicate IsNormalName(s: string) {
    IsLowered(s) && IsStripped(s)
  }

  lemma AllNormalAppend(a: seq<string>, b: seq<string>)
    requires forall k :: 0 <= k < |a| ==> IsNormalName(a[k])
    requires forall k :: 0 <= k < |b| ==> IsNormalName(b[k])
    ensures forall k :: 0 <= k < |a + b| ==> IsNormalName((a + b)[k])
  {
  }

  /** When no entry is empty, every entry is kept, in place, trimmed and lower-cased. */
  lemma {:induction false} NormalizeTechOfNonEmpty(techs: seq<string>)
    requires forall k :: 0 <= k < |techs| ==> techs[k] != []
    ensures |NormalizeTech(techs)| == |techs|
    ensures forall k :: 0 <= k < |techs| ==> NormalizeTech(techs)[k] == Lower(Strip(techs[k]))
    decreases |techs|
  {
    if techs != [] {
      var init, last := techs[..|techs| - 1], techs[|techs| - 1];
      NormalizeTechOfNonEmpty(init);
      var r := NormalizeTech(techs);
      assert r == NormalizeTech(init) + [Lower(Strip(last))];
      forall k | 0 <= k < |techs|
        ensures r[k] == Lower(Strip(techs[k]))
      {
        if k < |init| {
          assert r[k] == NormalizeTech(init)[k];
          assert init[k] == techs[k];
        }
      }
    }
  }

  /** A stack entry made only of spaces is kept, as the empty name. */
  lemma BlankTechSurvives(w: string)
    requires w != [] && forall i :: 0 <= i < |w| ==> w[i] in Whitespace
    ensures NormalizeTech([w]) == [""]
  {
    StripAllWhitespace(w);
    assert [w][..0] == [];
  }

  /** `[t.strip() for t in s.split(",") if t.strip()]`. */
  function CommaItems(s: string): (r: seq<string>)
    ensures forall k :: 0 <= k < |r| ==> r[k] != [] && IsStripped(r[k]) && ',' !in r[k]
  {
    var pieces := SplitOn(s, ',');
    NoCommaAfterStrip(pieces);
    NonBlankStripped(pieces)
  }

  lemma {:induction false} NoCommaAfterStrip(pieces: seq<string>)
    requires forall k :: 0 <= k < |pieces| ==> ',' !in pieces[k]
    ensures forall k :: 0 <= k < |NonBlankStripped(pieces)| ==> ',' !in NonBlankStripped(pieces)[k]
    decreases |pieces|
  {
    if pieces != [] {
      StripKeepsOut(pieces[0], ',');
      NoCommaAfterStrip(pieces[1..]);
    }
  }

  /** Stripping a space in front of a trimmed, non-empty item gives the item. */
  lemma StripPadded(item: string)
    requires item != [] && IsStripped(item)
    ensures Strip(" " + item) == item
  {
    StripAfterSpaces(" ", item);
    StripStripped(item);
  }

  lemma {:induction false} NonBlankPadded(items: seq<string>)
    requires forall k :: 0 <= k < |items| ==> items[k] != [] && IsStripped(items[k])
    ensures NonBlankStripped(PrefixEach(" ", items)) == items
    decreases |items|
  {
    if items != [] {
      var padded := PrefixEach(" ", items);
      assert NonBlankStripped(padded) == [items[0]] + NonBlankStripped(PrefixEach(" ", items[1..])) by {
        assert Strip(padded[0]) == items[0] by {
          StripPadded(items[0]);
        }
        assert padded[1..] == PrefixEach(" ", items[1..]);
      }
      NonBlankPadded(items[1..]);
      assert items == [items[0]] + items[1..];
    }
  }

  /** A first piece that is already trimmed and non-empty is kept as it is. */
  lemma NonBlankFirst(first: string, rest: seq<string>)
    requires first != [] && IsStripped(first)
    ensures NonBlankStripped([first] + rest) == [first] + NonBlankStripped(rest)
  {
    StripStripped(first);
    assert ([first] + rest)[1..] == rest;
  }

  lemma SplitJoinedItems(items: seq<string>)
    requires items != []
    requires forall k :: 0 <= k < |items| ==> ',' !in items[k]
    ensures SplitOn(Join(items, ", "), ',') == [items[0]] + PrefixEach(" ", items[1..])
  {
    assert [','] + " " == ", ";
    SplitOnJoin(items, ',', " ");
  }

  lemma CommaItemsOfEmpty()
    ensures CommaItems("") == []
  {
    assert SplitOn("", ',') == [""];
  }

  lemma CommaItemsJoinNonEmpty(items: seq<string>)
    requires items != []
    requires forall k :: 0 <= k < |items| ==> items[k] != [] && IsStripped(items[k]) && ',' !in items[k]
    ensures CommaItems(Join(items, ", ")) == items
  {
    SplitJoinedItems(items);
    NonBlankOfJoined(items);
  }

  lemma NonBlankOfJoined(items: seq<string>)
    requires items != []
    requires forall k :: 0 <= k < |items| ==> items[k] != [] && IsStripped(items[k])
    ensures NonBlankStripped([items[0]] + PrefixEach(" ", items[1..])) == items
  {
    NonBlankFirst(items[0], PrefixEach(" ", items[1..]));
    NonBlankPadded(items[1..]);
    assert items == [items[0]] + items[1..];
  }

  /** Splitting a list written out as "a, b, c" gives the items back, when they are
      trimmed, non-empty and free of commas. */
  lemma CommaItemsJoin(items: seq<string>)
    requires forall k :: 0 <= k < |items| ==> items[k] != [] && IsStripped(items[k]) && ',' !in items[k]
    ensures CommaItems(Join(items, ", ")) == items
  {
    if items == [] {
      CommaItemsOfEmpty();
    } else {
      CommaItemsJoinNonEmpty(items);
    }
  }

  // ---------------------------------------------------------------------------
  // Routing a chat message
  // ---------------------------------------------------------------------------

  /** `candidate.get("tech_stack", [])`, for a record whose stack is a list. */
  function TechStackOf(candidate: Candidate): seq<string> {
    if TechStackKey in candidate && candidate[TechStackKey].StrList? then candidate[TechStackKey].items
    else []
  }

  /** A trigger word occurs in the trimmed, lower-cased message. */
  predicate AsksForQuestions(message: string) {
    var mlow := Lower(Strip(message));
    exists k :: 0 <= k < |Triggers| && Contains(mlow, Triggers[k])
  }

  /** The message reads as a tech list: it has a comma, at most ten comma pieces and
      fewer than fifty words. */
  predicate LooksLikeTechList(message: string) {
    ',' in message && |SplitOn(message, ',')| <= MaxListPieces && WordCount(message) < MaxListWords
  }

  /** What `handle_message` does with a message. */
  datatype Intent = AskForStack | GenerateFor(techs: seq<string>) | Elaborate | NotUnderstood

  /** `handle_message`'s four branches, tried in order. */
  function Classify(message: string, candidate: Candidate): Intent {
    if AsksForQuestions(message) then
      (if TechStackOf(candidate) == [] then AskForStack else GenerateFor(TechStackOf(candidate)))
    else if LooksLikeTechList(message) then GenerateFor(CommaItems(message))
    else if |Strip(message)| < MinMessageLength then Elaborate
    else NotUnderstood
  }

  /** The prompt built for a stack. */
  function StackPrompt(techs: seq<string>): string {
    QuestionPrompt(NormalizeTech(techs), QuestionsPerTech)
  }

  /** The completion `generate_questions_for_stack` obtains for a stack. */
  function StackResponse(backend: Backend, techs: seq<string>, remote: Remote): string {
    GenerateReply(backend, StackPrompt(techs), remote)
  }

  /** The reply of `generate_questions_for_stack` for a completion. */
  function StackReply(response: string): string {
    var qs := ParsedQuestions(response);
    if qs != [] then QuestionsHeader + NumberedList(qs) else response
  }

  /** `handle_message`: the reply and the questions stored afterwards, given the path
      the wrapper takes, the questions stored before and the remote outcome. */
  function Respond(backend: Backend, last: seq<string>, message: string, candidate: Candidate,
                   remote: Remote): (string, seq<string>)
  {
    match Classify(message, candidate)
    case AskForStack => (NeedStackReply, last)
    case GenerateFor(techs) =>
      var response := StackResponse(backend, techs, remote);
      (StackReply(response), ParsedQuestions(response))
    case Elaborate => (ElaborateReply, last)
    case NotUnderstood => (NotUnderstoodReply, last)
  }

  // ---------------------------------------------------------------------------
  // What the routing and the generation guarantee
  // ---------------------------------------------------------------------------

  /** The stored questions change only when questions are generated: after a message
      that asks for them with a stack on record, or after a tech list. Generation
      always overwrites them, even with nothing. */
  lemma RespondKeepsQuestionsUnlessGenerating(backend: Backend, last: seq<string>, message: string,
                                              candidate: Candidate, remote: Remote)
    ensures !Classify(message, candidate).GenerateFor? ==>
      Respond(backend, last, message, candidate, remote).1 == last
    ensures Classify(message, candidate).GenerateFor? ==>
      Respond(backend, last, message, candidate, remote).1
        == ParsedQuestions(StackResponse(backend, Classify(message, candidate).techs, remote))
  {
  }

  /** Questions are generated exactly after a message that asks for them with a stack
      on record, or after a message that reads as a tech list and does not ask. */
  lemma GeneratesExactlyWhen(message: string, candidate: Candidate)
    ensures Classify(message, candidate).GenerateFor? <==>
      (AsksForQuestions(message) && TechStackOf(candidate) != [])
      || (!AsksForQuestions(message) && LooksLikeTechList(message))
  {
  }

  /** The reply to a generation request: the header and the re-numbered questions when
      the completion parses to some, otherwise the completion unchanged. */
  lemma StackReplyCases(response: string)
    ensures ParsedQuestions(response) == [] ==> StackReply(response) == response
    ensures ParsedQuestions(response) != [] ==>
      && StackReply(response) == QuestionsHeader + NumberedList(ParsedQuestions(response))
      && StackReply(response)[..|QuestionsHeader|] == QuestionsHeader
  {
  }

  /** Offline, whatever the stack, the prompt's format example makes the bank match
      python and django first: the stored questions open with their six questions and
      the reply is the header with a numbered list, never the guidance text. */
  lemma OfflineStackStartsWithPythonAndDjango(techs: seq<string>, remote: Remote)
    ensures var response := StackResponse(Offline, techs, remote);
      && response == RuleBasedReply(StackPrompt(techs))
      && ParsedQuestions(response) == BankQuestions(MatchedTechs(StackPrompt(techs)))
      && |ParsedQuestions(response)| >= 6
      && ParsedQuestions(response)[..6] == PythonQuestions + DjangoQuestions
      && StackReply(response) == QuestionsHeader + NumberedList(ParsedQuestions(response))
  {
    var prompt := StackPrompt(techs);
    var response := StackResponse(Offline, techs, remote);
    assert response == RuleBasedReply(prompt);
    var qs := ParsedQuestions(response);
    assert qs == BankQuestions(MatchedTechs(prompt)) && |qs| >= 6
           && qs[..6] == PythonQuestions + DjangoQuestions by {
      PromptAlwaysNamesPythonAndDjango(NormalizeTech(techs), QuestionsPerTech);
      RuleBasedReplyOpensWithPythonAndDjango(prompt);
    }
  }

  /** `Chatbot`: the completion wrapper and the questions generated last. */
  class Chatbot {
    const llm: LlmWrapper
    var lastGeneratedQuestions: seq<string>

    constructor(llm: LlmWrapper)
      ensures this.llm == llm && lastGeneratedQuestions == []
    {
      this.llm := llm;
      lastGeneratedQuestions := [];
    }

    /** One line of `_parse_questions`: drop a bullet run, then try each numbering
        separator in turn. */
    static method CleanOne(line: string) returns (cleaned: string)
      ensures cleaned == CleanLine(line)
    {
      cleaned := line;
      var l := TrimLeft(cleaned, Whitespace);
      if |l| > 0 && (l[0] == '-' || l[0] == '*') {
        cleaned := Strip(TrimLeft(cleaned, BulletChars));
      }
      assert cleaned == DropBullets(line);
      ghost var unbulleted := cleaned;
      var k := 0;
      while k < |Separators|
        invariant 0 <= k <= |Separators|
        invariant cleaned == DropNumbers(unbulleted, k)
      {
        DropNumbersStep(unbulleted, k);
        cleaned := DropNumber(cleaned, Separators[k]);
        k := k + 1;
      }
    }

    /** `_parse_questions`: clean every non-blank line, keep those longer than ten
        characters, return at most fifteen. */
    static method ParseQuestions(text: string) returns (questions: seq<string>)
      ensures questions == ParsedQuestions(text)
    {
      var lines := StrippedLines(text);
      questions := [];
      var i := 0;
      while i < |lines|
        invariant 0 <= i <= |lines|
        invariant questions == KeepLong(CleanedLines(lines[..i]))
      {
        KeepLongStep(lines, i);
        var cleaned := CleanOne(lines[i]);
        if |cleaned| > MinQuestionLength {
          questions := questions + [cleaned];
        }
        i := i + 1;
      }
      assert lines[..|lines|] == lines;
      questions := Truncate(questions, MaxQuestions);
    }

    /** `generate_questions_for_stack(techs)`, with the remote outcome as a parameter:
        the stored questions become the parse of the completion, whatever it is. */
    method GenerateQuestionsForStack(techs: seq<string>, remote: Remote) returns (out: string)
      modifies this
      ensures lastGeneratedQuestions == ParsedQuestions(StackResponse(llm.Path(), techs, remote))
      ensures out == StackReply(StackResponse(llm.Path(), techs, remote))
    {
      var techsNorm := NormalizeTech(techs);
      var prompt := QuestionPrompt(techsNorm, QuestionsPerTech);
      var response := llm.Generate(prompt, remote);
      var parsed := ParseQuestions(response);
      lastGeneratedQuestions := parsed;
      if parsed != [] {
        out := QuestionsHeader + NumberedList(parsed);
      } else {
        out := response;
      }
    }

    /** `any(token in mlow for token in [...])`, stopping at the first trigger found. */
    static method MentionsTrigger(mlow: string) returns (asked: bool)
      ensures asked <==> exists k :: 0 <= k < |Triggers| && Contains(mlow, Triggers[k])
    {
      asked := false;
      var k := 0;
      while k < |Triggers| && !asked
        invariant 0 <= k <= |Triggers|
        invariant asked <==> exists j :: 0 <= j < k && Contains(mlow, Triggers[j])
      {
        asked := Contains(mlow, Triggers[k]);
        k := k + 1;
      }
    }

    /** The branches of `handle_message`, tried in the source's order: a trigger word
        (with or without a stack on record), then a comma list, then a short message.
        `Classify` is the specification; this method is the source's early-return code
        path, which runs the `any()` loop of `MentionsTrigger`. It is kept apart from
        `HandleMessage` so that each of the two is verified one branch at a time. */
    static method ClassifyMessage(message: string, candidate: Candidate) returns (intent: Intent)
      ensures intent == Classify(message, candidate)
    {
      var mlow := Lower(Strip(message));
      var asked := MentionsTrigger(mlow);
      if asked {
        var techs := TechStackOf(candidate);
        if techs == [] {
          return AskForStack;
        }
        return GenerateFor(techs);
      }
      if ',' in message && |SplitOn(message, ',')| <= MaxListPieces && WordCount(message) < MaxListWords {
        return GenerateFor(CommaItems(message));
      }
      if |Strip(message)| < MinMessageLength {
        return Elaborate;
      }
      return NotUnderstood;
    }

    /** `handle_message(message, candidate)`, with the remote outcome as a parameter:
        the fixed replies leave the stored questions alone; a generation replaces them. */
    method HandleMessage(message: string, candidate: Candidate, remote: Remote) returns (reply: string)
      modifies this
      ensures (reply, lastGeneratedQuestions)
              == Respond(llm.Path(), old(lastGeneratedQuestions), message, candidate, remote)
    {
      var intent := ClassifyMessage(message, candidate);
      match intent {
        case GenerateFor(techs) => reply := GenerateQuestionsForStack(techs, remote);
        case AskForStack => reply := NeedStackReply;
        case Elaborate => reply := ElaborateReply;
        case NotUnderstood => reply := NotUnderstoodReply;
      }
    }
  }
}
