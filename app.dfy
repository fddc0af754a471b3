/**
  The Streamlit page around the chatbot: the candidate record built from the form,
  the chat log, the exit words, and the anonymised copy of the record handed to
  storage once questions exist.
*/
module App {
  import opened Text
  import opened Conversation
  import Llm

  /** `EXIT_KEYWORDS`, compared with the trimmed, lower-cased input. */
  const ExitKeywords: set<string> := {"exit", "quit", "bye", "done"}

  const FullNameKey := "full_name"
  const EmailKey := "email"
  const PhoneKey := "phone"
  const YearsKey := "years_experience"
  const PositionsKey := "desired_positions"
  const LocationKey := "location"
  const CreatedAtKey := "created_at"
  const QuestionsKey := "questions"

  const RedactedEmail := "redacted@example.com"
  const RedactedPhone := "REDACTED"
  const RegisteredPrefix := "Candidate registered: "
  const NoName := "N/A"

  /** Who wrote a chat line. */
  datatype Role = User | Assistant

  /** The candidate form as submitted; the years field is already a number. */
  datatype Form = Form(fullName: string, email: string, phone: string, yearsExperience: real,
                       desiredPositions: string, location: string, techStack: string)

  // ---------------------------------------------------------------------------
  // The candidate record
  // ---------------------------------------------------------------------------

  /** A record with the eight form keys. */
  function Record(fullName: Value, email: Value, phone: Value, years: Value, positions: Value,
                  location: Value, techStack: Value, createdAt: Value): Candidate
  {
    map[FullNameKey := fullName, EmailKey := email, PhoneKey := phone, YearsKey := years,
        PositionsKey := positions, LocationKey := location, TechStackKey := techStack,
        CreatedAtKey := createdAt]
  }

  /** Each key of a record holds the value given for it. */
  lemma RecordLookups(fullName: Value, email: Value, phone: Value, years: Value, positions: Value,
                      location: Value, techStack: Value, createdAt: Value)
    ensures var r := Record(fullName, email, phone, years, positions, location, techStack, createdAt);
      && r.Keys == {FullNameKey, EmailKey, PhoneKey, YearsKey, PositionsKey, LocationKey,
                    TechStackKey, CreatedAtKey}
      && r[FullNameKey] == fullName && r[EmailKey] == email && r[PhoneKey] == phone
      && r[YearsKey] == years && r[PositionsKey] == positions && r[LocationKey] == location
      && r[TechStackKey] == techStack && r[CreatedAtKey] == createdAt
  {
  }

  /** The record the form produces, with `now` the clock's ISO-8601 text: texts trimmed,
      the comma lists split into trimmed non-empty items, the years as a number. */
  function CandidateRecord(form: Form, now: string): Candidate {
    Record(Str(Strip(form.fullName)), Str(Strip(form.email)), Str(Strip(form.phone)),
           Num(form.yearsExperience), StrList(CommaItems(form.desiredPositions)),
           Str(Strip(form.location)), StrList(CommaItems(form.techStack)), Str(now + "Z"))
  }

  /** The record's keys and what the form put under each. */
  lemma RecordFields(form: Form, now: string)
    ensures var r := CandidateRecord(form, now);
      && r.Keys == {FullNameKey, EmailKey, PhoneKey, YearsKey, PositionsKey, LocationKey,
                    TechStackKey, CreatedAtKey}
      && r[FullNameKey] == Str(Strip(form.fullName))
      && r[EmailKey] == Str(Strip(form.email))
      && r[PhoneKey] == Str(Strip(form.phone))
      && r[YearsKey] == Num(form.yearsExperience)
      && r[PositionsKey] == StrList(CommaItems(form.desiredPositions))
      && r[LocationKey] == Str(Strip(form.location))
      && r[TechStackKey] == StrList(CommaItems(form.techStack))
      && r[CreatedAtKey] == Str(now + "Z")
  {
    RecordLookups(Str(Strip(form.fullName)), Str(Strip(form.email)), Str(Strip(form.phone)),
                  Num(form.yearsExperience), StrList(CommaItems(form.desiredPositions)),
                  Str(Strip(form.location)), StrList(CommaItems(form.techStack)), Str(now + "Z"));
  }

  /** The record's texts are trimmed and the chat sees the form's stack. */
  lemma CandidateRecordShape(form: Form, now: string)
    ensures var r := CandidateRecord(form, now);
      && r[FullNameKey].Str? && IsStripped(r[FullNameKey].text)
      && r[EmailKey].Str? && IsStripped(r[EmailKey].text)
      && r[PhoneKey].Str? && IsStripped(r[PhoneKey].text)
      && r[LocationKey].Str? && IsStripped(r[LocationKey].text)
      && TechStackOf(r) == CommaItems(form.techStack)
  {
    RecordFields(form, now);
    StripIsStripped(form.fullName);
    StripIsStripped(form.email);
    StripIsStripped(form.phone);
    StripIsStripped(form.location);
  }

  /** After the form, a request for questions generates them for the form's stack, or
      asks for a stack when the form's stack field held no item. */
  lemma RequestAfterForm(form: Form, now: string, message: string)
    requires AsksForQuestions(message)
    ensures var techs := CommaItems(form.techStack);
      Classify(message, CandidateRecord(form, now))
        == (if techs == [] then AskForStack else GenerateFor(techs))
  {
    RecordFields(form, now);
  }

  /** `candidate.get('full_name') or 'N/A'`: the name when it is non-empty text. */
  function DisplayName(candidate: Candidate): string {
    if FullNameKey in candidate && candidate[FullNameKey].Str? && candidate[FullNameKey].text != []
    then candidate[FullNameKey].text
    else NoName
  }

  /** The registration line names the trimmed name from the form, or "N/A" when it
      is blank. */
  lemma RegisteredNameOfForm(form: Form, now: string)
    ensures DisplayName(CandidateRecord(form, now))
      == (if Strip(form.fullName) == [] then NoName else Strip(form.fullName))
  {
    RecordFields(form, now);
  }

  // ---------------------------------------------------------------------------
  // The anonymised copy
  // ---------------------------------------------------------------------------

  /** Python truthiness of a record value. */
  predicate IsTruthy(v: Value) {
    match v
    case Str(text) => text != []
    case StrList(items) => items != []
    case Num(number) => number != 0.0
  }

  /** `candidate.get(key)` is truthy. */
  predicate HasTruthy(candidate: Candidate, key: string) {
    key in candidate && IsTruthy(candidate[key])
  }

  /** The copy saved after a turn: a truthy email and phone masked, the questions added;
      the session's own record is a value and stays as it was. */
  function Anonymised(candidate: Candidate, questions: seq<string>): Candidate {
    var withEmail := if HasTruthy(candidate, EmailKey) then candidate[EmailKey := Str(RedactedEmail)]
                     else candidate;
    var withPhone := if HasTruthy(withEmail, PhoneKey) then withEmail[PhoneKey := Str(RedactedPhone)]
                     else withEmail;
    withPhone[QuestionsKey := StrList(questions)]
  }

  /** A truthy email or phone is replaced by its mask, a falsy one is kept, a missing
      one stays missing, and the questions are stored under "questions". */
  lemma AnonymisedMasksContact(candidate: Candidate, questions: seq<string>)
    ensures var r := Anonymised(candidate, questions);
      && (EmailKey in r <==> EmailKey in candidate)
      && (PhoneKey in r <==> PhoneKey in candidate)
      && (HasTruthy(candidate, EmailKey) ==> r[EmailKey] == Str(RedactedEmail))
      && (EmailKey in candidate && !IsTruthy(candidate[EmailKey]) ==> r[EmailKey] == candidate[EmailKey])
      && (HasTruthy(candidate, PhoneKey) ==> r[PhoneKey] == Str(RedactedPhone))
      && (PhoneKey in candidate && !IsTruthy(candidate[PhoneKey]) ==> r[PhoneKey] == candidate[PhoneKey])
      && r[QuestionsKey] == StrList(questions)
  {
  }

  /** Every other field is copied unchanged, and only "questions" is added. */
  lemma AnonymisedKeepsTheRest(candidate: Candidate, questions: seq<string>)
    ensures var r := Anonymised(candidate, questions);
      && r.Keys == candidate.Keys + {QuestionsKey}
      && forall k :: k in candidate && k != EmailKey && k != PhoneKey && k != QuestionsKey ==> r[k] == candidate[k]
  {
  }

  /** Anonymising an anonymised copy again with the same questions changes nothing. */
  lemma AnonymisedIdempotent(candidate: Candidate, questions: seq<string>)
    ensures Anonymised(Anonymised(candidate, questions), questions) == Anonymised(candidate, questions)
  {
    var r := Anonymised(candidate, questions);
    AnonymisedMasksContact(candidate, questions);
    AnonymisedKeepsTheRest(candidate, questions);
    AnonymisedMasksContact(r, questions);
    AnonymisedKeepsTheRest(r, questions);
    assert Anonymised(r, questions).Keys == r.Keys;
  }

  /** A record safe to store: no contact detail other than a mask or a falsy value,
      and a non-empty list of questions. */
  predicate IsStorable(record: Candidate) {
    && (EmailKey in record ==> record[EmailKey] == Str(RedactedEmail) || !IsTruthy(record[EmailKey]))
    && (PhoneKey in record ==> record[PhoneKey] == Str(RedactedPhone) || !IsTruthy(record[PhoneKey]))
    && QuestionsKey in record && record[QuestionsKey].StrList? && record[QuestionsKey].items != []
  }

  /** Whatever the record, its anonymised copy with some questions is storable. */
  lemma AnonymisedIsStorable(candidate: Candidate, questions: seq<string>)
    requires questions != []
    ensures IsStorable(Anonymised(candidate, questions))
  {
    AnonymisedMasksContact(candidate, questions);
  }

  /** An email or phone typed into the form never reaches storage: each is masked
      when given, and stays "" when left blank. */
  lemma FormContactNotStored(form: Form, now: string, questions: seq<string>)
    ensures var r := Anonymised(CandidateRecord(form, now), questions);
      && (Strip(form.email) != [] ==> r[EmailKey] == Str(RedactedEmail))
      && (Strip(form.email) == [] ==> r[EmailKey] == Str([]))
      && (Strip(form.phone) != [] ==> r[PhoneKey] == Str(RedactedPhone))
      && (Strip(form.phone) == [] ==> r[PhoneKey] == Str([]))
  {
    RecordFields(form, now);
    AnonymisedMasksContact(CandidateRecord(form, now), questions);
  }

  // ---------------------------------------------------------------------------
  // The session
  // ---------------------------------------------------------------------------

  /** The input ends the conversation: trimmed and lower-cased, it is an exit word. */
  predicate IsExit(input: string) {
    Lower(Strip(input)) in ExitKeywords
  }

  // Proof helper only (a sequence identity, not part of the program): kept as its own
  // lemma so that each proof obligation that uses it stays small.
  lemma AppendTwo<T>(s: seq<T>, x: T, y: T)
    ensures s + [x] + [y] == s + [x, y]
  {
  }

  /** `st.session_state`: the chat log, the candidate record, the chatbot, and every
      record handed to local storage and upload. */
  class Session {
    var messages: seq<(Role, string)>
    var candidate: Candidate
    var savedRecords: seq<Candidate>
    const chatbot: Chatbot

    /** Every record handed to storage is storable. */
    predicate Valid()
      reads this
    {
      forall k :: 0 <= k < |savedRecords| ==> IsStorable(savedRecords[k])
    }

    /** A fresh session: empty log, empty record, nothing stored. */
    constructor(chatbot: Chatbot)
      ensures this.chatbot == chatbot
      ensures messages == [] && candidate == map[] && savedRecords == []
      ensures Valid()
    {
      this.chatbot := chatbot;
      messages := [];
      candidate := map[];
      savedRecords := [];
    }

    /** `add_message(role, text)`. */
    method AddMessage(role: Role, text: string)
      modifies this
      ensures messages == old(messages) + [(role, text)]
      ensures candidate == old(candidate) && savedRecords == old(savedRecords)
    {
      messages := messages + [(role, text)];
    }

    /** The form's submit branch: the record replaces the old one, and the log gets the
        registration line and the greeting. */
    method SubmitForm(form: Form, now: string)
      requires Valid()
      modifies this
      ensures candidate == CandidateRecord(form, now)
      ensures messages == old(messages) + [(User, RegisteredPrefix + DisplayName(candidate)), (Assistant, Greeting)]
      ensures savedRecords == old(savedRecords)
      ensures Valid()
    {
      candidate := CandidateRecord(form, now);
      var registered := RegisteredPrefix + DisplayName(candidate);
      ghost var before := messages;
      AddMessage(User, registered);
      AddMessage(Assistant, Greeting);
      AppendTwo(before, (User, registered), (Assistant, Greeting));
    }

    /** A turn that is not an exit: the input and the chatbot's reply are logged, and
        once the chatbot holds questions the anonymised record is stored. */
    method Converse(input: string, remote: Llm.Remote)
      requires Valid()
      modifies this, chatbot
      ensures var (reply, questions) :=
        Respond(chatbot.llm.Path(), old(chatbot.lastGeneratedQuestions), input, candidate, remote);
        && messages == old(messages) + [(User, input), (Assistant, reply)]
        && chatbot.lastGeneratedQuestions == questions
        && savedRecords == old(savedRecords) + (if questions != [] then [Anonymised(candidate, questions)] else [])
      ensures candidate == old(candidate)
      ensures Valid()
    {
      ghost var before := messages;
      AddMessage(User, input);
      var response := chatbot.HandleMessage(input, candidate, remote);
      AddMessage(Assistant, response);
      AppendTwo(before, (User, input), (Assistant, response));
      Store();
    }

    /** The save step: the anonymised copy is stored when the chatbot holds questions. */
    method Store()
      requires Valid()
      modifies this
      ensures var questions := chatbot.lastGeneratedQuestions;
        savedRecords == old(savedRecords) + (if questions != [] then [Anonymised(candidate, questions)] else [])
      ensures messages == old(messages) && candidate == old(candidate)
      ensures Valid()
    {
      var questions := chatbot.lastGeneratedQuestions;
      if questions != [] {
        AnonymisedIsStorable(candidate, questions);
        savedRecords := savedRecords + [Anonymised(candidate, questions)];
      }
    }

    /** The Send button. An empty input changes nothing; an exit word logs the input and
        the farewell and ends the run; anything else is a chat turn. */
    method Send(input: string, remote: Llm.Remote)
      requires Valid()
      modifies this, chatbot
      ensures candidate == old(candidate)
      ensures input == [] || IsExit(input) ==>
        chatbot.lastGeneratedQuestions == old(chatbot.lastGeneratedQuestions) && savedRecords == old(savedRecords)
      ensures input == [] ==> messages == old(messages)
      ensures input != [] && IsExit(input) ==> messages == old(messages) + [(User, input), (Assistant, Farewell)]
      ensures input != [] && !IsExit(input) ==>
        var (reply, questions) :=
          Respond(chatbot.llm.Path(), old(chatbot.lastGeneratedQuestions), input, candidate, remote);
        && messages == old(messages) + [(User, input), (Assistant, reply)]
        && chatbot.lastGeneratedQuestions == questions
        && savedRecords == old(savedRecords) + (if questions != [] then [Anonymised(candidate, questions)] else [])
      ensures Valid()
    {
      if input == [] {
        return;
      }
      if IsExit(input) {
        ghost var before := messages;
        AddMessage(User, input);
        AddMessage(Assistant, Farewell);
        AppendTwo(before, (User, input), (Assistant, Farewell));
        return;
      }
      Converse(input, remote);
    }
  }
}
