# TalentScout hiring assistant — a Dafny model

TalentScout is a Streamlit chat page. A candidate fills in a form: name, email, phone, years of
experience, desired positions, location and tech stack. They then chat with an assistant that
generates technical screening questions for their stack.

The questions come from one of two sources:

- a completion service (OpenAI or Azure OpenAI), chosen from environment variables;
- a built-in bank of canned questions, when no service is configured or a call fails.

The completion text is parsed back into a list of questions. Once questions exist, an
anonymised copy of the candidate record is handed to storage.

This project models that core and proves what it promises:

- `Text`: ASCII versions of Python's `strip`, `lower`, `split`, `splitlines`, `isdigit`,
  `join` and `in`.
- `Prompts`: the prompt builder `question_prompt_template`.
- `QuestionBank`: `RULE_BASED_QUESTION_BANK` and the reply of the offline fallback
  `_rule_based_from_prompt`, as functions.
- `ResponseParser`: `_parse_questions`, as functions on lines.
- `Llm`:
  - provider selection over the environment;
  - the dispatch of `generate`;
  - the class `LlmWrapper`, whose methods run the source's loops and are proved equal to the
    functions above.
- `Conversation`:
  - `simple_normalize_tech`;
  - the routing of `handle_message`;
  - the class `Chatbot`, with its one mutable field `lastGeneratedQuestions`.
  
  `Chatbot.greeting()` and `Chatbot.farewell()` are the constants `Greeting` and `Farewell`.
- `App`:
  - the candidate record built from the form;
  - the anonymised copy;
  - the class `Session`: the chat log, the record, the chatbot, and the sink that receives
    saved records.

Behaviour of the code worth knowing, which the model keeps:

- The parser keeps a cleaned line only when it is longer than ten characters (`len > 10`),
  so a line of exactly ten characters is dropped.
- The offline fallback lists the matched technologies in bank order (python, django, react,
  sql, aws), whatever order the stack was given in.
- A completion that is blank after trimming is returned as "", so `generate` can return an
  empty string.
- Bullet removal strips the whole leading run of `-`, `*` and spaces, not one marker.

## Model

| member | source | states |
|---|---|---|
| Llm.RequestedProvider | chatbot_logic.py:71 | `FORCE_PROVIDER` lower-cased, or "auto" when it is unset or empty; stated by SelectProviderCases. |
| Llm.SelectProvider | chatbot_logic.py:71-81 | Provider selection; stated by SelectProviderCases. |
| Llm.SelectProviderCases | chatbot_logic.py:71-81 | With no override (or "auto"): "openai" iff the OpenAI key is non-empty; "azure_openai" iff it is not and both Azure key and endpoint are non-empty; "rule_based" otherwise. A non-empty override is kept lower-cased. The provider is never "" or "auto". |
| Llm.LlmWrapper.constructor | chatbot_logic.py:69-88 | The settled provider is the selection over the environment. The wrapper records whether the client package is installed, plus the Azure key and endpoint. |
| Llm.Route | chatbot_logic.py:94-124 | Which backend `generate` calls; stated by RouteCases. |
| Llm.RouteCases | chatbot_logic.py:94-124 | Offline for "rule_based" and any unknown provider. For "openai": the OpenAI call when the package is installed, otherwise offline. For "azure_openai": the Azure call when key and endpoint are non-empty, otherwise offline. An auto-detected Azure provider is always called. |
| Llm.GenerateUnsentIsOffline | chatbot_logic.py:90-124 | When no request is sent (rule_based, an unknown override, OpenAI without the package, Azure without key or endpoint), `generate` returns exactly the rule-based reply. |
| Llm.GenerateReply | chatbot_logic.py:90-124 | What `generate` returns; stated by GenerateReplyCases. |
| Llm.GenerateReplyCases | chatbot_logic.py:90-124 | `generate` never fails. Offline or after a failed call it returns exactly the rule-based reply; otherwise it returns the completion trimmed. |
| Llm.LlmWrapper.Generate | chatbot_logic.py:90-124 | The method's reply is the dispatch function on the wrapper's path, for every prompt and remote outcome. |
| Llm.AzureUrl | chatbot_logic.py:111 | The Azure completions URL; stated by AzureUrlIgnoresTrailingSlashes. |
| Llm.AzureUrlIgnoresTrailingSlashes | chatbot_logic.py:111 | Trailing slashes on the endpoint do not change the URL. An unset deployment means "text-davinci-003". |
| Llm.LlmWrapper.MatchKeys | chatbot_logic.py:129-133 | The loop collects exactly the bank keys found in the lower-cased prompt, in bank order. |
| Llm.LlmWrapper.CollectQuestions | chatbot_logic.py:139-141 | The loop yields the first three questions of each matched key, key after key. |
| Llm.LlmWrapper.RuleBasedFromPrompt | chatbot_logic.py:126-143 | The method equals the offline reply: guidance text when nothing matches, else the numbered list. |
| QuestionBank.BankShape | chatbot_logic.py:37-63 | The keys are python, django, react, sql, aws, in this order and distinct. Each holds exactly three questions, and each question survives numbering and parsing. |
| QuestionBank.IndexOf | chatbot_logic.py:141 | Returns the first position of a key, or the length when the key is absent. |
| QuestionBank.LookupIn | chatbot_logic.py:141 | `get(tech, [])`: the list under the key, or empty when the key is absent. |
| QuestionBank.MatchedIn | chatbot_logic.py:130-133 | A key is matched iff it is among the first n keys and occurs in the text. Matches are in strictly increasing bank order. |
| QuestionBank.MatchedPrefix | chatbot_logic.py:130-133 | Matching over fewer keys gives a prefix of matching over more. |
| QuestionBank.GatherQuestions | chatbot_logic.py:139-141 | At most three questions per matched key. |
| QuestionBank.GatherAppend | chatbot_logic.py:139-141 | Gathering distributes over concatenation of the matched keys. |
| QuestionBank.GatherOfKeys | chatbot_logic.py:139-141 | Bank keys bring exactly three questions each, and every one of them survives parsing. |
| QuestionBank.NumberedListIsNotGuidance | chatbot_logic.py:134-143 | A non-empty numbered list is never the guidance text. |
| QuestionBank.MatchedTechs | chatbot_logic.py:129-133 | The bank keys found in the lower-cased prompt; stated by MatchedIn. |
| QuestionBank.RuleBasedReply | chatbot_logic.py:126-143 | The offline reply; stated by RuleBasedReplyOutcomes. |
| QuestionBank.RuleBasedReplyOutcomes | chatbot_logic.py:129-143 | The reply is the guidance text iff no key occurs in the lower-cased prompt. Otherwise it holds 3 to 15 bank questions, numbered from 1, and parsing gives back exactly those questions. |
| QuestionBank.MatchesFirstTwo | chatbot_logic.py:130-141 | Text naming the first two keys matches them first, and their questions come first. |
| QuestionBank.MatchesPythonAndDjangoFirst | chatbot_logic.py:129-141 | A prompt naming python and django matches them first. Its questions open with theirs, and the reply is not the guidance text. |
| QuestionBank.RuleBasedReplyOpensWithPythonAndDjango | chatbot_logic.py:126-143 | For such a prompt the parsed reply is the matched bank questions, at least six, opening with python's and django's. |
| ResponseParser.StrippedLines | chatbot_logic.py:197 | The non-blank lines of a completion, stripped. The cut loses and reorders nothing (Text.LinePiecesJoinBack), and which pieces survive is stated by NonBlankStrippedOne and NonBlankStrippedAppend. |
| ResponseParser.NonBlankStripped | chatbot_logic.py:197 | Every kept line is non-empty and trimmed, and no more lines are kept than there were. |
| ResponseParser.NonBlankStrippedOne | chatbot_logic.py:197 | A single piece is kept, stripped, iff it is not blank. |
| ResponseParser.NonBlankStrippedAppend | chatbot_logic.py:197 | The filter works piece by piece: the result for a concatenation is the results for its parts, in order. With the one-piece lemma, every non-blank piece is kept, stripped, in its original order, and only blank pieces go. |
| ResponseParser.DropBullets | chatbot_logic.py:202-203 | Removing the bullet run keeps a trimmed line trimmed; what it removes is stated by BulletRunRemoved. |
| ResponseParser.TrimBullets | chatbot_logic.py:203 | `lstrip("-* ")` removes exactly a run of `-`, `*` and spaces in front of text that does not start with one. |
| ResponseParser.BulletRunRemoved | chatbot_logic.py:202-203 | A trimmed line opening with `-` or `*` loses its whole leading run of `-`, `*` and spaces, not one marker. |
| ResponseParser.CleanLineBulleted | chatbot_logic.py:201-207 | A bulleted numbered line such as `"- 3. q"` or `"** 12. q"` cleans to q. |
| ResponseParser.DropNumber | chatbot_logic.py:206-207 | One separator step keeps a trimmed line trimmed. |
| ResponseParser.DropNumbers | chatbot_logic.py:205-207 | The separator steps, in order, keep a trimmed line trimmed. |
| ResponseParser.CleanLine | chatbot_logic.py:201-207 | Cleaning keeps a trimmed line trimmed. |
| ResponseParser.Truncate | chatbot_logic.py:212 | `[:n]` keeps exactly the first min(n, length) entries. |
| ResponseParser.KeepLongInOrder | chatbot_logic.py:198-210 | The kept entries are the cleaned lines at strictly increasing positions, so the order of the lines is kept. |
| ResponseParser.KeptIndicesExact | chatbot_logic.py:209-210 | A position is kept iff its cleaned line is longer than ten characters. |
| ResponseParser.KeepLongShape | chatbot_logic.py:209-210 | Kept entries are longer than ten characters, and trimmed when the lines were. |
| ResponseParser.KeepLong | chatbot_logic.py:209-210 | The cleaned lines longer than ten characters, in order; stated by KeptIndicesExact, KeepLongInOrder and KeepLongShape. |
| ResponseParser.ParsedQuestions | chatbot_logic.py:195-212 | `_parse_questions`; stated by ParsedQuestionsShape and the round trip ParseNumberedStable. |
| ResponseParser.ParsedQuestionsShape | chatbot_logic.py:195-212 | The result is the first min(15, k) of the k cleaned lines longer than ten characters, in order, each trimmed. |
| ResponseParser.DropNumberUnnumbered | chatbot_logic.py:206 | Text not starting with a digit is left alone (`isdigit` of "" is false). |
| ResponseParser.DropNumbersUnnumbered | chatbot_logic.py:205-207 | No separator step touches text not starting with a digit. |
| ResponseParser.CleanLineUnnumbered | chatbot_logic.py:201-207 | A line without a bullet or digit prefix comes through unchanged. |
| ResponseParser.CleanLineSteps | chatbot_logic.py:205-207 | The separators ". ", ") ", " - " are tried in this order, each once. |
| ResponseParser.CleanLineNumbered | chatbot_logic.py:205-207 | `"<digits>. q"` cleans to q. |
| ResponseParser.CleanLineTwoPrefixes | chatbot_logic.py:205-207 | Prefixes go cumulatively: `"1. 2) q"` cleans to q. |
| ResponseParser.CleanLineThreePrefixes | chatbot_logic.py:205-207 | All three steps fire on `"1. 2) 3 - q"`, leaving q. |
| ResponseParser.BulletFree | chatbot_logic.py:202 | A line starting with a digit has no bullet to remove. |
| ResponseParser.StackedStep | chatbot_logic.py:206-207 | A digit run and its separator are removed by that separator's step. |
| ResponseParser.NumberedListLines | chatbot_logic.py:197-207 | A numbered list splits back into its numbered lines, and each cleans to its question. |
| ResponseParser.ParseNumberedList | chatbot_logic.py:195-212 | Parsing a numbered list gives the questions longer than ten characters, in order, at most 15. |
| ResponseParser.ParseNumberedStable | chatbot_logic.py:195-212 | Round trip: up to 15 stable questions, numbered then parsed, come back unchanged. |
| ResponseParser.ShortNumberedQuestionsDropped | chatbot_logic.py:209-210 | Numbered questions of ten characters or fewer all disappear. |
| Text.SplitOnJoinBack | chatbot_logic.py:174 | For any text, the pieces of `split(",")` joined again with "," give back the text. |
| Text.LinePiecesJoinBack | chatbot_logic.py:197 | For any text, its line pieces joined with "\n" give back the text with each line-boundary character read as "\n". |
| Text.WordCountOne | chatbot_logic.py:172 | `len(s.split())` of one run of non-whitespace characters is 1. |
| Text.WordCountAppend | chatbot_logic.py:172 | Words add up across a whitespace boundary: text ending in whitespace followed by any text. |
| Text.NumberedList | chatbot_logic.py:143 | `"\n".join(f"{i+1}. {q}" ...)`, also used at line 190; parsing it back is stated by ParseNumberedStable. |
| Prompts.QuestionPrompt | prompts.py:11-25 | `question_prompt_template`; its text is stated by PromptOpens, PromptTaskFollowsStack, PromptStatesCount, PromptCloses and PromptAlwaysNamesPythonAndDjango. |
| Prompts.PromptOpens | prompts.py:12-16 | The prompt starts with the fixed preamble line, followed by "Candidate tech-stack: " and the techs joined with ", ". |
| Prompts.PromptForEmptyStack | prompts.py:12-16 | An empty stack leaves nothing between the label and the task sentence. |
| Prompts.PromptTaskFollowsStack | prompts.py:16-20 | The task sentence directly follows the stack line. |
| Prompts.PromptStatesCount | prompts.py:17 | The prompt contains "produce N concise", with N in decimal. |
| Prompts.PromptCloses | prompts.py:24 | The prompt ends with "Begin generating now.". |
| Prompts.PythonExampleNamesPython | prompts.py:22 | The first example line, lower-cased, contains "python". |
| Prompts.DjangoExampleNamesDjango | prompts.py:23 | The second example line, lower-cased, contains "django". |
| Prompts.PromptAlwaysNamesPythonAndDjango | prompts.py:21-23 | For every stack and count, the lower-cased prompt contains "python" and "django". |
| Conversation.LowerShape | chatbot_logic.py:66 | Lower-casing leaves no capital letter and keeps a trimmed text trimmed. |
| Conversation.NormalizeTech | chatbot_logic.py:65-66 | Produces no more entries than given, each trimmed and lower-cased; which entries survive is stated by NormalizeTechOne and NormalizeTechAppend. |
| Conversation.NormalizeTechOne | chatbot_logic.py:66 | A single entry "" is dropped; any other entry is kept as its trimmed, lower-cased form. |
| Conversation.NormalizeTechAppend | chatbot_logic.py:66 | Entries are handled one by one: the result for a concatenation is the results for its parts, in order. With the one-entry lemma, exactly the "" entries go and all others survive in order. |
| Conversation.NormalizeTechOfNonEmpty | chatbot_logic.py:65-66 | Non-empty entries all survive, position by position, as their trimmed lower-case form. |
| Conversation.BlankTechSurvives | chatbot_logic.py:66 | An entry of whitespace only becomes "", not dropped. |
| Conversation.CommaItems | chatbot_logic.py:174 | Each piece is non-empty, trimmed and comma-free. For any text the comma pieces re-join to it (Text.SplitOnJoinBack), and exactly the non-blank ones are kept, stripped, in order (NonBlankStrippedOne, NonBlankStrippedAppend). |
| Conversation.CommaItemsOfEmpty | chatbot_logic.py:174 | The empty text gives no items. |
| Conversation.CommaItemsJoin | chatbot_logic.py:174 | Round trip: such items joined with ", " split back into themselves. |
| Conversation.TechStackOf | chatbot_logic.py:167 | `candidate.get("tech_stack", [])`; for a form's record it is the form's comma items (App.CandidateRecordShape). |
| Conversation.AsksForQuestions | chatbot_logic.py:165-166 | Some trigger word occurs in the trimmed, lower-cased message; used by GeneratesExactlyWhen. |
| Conversation.LooksLikeTechList | chatbot_logic.py:172 | A comma, at most ten comma pieces and fewer than fifty words; used by GeneratesExactlyWhen. |
| Conversation.Classify | chatbot_logic.py:163-179 | The routing of `handle_message`; stated by GeneratesExactlyWhen and RequestAfterForm. |
| Conversation.Respond | chatbot_logic.py:163-193 | The reply and the new stored questions; stated by RespondKeepsQuestionsUnlessGenerating and OfflineStackStartsWithPythonAndDjango. |
| Conversation.GeneratesExactlyWhen | chatbot_logic.py:165-175 | Generation happens iff a trigger is present with a stack on record, or no trigger is present and the message reads as a tech list. |
| Conversation.RespondKeepsQuestionsUnlessGenerating | chatbot_logic.py:163-193 | The stored questions change only on generation, which always overwrites them with the parse, even an empty one. |
| Conversation.StackPrompt | chatbot_logic.py:182-184 | The prompt for the normalised stack with three questions per technology; its text is stated by the Prompts lemmas. |
| Conversation.StackResponse | chatbot_logic.py:185 | The completion `generate` returns for that prompt; offline it opens with python's and django's questions (OfflineStackStartsWithPythonAndDjango). |
| Conversation.StackReply | chatbot_logic.py:187-193 | The reply to a stack; stated by StackReplyCases. |
| Conversation.StackReplyCases | chatbot_logic.py:187-193 | The header plus the re-numbered list when the parse is non-empty; otherwise the raw response. |
| Conversation.OfflineStackStartsWithPythonAndDjango | chatbot_logic.py:181-193 | Offline, for any stack: the stored questions open with python's and django's six, and the reply is the header with a list. |
| Conversation.Chatbot.constructor | chatbot_logic.py:149-152 | A new chatbot holds its wrapper and no questions. |
| Conversation.Chatbot.CleanOne | chatbot_logic.py:201-207 | The bullet step and the separator loop together equal the line-cleaning function. |
| Conversation.Chatbot.ParseQuestions | chatbot_logic.py:195-212 | The line loop and truncation equal the parse function. |
| Conversation.Chatbot.GenerateQuestionsForStack | chatbot_logic.py:181-193 | Overwrites the stored questions with the parse of the response, and returns the stack reply. |
| Conversation.Chatbot.MentionsTrigger | chatbot_logic.py:165-166 | True iff some trigger occurs in the text. |
| Conversation.Chatbot.ClassifyMessage | chatbot_logic.py:163-179 | The four branches, in the source's order. |
| Conversation.Chatbot.HandleMessage | chatbot_logic.py:163-179 | The reply and the new stored questions are the routing's outcome on the old ones. |
| App.CandidateRecord | app.py:59-68 | The record the form produces; stated by RecordFields and CandidateRecordShape. |
| App.RecordFields | app.py:59-68 | The record holds exactly the eight keys, each with its trimmed, split or converted form value; `created_at` is the clock text plus "Z". |
| App.CandidateRecordShape | app.py:59-68 | Name, email, phone and location are trimmed, and the chat sees the comma items of the stack field. |
| App.RequestAfterForm | app.py:66 | After the form, a request for questions generates for the form's items, or asks for a stack when there are none. |
| App.DisplayName | app.py:69 | `full_name` or "N/A"; stated by RegisteredNameOfForm. |
| App.RegisteredNameOfForm | app.py:69 | The registration line names the trimmed name, or "N/A" when it is blank. |
| App.Anonymised | app.py:88-96 | The copy handed to storage; stated by AnonymisedMasksContact, AnonymisedKeepsTheRest and AnonymisedIdempotent. |
| App.AnonymisedMasksContact | app.py:90-96 | A non-empty email or phone is replaced by its mask. An empty one is kept and a missing one stays missing. "questions" holds the questions. |
| App.AnonymisedKeepsTheRest | app.py:90-96 | The copy adds only "questions"; every other field is unchanged. |
| App.AnonymisedIdempotent | app.py:90-96 | Anonymising the copy again with the same questions changes nothing. |
| App.AnonymisedIsStorable | app.py:88-96 | With some questions the copy holds no unmasked contact detail. |
| App.FormContactNotStored | app.py:90-95 | A non-blank email typed into the form is stored as the mask and a blank one as ""; the same holds for the phone, each independently. |
| App.Session.constructor | app.py:27-35 | A new session has an empty log, an empty record and nothing stored. |
| App.Session.AddMessage | app.py:37-38 | Appends one line and changes nothing else. |
| App.Session.SubmitForm | app.py:59-70 | The record is replaced. The log gains the registration line and the greeting, and every stored record stays storable. |
| App.Session.Store | app.py:88-99 | One anonymised copy is stored iff the chatbot holds questions. |
| App.Session.Converse | app.py:83-99 | Appends the input and the reply. The stored questions follow the routing, the copy is saved iff questions exist, and the session's record is untouched. |
| App.IsExit | app.py:79 | The trimmed, lower-cased input is one of the exit words; used by Session.Send. |
| App.Session.Send | app.py:75-99 | Empty input changes nothing. An exit word appends the input and the farewell and stops. Otherwise it is a chat turn. The log is only appended to. |

## Left out

- The OpenAI and Azure HTTP calls are not modelled; their outcome is a parameter (`Remote`: the completion text or a failure). `max_tokens`, `temperature`, the engine name, the request headers and the `print` logging are not modelled.
- `os.getenv` and `load_dotenv` become the `Env` parameter. Whether the `openai` package imported becomes a boolean. `openai.api_key` is not modelled.
- `datetime.utcnow().isoformat()` is a string parameter. The years field is a `real` (Python float).
- Streamlit is not modelled: widgets, rendering, `show_chat`, the sidebar, the warning on empty input, and `st.experimental_rerun` (modelled as the end of the handler).
- `save_local_candidate` and `try_upload_to_azure` are not modelled. Both are one sink: the sequence `savedRecords` that receives each record handed to them.
- utils_storage.py and generate_dummy_data.py are not part of this model.
- The unused `Chatbot.context` field is not modelled.
- `Text`: Python's `lower`, `strip`, `isdigit`, `split` and `splitlines` are ASCII versions, not full Unicode. Whitespace is the ASCII set that `str.isspace` accepts. Blank pieces are filtered, so splitting on each line break matches `splitlines`.
- Conversation.TechStackOf: a `tech_stack` value that is not a list is read as no stack. Such a value cannot come from the form.
- App.DisplayName: a non-text `full_name` is shown as "N/A". The form always stores text there.
- Conversation.NormalizeTech: the `isinstance(t, str)` filter is vacuous, because the model's lists hold only strings.
