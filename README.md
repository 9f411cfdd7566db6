# Prompt generator model

A Dafny model of the two pieces of program logic in `main.py` of a small
Streamlit prompt-engineering assistant, with proofs about them.

- **The substitutor** (`generate_prompt_action`) turns a prompt template into
  one prompt per student answer. It builds a mapping over the seven allowed
  variable names: six values fetched from an activity document, plus
  `student_answer`. It warns about `{{name}}` placeholders whose name is not
  allowed. It then fills the template by one `str.replace` per allowed name,
  in a fixed order.
- **The extractor** (`fetch_and_populate_variables_action`) takes the
  activity document, already parsed from JSON. It pulls out the six fetched
  values from fixed places in it and stores them in the session dictionary.

Modules, one per file:

- `Wrappers` (`wrappers.dfy`): `Option`.
- `Text` (`text.dfy`): Python's `sep.join`.
- `Replace` (`replace.dfy`): Python's `str.replace` for a non-empty search
  string, `ReplaceAll`, with its laws. These are: nothing changes when the
  search string is absent, occurrences are replaced left to right without
  rescanning, the result agrees with `v.join(s.split(t))`, and a part that no
  occurrence touches separates the replacement.
- `Variables` (`variables.dfy`): the whitelist (main.py:9-17) and the
  placeholder text `{{name}}`. Also a proof that placeholders of two distinct
  brace-free names never overlap.
- `Scanner` (`scanner.dfy`): `re.findall(r"\{\{(.*?)\}\}", template)`, worked
  out as a left-to-right scan with a lazy group that stops at the first
  `}}` and cannot cross a newline. Also the set of unknown names the warning
  reports.
- `Substitutor` (`substitutor.dfy`): the variable mapping, the fill as a
  fold of `ReplaceAll` over the key order, the filling loop as a method, the
  batch loop, and the whole action without its display calls.
- `JsonValues` (`json.dfy`): the parsed `Json` value, Python truthiness,
  `dict.get`, and `str()` of a value.
- `Extractor` (`extractor.dfy`): the six values as functions of the
  document, the extraction loops as methods proved equal to those functions,
  and the session dictionary as a class.

The fill is sequential, as in the program. A value inserted for an earlier
name stays in the text while later names are replaced, so a placeholder
inside a fetched value can be expanded by a later step.
`EarlierValueExpandedLater` shows this. `TokenCanReform` shows that a
replacement can create a placeholder across the edge of the inserted value.
The model therefore claims no "no placeholder survives" property for
allowed names. Within one replacement the search resumes after each
inserted value, so a value is never rescanned for its own placeholder
(`ReplaceFirst`, for all inputs; `NoSelfReexpansion` is an instance).

## Model

| member | source | states |
|---|---|---|
| Variables.AnswerLast | main.py:9-17 | the whitelist is the six predefined names followed by `student_answer`, which occurs only last |
| Variables.WhitelistBraceFree | main.py:9-17 | every allowed name is non-empty and contains no brace |
| Variables.Token | main.py:159 | `{{name}}` is the name between two opening and two closing braces, four characters longer |
| Replace.ReplaceAll | main.py:159 | defines `s.replace(t, v)` for a non-empty `t`: scan left to right, replace each occurrence and resume after it; its laws are the `Replace` rows below |
| Variables.TokensDisjoint | main.py:157-159 | an occurrence of the placeholder of one brace-free name cannot overlap the placeholder of a different brace-free name |
| Replace.AbsentUnchanged | main.py:159 | `s.replace(t, v)` returns `s` when `t` does not occur in `s` |
| Replace.ReplaceByItself | main.py:159 | replacing a text by itself changes nothing |
| Replace.ReplaceFirst | main.py:159 | the first occurrence is replaced, the text before it is kept, and the search resumes after it, never inside the inserted value |
| Replace.ReplaceIsSplitJoin | main.py:159 | `s.replace(t, v)` equals `v.join` of the parts that the left-to-right search for `t` cuts `s` into |
| Replace.ReplaceAround | main.py:159 | a middle part that no occurrence starts in or reaches across is kept, and the two sides are replaced independently |
| Replace.NoSelfReexpansion | main.py:159 | `"{{k}}".replace("{{k}}", "x{{k}}")` is `"x{{k}}"`: the inserted placeholder is not expanded again |
| Replace.TokenCanReform | main.py:159 | `"{{{k}}".replace("{{k}}", "{k}}")` is `"{{k}}"`: a placeholder can re-form after its replacement |
| Text.JoinSnoc | main.py:59 | joining one more part appends the separator and that part |
| Scanner.Scan | main.py:141 | defines `re.findall(r"\{\{(.*?)\}\}", s)`: a `{{` from which a `}}` is reached without a newline gives the text up to the first such `}}`, and the search resumes after it; any other position is passed over one character at a time |
| Scanner.FindClose | main.py:141 | the lazy group ends at the first `}}`, and no newline comes before it; when there is no result, every `}}` has a newline before it |
| Scanner.ScanSound | main.py:141 | every captured name contains no newline and is the name of a placeholder that occurs in the template |
| Scanner.ScanSkip | main.py:141 | text without `{` contributes no captured names |
| Scanner.ScanToken | main.py:141 | a placeholder whose name has no `}` and no newline is captured whole, and the search continues after it |
| Scanner.ScanTwoTokens | main.py:141 | two such placeholders in brace-free text are captured in order |
| Scanner.UnknownNames | main.py:141-143 | each reported name is outside the whitelist, contains no newline, and has its placeholder in the template |
| Scanner.WarnsUnknown | main.py:144 | defines the warning condition: some captured name is outside the whitelist |
| Scanner.UnknownOfTwo | main.py:141-144 | of two captured names, only the one outside the whitelist is reported |
| Scanner.UnknownExample | main.py:141-145 | in `Hello {{unknown_var}} and {{student_answer}}!` both names are captured and only `unknown_var` is reported |
| Substitutor.Bindings | main.py:138 | the mapping's keys are exactly the seven allowed names; each fetched name maps to its fetched value or `""`; `student_answer` maps to the answer |
| Substitutor.BindingsCover | main.py:138 | every allowed name is a key of the mapping |
| Substitutor.FillWith | main.py:154-159 | defines the fill over a key order: one `str.replace` of each key's placeholder by its value, in that order, each step acting on the previous result |
| Substitutor.Fill | main.py:154-159 | defines one prompt: the fill over the seven allowed names, in list order, with the mapping of `Bindings` |
| Substitutor.SingleAnswer | main.py:150 | defines the text-box answer: the given text, or `""` when there is none |
| Substitutor.FillWithAppend | main.py:157-159 | filling over two key runs is filling over the first, then over the second |
| Substitutor.FillLastStep | main.py:154-159 | the fill is the fill over the six fetched names followed by replacing `{{student_answer}}` with the answer |
| Substitutor.FillPredefinedOrder | main.py:9-16 | the six fetched names are replaced in the order of the list, each by its mapped value |
| Substitutor.FillOrder | main.py:138-159 | the fill is seven nested replacements, `task_instruction` first and `student_answer` last; a fetched name missing from the fetched mapping is replaced by `""` |
| Substitutor.FillWithAbsent | main.py:157-159 | a text holding none of the keys' placeholders passes every step unchanged |
| Substitutor.NoTokenNoChange | main.py:156-159 | a template without any allowed placeholder is returned unchanged, whatever the values |
| Substitutor.FillWithAround | main.py:157-159 | a placeholder of a brace-free name outside the keys survives every step, and the text on either side is filled on its own |
| Substitutor.UnknownTokenVerbatim | main.py:157-159 | a placeholder of a brace-free name outside the whitelist stays verbatim in the prompt, with the text on each side filled independently |
| Substitutor.AnswerOnlyTemplate | main.py:150-159 | a template whose only placeholder is `{{student_answer}}`, in text without `{`, becomes that text with the answer in place of the placeholder |
| Substitutor.HelloWorld | main.py:150-159 | `Hello {{student_answer}}!` with the answer `world` gives `Hello world!`, whatever was fetched |
| Substitutor.FillWithKeepsToken | main.py:157-159 | a placeholder of a brace-free name that is not a key is left as it is |
| Substitutor.EarlierValueExpandedLater | main.py:157-159 | when the fetched `task_instruction` is `{{student_answer}}`, the template `{{task_instruction}}` becomes the answer |
| Substitutor.ReplaceEach | main.py:157-159 | the replacement loop over the keys computes the fold `FillWith` over those keys |
| Substitutor.FillPrompt | main.py:154-159 | the single-answer prompt is `Fill(template, fetched, answer)` |
| Substitutor.GenerateBatch | main.py:172-185 | the batch gives one prompt per answer, in order, the i-th being the single-answer fill with the i-th answer |
| Substitutor.GeneratePrompts | main.py:133-185 | the action shows the warning exactly when `WarnsUnknown` holds and reports exactly the unknown names; it gives the note about a missing answer exactly when the text-box answer is missing or empty and `student_answer` is captured; it gives one prompt for the text box, the batch for a read table, and none otherwise |
| JsonValues.Truthy | main.py:48 | defines Python truthiness of a JSON value: `null`, `false`, `0`, `""`, `[]` and `{}` are false |
| JsonValues.Get | main.py:47 | defines `d.get(key, default)` |
| JsonValues.PyStr | main.py:75 | defines `str()` of a JSON value (see Left out) |
| JsonValues.NatTextRoundTrip | main.py:75 | the decimal text of a natural number is non-empty, does not start with `-`, and reads back as that number |
| JsonValues.IntTextRoundTrip | main.py:75 | `int(str(n)) == n` for every integer |
| Extractor.SessionValues | main.py:104-109 | the session dictionary has exactly the six predefined names as keys |
| Extractor.SessionLookup | main.py:104-109 | each predefined name is bound to its own extracted value |
| Extractor.ResetIsEmpty | main.py:26 | after the reset every predefined name is bound to `""` |
| Extractor.Bulleted | main.py:59 | one `- ` line per text, in order |
| Text.Join | main.py:81 | defines `sep.join(parts)` |
| Extractor.BulletList | main.py:59 | defines `"\n".join(f"- {s}" for s in items)` |
| Extractor.FirstInteraction | main.py:47-50 | defines the interaction read: `interactions[0]` when `interactions` is a truthy non-empty list whose first element is an object, and nothing otherwise |
| Extractor.TaskInstruction | main.py:47-51 | defines `task_instruction`: `str` of the first interaction's `instruction`, `""` without such an interaction |
| Extractor.CanDoStatements | main.py:53-59 | defines `can_do_statements`: the bullet list of the kept statements when `canDoStatement` is a list, `""` otherwise |
| Extractor.StatementOf | main.py:56 | defines the text of a can-do entry: `str` of its `statement`, `""` when it has none |
| Extractor.Statements | main.py:55-58 | at most one statement per entry; none when no entry is kept; every statement, in order, when every entry is a dict with a truthy `statement` |
| Extractor.StatementsAppend | main.py:55-58 | the kept statements of `a + b` are those of `a` followed by those of `b`; with the one-entry cases above, this fixes the result on every list |
| Extractor.StatementsMixed | main.py:55-58 | a kept entry followed by a dropped `null` gives the kept statement alone |
| Extractor.TruthyTexts | main.py:75 | at most one text per item; none when no item is truthy; `str` of every item, in order, when all are truthy |
| Extractor.TruthyTextsAppend | main.py:75 | the texts of `a + b` are those of `a` followed by those of `b`; with the one-item cases above, this fixes the result on every list |
| Extractor.ScreenVocabulary | main.py:68-75 | defines one screen's vocabulary: `str` of the truthy items of its `vocabularyList` when it is an object of category `vocabulary` with object `contents`, nothing otherwise |
| Extractor.VocabularyItems | main.py:66-75 | defines `vocabulary_items_list`: the screens' vocabularies concatenated in screen order |
| Extractor.LastReference | main.py:76-79 | defines the kept grammar or communication reference: that of the last screen of the category, `""` without one |
| Extractor.QuestionOf | main.py:95-97 | defines the text of a content item: `str` of its `secondaryContent` |
| Extractor.ItemQuestions | main.py:93-97 | at most one question per item; none when no item asks one; `str` of every `secondaryContent`, in order, when every item is an object with a truthy one |
| Extractor.ItemQuestionsAppend | main.py:93-97 | the questions of `a + b` are those of `a` followed by those of `b`; with the one-item cases above, this fixes the result on every list |
| Extractor.ScreenQuestions | main.py:90-97 | defines one screen's questions: those of its `contents` when it is an object whose `contents` is a list, nothing otherwise |
| Extractor.GuidingQuestions | main.py:88-97 | defines `guiding_questions_list_raw`: the screens' questions concatenated in screen order |
| Extractor.ExtractFields | main.py:39-109 | defines the six values of an object document, each field as its own section computes it |
| Extractor.Extract | main.py:36-129 | a failed fetch or a document that is not an object gives six `""` values |
| Extractor.FetchAndPopulate | main.py:26-30 | with an empty URL every value is `""` |
| Extractor.GatherSnoc | main.py:67-73 | one more screen appends its own contribution at the end |
| Extractor.GatherAcross | main.py:67-97 | gathering over consecutive runs of screens concatenates their results |
| Extractor.VocabularyAcross | main.py:64-75 | the vocabulary of `a + b` is the vocabulary of `a` followed by that of `b` |
| Extractor.GuidingAcross | main.py:86-97 | the questions of `a + b` are those of `a` followed by those of `b` |
| Extractor.LastReferenceWins | main.py:76-79 | the grammar or communication reference kept is that of the last screen of its category |
| Extractor.LastReferenceDefault | main.py:41-42 | with no screen of the category the reference stays `""` |
| Extractor.FirstInteractionOnly | main.py:47-59 | only `interactions[0]` is read: the interactions after it change neither `task_instruction` nor `can_do_statements` |
| Extractor.MissingInteractions | main.py:47-61 | when `interactions` is missing, an empty list or not a list, or its first element is not a dict, `task_instruction` and `can_do_statements` are `""` |
| Extractor.InteractionsIsolated | main.py:63-101 | `interactions` does not affect the other four values |
| Extractor.SingleReferenceScreen | main.py:64-81 | with one reference screen, `vocabulary_list` is the `", "`-join of that screen's vocabulary |
| Extractor.VocabularyExample | main.py:72-81 | the vocabulary list `["cat", null, "dog"]` gives `cat, dog` |
| Extractor.GrammarExample | main.py:76-77 | of two grammar screens, the later one's reference is kept |
| Extractor.SingleSecondaryScreen | main.py:86-99 | with one secondary screen, `guiding_questions` is the bullet list of that screen's questions |
| Extractor.BulletPair | main.py:99 | two texts become `- a`, a newline, `- b` |
| Extractor.QuestionsOfThree | main.py:93-97 | items whose `secondaryContent` is truthy give their questions in order, and the others are skipped |
| Extractor.GuidingExample | main.py:86-99 | questions `Why?`, `""` and `How?` give `- Why?`, a newline, `- How?` |
| Extractor.ReadReferences | main.py:64-79 | the loop over reference screens computes the vocabulary items and the last grammar and communication references |
| Extractor.AppendItemQuestions | main.py:91-97 | the inner loop appends the questions of one screen's items |
| Extractor.ReadQuestions | main.py:86-97 | the loop over secondary screens computes the questions of all screens |
| Extractor.PopulateVariables | main.py:28-112 | the extraction computes `FetchAndPopulate`, and it succeeds exactly when the URL is non-empty and the fetch gave an object |
| Extractor.Session.constructor | main.py:282-283 | a session starts with every predefined name bound to `""` |
| Extractor.Session.FetchAction | main.py:20-129 | after the action the dictionary is `SessionValues(FetchAndPopulate(url, response))`, and it returns true exactly on success |
| Extractor.Session.FillMissing | main.py:124-128 | every predefined name missing from the dictionary is bound to `""`; nothing else is added; entries already present are unchanged |

## Left out

- The Streamlit interface, session bookkeeping outside the fetched-values dictionary, and every `st.*` message call. These are presentation code tied to the framework.
- The HTTP request, its timeout and status check, and JSON text parsing (main.py:34-36) are network I/O and a foreign library. Their outcome is the `response` input: `None` stands for any request, HTTP or decode error.
- Reading the answers table with pandas, the `Answers` column check, and the CSV export are done by a foreign library. The answers reach the model as a list of strings, or none.
- Editing the fetched values in the interface between the fetch and the generation (main.py:337-347) is not modelled. The substitutor takes the fetched mapping as an input.
- The values are modelled as text at extraction time. The program stores raw JSON values and applies `str()` when it fills the template (main.py:159), so the text is the same.
- JsonValues.PyStr: `str()` is exact for `None`, booleans, integers and strings; a non-empty list or object is rendered as a fixed marker instead of Python's representation, and JSON numbers are integers only (no floats).
- Python's `str()` of a JSON `null` stored as `instruction` or `reference` is `"None"` in the model. An interface text box would show it differently. The model follows the fill's `str()`.
- Extractor.Session.FillMissing: only absent keys are repaired. The `is None` branch of main.py:127 cannot arise, because every modelled value is a string.
- Exceptions other than a failed fetch or a non-object document cannot occur on the modelled paths, so they are not modelled. The `.get` calls act on objects only, and `str()` is total.
- Replace.ReplaceAll: only a non-empty search string is modelled. Python's behaviour for an empty one is left out, because every search string in the program is a placeholder of at least four characters.
- Substitutor.UnknownTokenVerbatim: shown only for names without braces. A name containing braces can contain an allowed placeholder, which the fill then expands.
- Alternative answer-method strings other than the two radio options (main.py:203-204) are represented by `NoMethod`, which gives no prompts.
