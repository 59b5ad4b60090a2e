# DashboardHome: upload, request and result state, in Dafny

This project models the decision logic of the Izabi study dashboard page
(`src/pages/DashboardHome.tsx`). A user picks a PDF. They then ask the study
backend for a summary, for questions or for study material. The page posts
the file and reads the reply, which can come in several shapes. It then opens
or closes two result panels. The model covers:

- **File intake** (`handleFileUpload`). Only a first file whose declared type
  is exactly `application/pdf` replaces the held file.
- **Request dispatch** (`handleRequest`). The guard needs a file and a
  non-empty user id. While the request runs, the busy flag is raised. The form
  is `file`, then `userId`, then `numberOfQuestions = "5"` when questions are
  wanted. It is posted to `{base}/api/study/{endpoint}`. The catch path reports
  the error. The `finally` lowers the busy flag.
- **Reply normalisation.** A truthy `summary` is stored and revealed. The
  question list is the first array among the body itself, `data.questions` and
  `data.studyQuestions`, even when that array is empty. Then one of three
  question cases applies.
- **Display lookups.** The difficulty colour, the question-type symbol, the
  `Type:` caption and the option letters.

Layout, one module per file:

- `types.dfy` (`StudyTypes`): the file, question, payload, reply and request values.
- `text.dfy` (`Text`): ASCII `toLowerCase`, and `replace` with a one-character pattern.
- `display.dfy` (`Display`): `getDifficultyColor`, `getQuestionTypeIcon`, the caption and option letters.
- `dispatch.dfy` (`Dispatch`): which selection is kept, and the request `handleRequest` builds.
- `normalizer.dfy` (`Normalizer`): what a settled request does to the result state, as a pure function `Settle`.
- `dashboard.dfy` (`Dashboard`): the component as a class. Its fields are the six `useState` slots. Its methods are the handlers, and they are proved against `SelectedPdf`, `BuildRequest` and `Settle`.
- `scenarios.dfy` (`Scenarios`): worked examples, plus one client method that drives the class.

`handleRequest` is split at its `await`. `BeginRequest` runs up to the POST,
and `FinishRequest` runs from the moment the reply is in. The state between
the two is the in-flight state (`isProcessing` is true). `HandleRequest`
composes them. The backend's answer is the `reply` parameter. It is read only
when the request is actually sent.

Points of the code's behaviour worth knowing:

- The question list is the first value that is an array, even an empty one,
  so an empty `questions` hides a non-empty `studyQuestions`
  (`EmptyQuestionsShadowStudyQuestions`).
- `handleRequest` has no in-flight guard; only the buttons are disabled while
  `isProcessing` is true. `HandleRequest` therefore sends whatever the value of
  `isProcessing`.
- The summary is tested for truthiness, so a `summary` of `""` changes nothing.
- A JSON `null` body throws at `data.summary` and takes the catch path, as a
  rejected POST does: the page alerts and leaves the results unchanged.

## Model

| member | source | states |
|---|---|---|
| `Text.LowerChar` | src/pages/DashboardHome.tsx:88 | an ASCII capital is moved 32 code points up to its small letter, any other character is kept, and the result is never a capital |
| `Text.Lower` | src/pages/DashboardHome.tsx:88 | lower-casing keeps the length and maps every character to its ASCII lower-case form |
| `Text.LowerIsCaseFolding` | src/pages/DashboardHome.tsx:97 | two strings have the same lower-case form exactly when, position by position, their characters are equal or are the same ASCII letter in the two cases |
| `Text.FirstIndex` | src/pages/DashboardHome.tsx:247 | the result is the position of the first occurrence of the character, or the length when there is none |
| `Text.ReplaceFirst` | src/pages/DashboardHome.tsx:247 | `replace` with a one-character pattern keeps the length and changes only the first occurrence |
| `Text.LowerReplaceFirst` | src/pages/DashboardHome.tsx:239-247 | lower-casing and replacing `_` by a space commute |
| `Text.ReplaceFirstPreimage` | src/pages/DashboardHome.tsx:247 | for a target with one space and no `_`, exactly two strings turn into it: itself and its `_` spelling |
| `Display.DifficultyColor` | src/pages/DashboardHome.tsx:87-94 | easy, medium and hard in any case give green, yellow and red; a missing or other value gives the muted colour |
| `Display.QuestionTypeIcon` | src/pages/DashboardHome.tsx:96-106 | both spellings of each known type, in any case, give that type's symbol; everything else, missing included, gives the question mark |
| `Display.DifficultyColorIgnoresCase` | src/pages/DashboardHome.tsx:88 | changing the case of letters never changes the colour |
| `Display.QuestionTypeIconIgnoresCase` | src/pages/DashboardHome.tsx:97 | changing the case of letters never changes the symbol |
| `Display.TypeLabel` | src/pages/DashboardHome.tsx:247 | the caption is never empty; it is `Unknown` for a missing or empty type; otherwise only the first `_` changes, into a space |
| `Display.TypeLabelKeepsIcon` | src/pages/DashboardHome.tsx:239-247 | the caption text has the same symbol as the record's own type |
| `Display.OptionLetter` | src/pages/DashboardHome.tsx:257 | the code unit is below 65536, and options 0 to 25 get the letters A to Z |
| `Display.OptionLettersDistinct` | src/pages/DashboardHome.tsx:254-257 | the first 26 options get distinct letters |
| `Dispatch.HasUserId` | src/pages/DashboardHome.tsx:36 | the user id is falsy exactly when it is missing (`null`) or the empty string |
| `Dispatch.SelectedPdf` | src/pages/DashboardHome.tsx:28-29 | a selection yields a file exactly when a first file exists with type `application/pdf`, and then it is that file |
| `Dispatch.FormGet` | src/pages/DashboardHome.tsx:40-43 | a name's lookup finds the first entry with that name, and finds nothing exactly when no entry has it |
| `Dispatch.BuildRequest` | src/pages/DashboardHome.tsx:36-45 | a request exists exactly when there is a file and a truthy user id; URL `{base}/api/study/{endpoint}`; `file` then `userId`; `numberOfQuestions` = "5" exactly when questions are wanted |
| `Dispatch.Operation.Endpoint` | src/pages/DashboardHome.tsx:150-177 | each button passes one of the three endpoint names `summarize`, `generate-questions`, `generate-study-material` |
| `Dispatch.Operation.WantsQuestions` | src/pages/DashboardHome.tsx:150-177 | a button asks for questions exactly when its endpoint is not `summarize` |
| `Dispatch.OperationsDistinct` | src/pages/DashboardHome.tsx:150-177 | the three buttons reach three different endpoints: two buttons share an endpoint exactly when they are the same button |
| `Normalizer.FirstArray` | src/pages/DashboardHome.tsx:58-68 | the result is the items of the first array among the candidates, even an empty one, and empty when there is no array |
| `Normalizer.ExtractQuestions` | src/pages/DashboardHome.tsx:58-68 | the list is empty or comes from one of the three places: the bare body, `questions` or `studyQuestions`; the page never calls it on a `null` body, which has already thrown at `data.summary`, and the empty list given for that case only completes the function |
| `Normalizer.TruthySummary` | src/pages/DashboardHome.tsx:52 | a summary is taken exactly when the body is an object whose `summary` is a non-empty string, and then it is that string |
| `Normalizer.Settle` | src/pages/DashboardHome.tsx:49-84 | an error is reported exactly for a rejected POST or a `null` body, and then the view is unchanged; the summary and the questions are either kept or taken from the reply; the question panel opens only onto a non-empty list |
| `Normalizer.ExtractionOrder` | src/pages/DashboardHome.tsx:58-68 | bare array first, then `questions`, then `studyQuestions`, else the empty list |
| `Normalizer.FailureKeepsView` | src/pages/DashboardHome.tsx:79-84 | a rejected POST or an unreadable body reports an error and leaves summary, questions and both reveal flags as they were |
| `Normalizer.ReadableReplyIsQuiet` | src/pages/DashboardHome.tsx:49-77 | a reply whose body can be read never reports an error, whatever it contains |
| `Normalizer.SummaryBranch` | src/pages/DashboardHome.tsx:52-55 | a truthy summary is stored and revealed; otherwise both summary fields keep their values |
| `Normalizer.QuestionsIgnoreSummary` | src/pages/DashboardHome.tsx:52-77 | the question state does not depend on the reply's summary |
| `Normalizer.QuestionCases` | src/pages/DashboardHome.tsx:70-77 | a non-empty list replaces the old one whole and opens; an empty one on a question request clears and hides; otherwise nothing changes |
| `Normalizer.ShapeIndependence` | src/pages/DashboardHome.tsx:58-77 | a list sent bare, as `questions` or as `studyQuestions` gives the same outcome |
| `Normalizer.EmptyQuestionsShadowStudyQuestions` | src/pages/DashboardHome.tsx:63-77 | an empty `questions` array clears the list on a question request, whatever `studyQuestions` holds |
| `Normalizer.EmptyObjectOnQuestionRequest` | src/pages/DashboardHome.tsx:58-77 | `{}` on a question request clears and hides the questions, keeps the summary and raises no alert |
| `Normalizer.SettleKeepsViewConsistent` | src/pages/DashboardHome.tsx:52-77 | a request never opens an empty panel: an open panel keeps having content |
| `Dashboard.DashboardHome.constructor` | src/pages/DashboardHome.tsx:18-23 | no file, not busy, empty summary and questions, both panels closed |
| `Dashboard.DashboardHome.HandleFileUpload` | src/pages/DashboardHome.tsx:27-33 | a PDF selection replaces the held file; any other selection leaves it; no other field changes |
| `Dashboard.DashboardHome.BeginRequest` | src/pages/DashboardHome.tsx:35-47 | the request built is `BuildRequest`'s; when it is sent the busy flag is up, and when it is not nothing changes |
| `Dashboard.DashboardHome.FinishRequest` | src/pages/DashboardHome.tsx:49-84 | the result state and the error report are exactly `Settle` of the old state, the busy flag is down, and the open-panel invariant holds |
| `Dashboard.DashboardHome.HandleRequest` | src/pages/DashboardHome.tsx:35-85 | when the guard fails, nothing changes and nothing is sent; otherwise the busy flag ends down and the results follow `Settle`; the file never changes |
| `Dashboard.DashboardHome.Press` | src/pages/DashboardHome.tsx:150-177 | a button click is `HandleRequest` with that button's endpoint and question flag |
| `Dashboard.DashboardHome.SetShowSummary` | src/pages/DashboardHome.tsx:190 | the summary panel toggle sets only the summary flag, and only while the panel exists |
| `Dashboard.DashboardHome.SetShowQuestions` | src/pages/DashboardHome.tsx:216 | the question panel toggle sets only the question flag, and only while the list is non-empty |
| `Scenarios.SummaryReply` | src/pages/DashboardHome.tsx:52-55 | summarize answered with `{"summary": "X"}` opens the summary on "X" and leaves the questions |
| `Scenarios.StudyQuestionsReply` | src/pages/DashboardHome.tsx:65-106 | one easy multiple-choice record under `studyQuestions` is shown in an open panel, green, with the radio symbol and the caption "multiple choice" |

## Left out

- The axios POST, `FormData` and `File` contents: the reply is the `reply` parameter. `BASE_URL` is the `baseUrl` parameter. HTTP headers are not modelled.
- `localStorage.getItem("userId")`: this is the `userId` parameter.
- `console.log`, `console.warn` and `console.error` are not modelled. `alert` is modelled only as `reportsError`; its text is not.
- Markup, styling classes, lucide icons and the Collapsible wiring are not modelled. The panel toggles are the two setters. The per-option and answer blocks (`q.options?.length > 0`, `q.answer &&`) and the numbering are not modelled.
- Overlapping requests and async interleaving are not modelled. The function has no in-flight guard, and the model claims none.
- React batching and re-rendering are not modelled. Setter calls are sequential field updates.
- `Text.Lower`: lower-cases ASCII letters only, not the full Unicode mapping of `toLowerCase`.
- A `summary` (or `difficulty` or `questionType`) that is not a string is not modelled: the payload types allow strings only. For `difficulty` and `questionType`, such a value would make the render throw.
- Array elements that are not question records are not modelled. The payload carries questions only.
- How axios treats a malformed JSON body is not modelled. A primitive body behaves like an object with no such properties.
- `Display.OptionLetter`: returns the UTF-16 code unit, not the one-character string `fromCharCode` builds.
