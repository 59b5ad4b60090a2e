/** The values the dashboard page handles: the file a user picks, the question
    records the study backend produces, the parsed reply and the multipart
    request the page posts. */
module StudyTypes {

  datatype Option<+T> = None | Some(value: T)

  /** A file handed over by the browser's file picker: its name, the MIME type
      the browser declares for it, and its bytes. */
  datatype UploadedFile = UploadedFile(name: string, mimeType: string, content: seq<bv8>)

  /** One question record. The page reads `options`, `answer`, `difficulty`
      and `questionType` through `?.` or a truthiness test, so each may be
      missing from the backend's JSON. */
  datatype Question = Question(
    question: string,
    options: Option<seq<string>>,
    answer: Option<string>,
    difficulty: Option<string>,
    questionType: Option<string>)

  /** A property of the reply object, as far as `Array.isArray` sees it:
      missing, an array of question records, or some other value. */
  datatype Field = Absent | Arr(items: seq<Question>) | NonArray

  /** The parsed body of a successful reply: a bare array, an object (a
      primitive body such as a string behaves as an object with no such
      properties), or JSON `null`. */
  datatype Payload =
    | BareArray(elements: seq<Question>)
    | Obj(summary: Option<string>, questions: Field, studyQuestions: Field)
    | NullBody

  /** How the POST ended: with a parsed body, or rejected (network failure or
      a non-success status) with the error's text. */
  datatype Reply = Replied(data: Payload) | Rejected(detail: string)

  /** One entry of the multipart form. */
  datatype FormValue = FileValue(file: UploadedFile) | TextValue(text: string)
  datatype FormEntry = FormEntry(name: string, value: FormValue)

  /** The POST the page issues: target URL and form entries in append order. */
  datatype Request = Request(url: string, form: seq<FormEntry>)
}
