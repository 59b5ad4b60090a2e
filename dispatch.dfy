/** What the page sends: which selection it keeps as the uploaded file, and
    the multipart request `handleRequest` builds once its guard passes. */
module Dispatch {
  import opened StudyTypes

  const PdfType := "application/pdf"
  const ApiPath := "/api/study/"
  const QuestionCount := "5"

  /** `userId` is truthy: stored, and not the empty string. */
  predicate HasUserId(userId: Option<string>): (b: bool)
    ensures !b <==> userId == None || userId == Some("")
  {
    userId.Some? && userId.value != ""
  }

  /** The file `handleFileUpload` takes from a picker selection (`files` is
      `None` when the input reports no file list): the first file, and only
      when its declared type is exactly the PDF type. */
  function SelectedPdf(files: Option<seq<UploadedFile>>): (r: Option<UploadedFile>)
    ensures r.Some? <==> files.Some? && |files.value| > 0 && files.value[0].mimeType == PdfType
    ensures r.Some? ==> r.value == files.value[0]
  {
    if files.Some? && |files.value| > 0 && files.value[0].mimeType == PdfType
    then Some(files.value[0])
    else None
  }

  /** What a multipart reader sees under `name`: the first entry so named. */
  function FormGet(form: seq<FormEntry>, name: string): (r: Option<FormValue>)
    ensures r.None? <==> forall i :: 0 <= i < |form| ==> form[i].name != name
    ensures r.Some? ==> exists i :: 0 <= i < |form| && form[i] == FormEntry(name, r.value) &&
                                    forall j :: 0 <= j < i ==> form[j].name != name
  {
    if form == [] then None
    else if form[0].name == name then Some(form[0].value)
    else
      var rest := FormGet(form[1..], name);
      assert rest.Some? ==> exists i :: 0 <= i < |form[1..]| && form[1..][i] == FormEntry(name, rest.value) &&
                                        forall j :: 0 <= j < i ==> form[1..][j].name != name;
      if rest.Some? then
        var i :| 0 <= i < |form[1..]| && form[1..][i] == FormEntry(name, rest.value) &&
                 forall j :: 0 <= j < i ==> form[1..][j].name != name;
        assert form[i + 1] == FormEntry(name, rest.value);
        assert forall j :: 0 <= j < i + 1 ==> form[j].name != name by {
          forall j | 0 <= j < i + 1 ensures form[j].name != name {
            if j > 0 { assert form[j] == form[1..][j - 1]; }
          }
        }
        rest
      else
        assert forall i :: 0 <= i < |form| ==> form[i].name != name by {
          forall i | 0 <= i < |form| ensures form[i].name != name {
            if i > 0 { assert form[i] == form[1..][i - 1]; }
          }
        }
        rest
  }

  /** The request `handleRequest` posts, or `None` when its guard stops it:
      the file first, the user id second, and the question count only when
      questions are wanted. `baseUrl` stands for the configured backend base. */
  function BuildRequest(file: Option<UploadedFile>, userId: Option<string>, baseUrl: string,
                        endpoint: string, includeQuestions: bool): (r: Option<Request>)
    ensures r.Some? <==> file.Some? && HasUserId(userId)
    ensures r.Some? ==> r.value.url == baseUrl + ApiPath + endpoint
    ensures r.Some? ==> |r.value.form| == (if includeQuestions then 3 else 2)
    ensures r.Some? ==> r.value.form[0] == FormEntry("file", FileValue(file.value))
    ensures r.Some? ==> r.value.form[1] == FormEntry("userId", TextValue(userId.value))
    ensures r.Some? ==> FormGet(r.value.form, "numberOfQuestions") ==
                        if includeQuestions then Some(TextValue(QuestionCount)) else None
  {
    if file.None? || !HasUserId(userId) then None
    else
      var form := [FormEntry("file", FileValue(file.value)), FormEntry("userId", TextValue(userId.value))]
                  + (if includeQuestions then [FormEntry("numberOfQuestions", TextValue(QuestionCount))] else []);
      if includeQuestions then
        FirstNamed(form, "numberOfQuestions", 2);
        Some(Request(baseUrl + ApiPath + endpoint, form))
      else
        assert forall i :: 0 <= i < |form| ==> form[i].name != "numberOfQuestions";
        Some(Request(baseUrl + ApiPath + endpoint, form))
  }

  /** The entry a lookup finds is the first one with that name. */
  lemma FirstNamed(form: seq<FormEntry>, name: string, i: nat)
    requires i < |form| && form[i].name == name
    requires forall j :: 0 <= j < i ==> form[j].name != name
    ensures FormGet(form, name) == Some(form[i].value)
  {
  }

  /** The three buttons of the page and the arguments they pass. */
  datatype Operation = Summarize | GenerateQuestions | GenerateStudyMaterial {
    /** The endpoint name the button passes to `handleRequest`. */
    function Endpoint(): (e: string)
      ensures e in {"summarize", "generate-questions", "generate-study-material"}
    {
      match this
      case Summarize => "summarize"
      case GenerateQuestions => "generate-questions"
      case GenerateStudyMaterial => "generate-study-material"
    }

    /** The `includeQuestions` argument the button passes. */
    predicate WantsQuestions(): (b: bool)
      ensures b <==> Endpoint() != "summarize"
    {
      !Summarize?
    }
  }

  /** Each button reaches its own endpoint. */
  lemma OperationsDistinct(a: Operation, b: Operation)
    ensures a.Endpoint() == b.Endpoint() <==> a == b
  {
  }
}
