/** The `DashboardHome` component's state and its two handlers, with each
    `useState` slot as a field and each setter call as an assignment. */
module Dashboard {
  import opened StudyTypes
  import opened Dispatch
  import opened Normalizer

  class DashboardHome {
    var uploadedFile: Option<UploadedFile>
    var isProcessing: bool
    var summary: string
    var questions: seq<Question>
    var showSummary: bool
    var showQuestions: bool

    /** An open panel has content: the Collapsible for the summary exists only
        while `summary` is truthy, the one for questions only while the list
        is non-empty (the page's `summary && …` and `questions.length > 0 && …`). */
    ghost predicate Valid()
      reads this
    {
      ViewConsistent(View())
    }

    function View(): ViewState
      reads this
    {
      ViewState(summary, questions, showSummary, showQuestions)
    }

    constructor ()
      ensures Valid()
      ensures uploadedFile == None && !isProcessing
      ensures View() == ViewState("", [], false, false)
    {
      uploadedFile := None;
      isProcessing := false;
      summary := "";
      questions := [];
      showSummary := false;
      showQuestions := false;
    }

    /** `handleFileUpload`: keep the first picked file if it is a PDF;
        otherwise keep what was held. Nothing else changes. */
    method HandleFileUpload(files: Option<seq<UploadedFile>>)
      modifies this`uploadedFile
      ensures uploadedFile == if SelectedPdf(files).Some? then SelectedPdf(files) else old(uploadedFile)
    {
      if files.Some? && |files.value| > 0 {
        var file := files.value[0];
        if file.mimeType == PdfType {
          uploadedFile := Some(file);
        }
      }
    }

    /** `handleRequest` up to the `await`: the guard, raising the busy
        flag, and the form built entry by entry. `sent` is the POST the page
        now has in flight, if any. */
    method BeginRequest(baseUrl: string, endpoint: string, includeQuestions: bool,
                        userId: Option<string>) returns (sent: Option<Request>)
      modifies this`isProcessing
      ensures sent == BuildRequest(uploadedFile, userId, baseUrl, endpoint, includeQuestions)
      ensures sent.Some? ==> isProcessing
      ensures sent.None? ==> isProcessing == old(isProcessing)
    {
      if uploadedFile.None? || !HasUserId(userId) {
        return None;
      }
      isProcessing := true;
      var form: seq<FormEntry> := [];
      form := form + [FormEntry("file", FileValue(uploadedFile.value))];
      form := form + [FormEntry("userId", TextValue(userId.value))];
      if includeQuestions {
        form := form + [FormEntry("numberOfQuestions", TextValue(QuestionCount))];
      }
      assert form == [FormEntry("file", FileValue(uploadedFile.value)), FormEntry("userId", TextValue(userId.value))]
                     + (if includeQuestions then [FormEntry("numberOfQuestions", TextValue(QuestionCount))] else []);
      sent := Some(Request(baseUrl + ApiPath + endpoint, form));
    }

    /** `handleRequest` from the `await` on: the summary branch, the
        `questionsData` chain, the question cases, the catch (which reports
        the error) and the `finally` that lowers the busy flag. */
    method FinishRequest(reply: Reply, includeQuestions: bool) returns (reportsError: bool)
      requires Valid()
      modifies this`isProcessing, this`summary, this`questions, this`showSummary, this`showQuestions
      ensures Valid()
      ensures !isProcessing
      ensures Settlement(View(), reportsError) == Settle(old(View()), reply, includeQuestions)
    {
      reportsError := false;
      match reply {
        case Rejected(_) =>
          reportsError := true;
        case Replied(data) =>
          if data.NullBody? {
            reportsError := true;
          } else {
            if data.Obj? && data.summary.Some? && data.summary.value != "" {
              summary := data.summary.value;
              showSummary := true;
            }
            var questionsData: seq<Question> := [];
            if data.BareArray? {
              questionsData := data.elements;
            } else if data.questions.Arr? {
              questionsData := data.questions.items;
            } else if data.studyQuestions.Arr? {
              questionsData := data.studyQuestions.items;
            }
            ExtractionOrder(data);
            if |questionsData| > 0 {
              questions := questionsData;
              showQuestions := true;
            } else if includeQuestions {
              questions := [];
              showQuestions := false;
            }
          }
      }
      SettleKeepsViewConsistent(old(View()), reply, includeQuestions);
      isProcessing := false;
    }

    /** `handleRequest` as a whole. `reply` is how the backend would answer;
        it is consulted only when the request is sent. The guard looks at the
        file and the user id only: a call while `isProcessing` is already
        raised is sent like any other. */
    method HandleRequest(baseUrl: string, endpoint: string, includeQuestions: bool,
                         userId: Option<string>, reply: Reply)
      returns (sent: Option<Request>, reportsError: bool)
      requires Valid()
      modifies this`isProcessing, this`summary, this`questions, this`showSummary, this`showQuestions
      ensures Valid()
      ensures uploadedFile == old(uploadedFile)
      ensures sent == BuildRequest(uploadedFile, userId, baseUrl, endpoint, includeQuestions)
      ensures sent.None? ==> !reportsError && isProcessing == old(isProcessing) && View() == old(View())
      ensures sent.Some? ==> !isProcessing &&
                             Settlement(View(), reportsError) == Settle(old(View()), reply, includeQuestions)
    {
      sent := BeginRequest(baseUrl, endpoint, includeQuestions, userId);
      reportsError := false;
      if sent.Some? {
        reportsError := FinishRequest(reply, includeQuestions);
      }
    }

    /** A click on one of the three buttons. */
    method Press(op: Operation, baseUrl: string, userId: Option<string>, reply: Reply)
      returns (sent: Option<Request>, reportsError: bool)
      requires Valid()
      modifies this`isProcessing, this`summary, this`questions, this`showSummary, this`showQuestions
      ensures Valid()
      ensures uploadedFile == old(uploadedFile)
      ensures sent == BuildRequest(uploadedFile, userId, baseUrl, op.Endpoint(), op.WantsQuestions())
      ensures sent.None? ==> !reportsError && isProcessing == old(isProcessing) && View() == old(View())
      ensures sent.Some? ==> !isProcessing &&
                             Settlement(View(), reportsError) == Settle(old(View()), reply, op.WantsQuestions())
    {
      sent, reportsError := HandleRequest(baseUrl, op.Endpoint(), op.WantsQuestions(), userId, reply);
    }

    /** The summary Collapsible's `onOpenChange`; it exists only while the
        summary panel is rendered. Visibility changes, content does not. */
    method SetShowSummary(open: bool)
      requires Valid() && summary != ""
      modifies this`showSummary
      ensures Valid() && showSummary == open
    {
      showSummary := open;
    }

    /** The questions Collapsible's `onOpenChange`; it exists only while the
        question list is non-empty. */
    method SetShowQuestions(open: bool)
      requires Valid() && |questions| > 0
      modifies this`showQuestions
      ensures Valid() && showQuestions == open
    {
      showQuestions := open;
    }
  }
}
