/** Worked examples of the page's behaviour, stated on the model. */
module Scenarios {
  import opened StudyTypes
  import opened Text
  import opened Display
  import opened Dispatch
  import opened Normalizer
  import opened Dashboard

  /** Summarize answered with `{"summary": "X"}`: the summary panel opens on
      "X" and the questions stay as they were. */
  lemma SummaryReply(v: ViewState)
    ensures Settle(v, Replied(Obj(Some("X"), Absent, Absent)), Summarize.WantsQuestions()) ==
            Settlement(v.(summary := "X", showSummary := true), false)
  {
    ExtractionOrder(Obj(Some("X"), Absent, Absent));
  }

  /** Generate-questions answered with one easy multiple-choice record under
      `studyQuestions`: one question shown, the panel open, the green colour,
      the radio symbol and the caption "multiple choice". */
  lemma StudyQuestionsReply(v: ViewState)
    ensures
      var q := Question("Q1", Some(["A", "B"]), Some("A"), Some("easy"), Some("multiple_choice"));
      var w := Settle(v, Replied(Obj(None, Absent, Arr([q]))), GenerateQuestions.WantsQuestions()).view;
      w.questions == [q] && w.showQuestions &&
      DifficultyColor(w.questions[0].difficulty) == GreenText &&
      QuestionTypeIcon(w.questions[0].questionType) == RadioIcon &&
      TypeLabel(w.questions[0].questionType) == "multiple choice"
  {
    var q := Question("Q1", Some(["A", "B"]), Some("A"), Some("easy"), Some("multiple_choice"));
    ExtractionOrder(Obj(None, Absent, Arr([q])));
    EasyIsGreen();
    MultipleChoiceDisplay();
  }

  lemma EasyIsGreen()
    ensures DifficultyColor(Some("easy")) == GreenText
  {
    LowerOfLowercase("easy");
  }

  lemma MultipleChoiceDisplay()
    ensures QuestionTypeIcon(Some("multiple_choice")) == RadioIcon
    ensures TypeLabel(Some("multiple_choice")) == "multiple choice"
  {
    MultipleChoiceIcon();
    MultipleChoiceCaption();
  }

  lemma MultipleChoiceIcon()
    ensures QuestionTypeIcon(Some("multiple_choice")) == RadioIcon
  {
    LowerOfLowercase("multiple_choice");
  }

  lemma MultipleChoiceCaption()
    ensures TypeLabel(Some("multiple_choice")) == "multiple choice"
  {
    assert "multiple_choice" == "multiple choice"[8 := '_'];
    ReplaceFirstPreimage("multiple_choice", "multiple choice", 8, '_', ' ');
  }

  /** What a caller of the class can rely on: pick `notes.pdf`, ask for a
      summary, and the page shows it; a rejected request afterwards leaves it
      shown and the page idle. */
  method UploadAndSummarize(pdf: seq<bv8>, uid: string)
    requires uid != ""
  {
    var page := new DashboardHome();
    page.HandleFileUpload(Some([UploadedFile("notes.pdf", PdfType, pdf)]));
    assert page.uploadedFile == Some(UploadedFile("notes.pdf", PdfType, pdf));
    var sent, alerted := page.Press(Summarize, "", Some(uid), Replied(Obj(Some("X"), Absent, Absent)));
    assert sent.Some? && sent.value.url == "/api/study/summarize";
    SummaryReply(ViewState("", [], false, false));
    assert page.summary == "X" && page.showSummary && !alerted && !page.isProcessing;
    sent, alerted := page.Press(GenerateQuestions, "", Some(uid), Rejected("Network Error"));
    assert alerted && !page.isProcessing && page.summary == "X" && page.showSummary;
    page.HandleFileUpload(Some([UploadedFile("notes.txt", "text/plain", pdf)]));
    assert page.uploadedFile == Some(UploadedFile("notes.pdf", PdfType, pdf));
  }
}
