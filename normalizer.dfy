/** How a finished request changes what the page shows: the summary branch,
    the ordered question-shape match, the three question cases and the catch
    path, as a pure function of the prior view and the reply. */
module Normalizer {
  import opened StudyTypes

  /** The result part of the page state: the two pieces of content and the
      two reveal flags. */
  datatype ViewState = ViewState(summary: string, questions: seq<Question>,
                                 showSummary: bool, showQuestions: bool)

  /** The view after a request, and whether the page raised its error alert. */
  datatype Settlement = Settlement(view: ViewState, reportsError: bool)

  /** The one state the page keeps between reveals: an open panel always has
      something in it. */
  predicate ViewConsistent(v: ViewState) {
    (v.showSummary ==> v.summary != "") && (v.showQuestions ==> |v.questions| > 0)
  }

  /** `data.summary` when it is truthy. */
  function TruthySummary(p: Payload): (r: Option<string>)
    ensures r.Some? <==> p.Obj? && p.summary.Some? && p.summary.value != ""
    ensures r.Some? ==> r == p.summary && r.value != ""
  {
    if p.Obj? && p.summary.Some? && p.summary.value != "" then Some(p.summary.value) else None
  }

  /** The three places a question list may sit, in the order the page looks:
      the body itself, `data.questions`, `data.studyQuestions`. An array has
      neither property; an object is not itself an array. The `NullBody` row
      is never consulted by the page (reading `data.summary` has thrown
      before); it only makes the function total. */
  function Candidates(p: Payload): seq<Field> {
    match p
    case BareArray(xs) => [Arr(xs), Absent, Absent]
    case Obj(_, q, sq) => [NonArray, q, sq]
    case NullBody => [NonArray, Absent, Absent]
  }

  /** `i` is the first position holding an array. */
  ghost predicate IsFirstArray(fs: seq<Field>, i: int) {
    0 <= i < |fs| && fs[i].Arr? && forall j :: 0 <= j < i ==> !fs[j].Arr?
  }

  /** The items of the first array among `fs`, even an empty one; the empty
      list when there is no array at all. */
  function FirstArray(fs: seq<Field>): (r: seq<Question>)
    ensures forall i :: IsFirstArray(fs, i) ==> r == fs[i].items
    ensures (forall i :: 0 <= i < |fs| ==> !fs[i].Arr?) ==> r == []
  {
    if fs == [] then []
    else if fs[0].Arr? then fs[0].items
    else
      assert forall i :: IsFirstArray(fs, i) ==> IsFirstArray(fs[1..], i - 1);
      FirstArray(fs[1..])
  }

  /** The `questionsData` the page settles on. The page never reaches this
      step with a `null` body, which has already thrown at `data.summary`
      (`Settle` returns before calling it); the empty list given for
      `NullBody` only makes the function total. */
  function ExtractQuestions(p: Payload): (r: seq<Question>)
    ensures r == [] || (p.BareArray? && r == p.elements) ||
            (p.Obj? && (p.questions == Arr(r) || p.studyQuestions == Arr(r)))
    ensures p.NullBody? ==> r == []
  {
    var fs := Candidates(p);
    if p.BareArray? then
      assert IsFirstArray(fs, 0);
      FirstArray(fs)
    else if p.Obj? && p.questions.Arr? then
      assert IsFirstArray(fs, 1);
      FirstArray(fs)
    else if p.Obj? && p.studyQuestions.Arr? then
      assert IsFirstArray(fs, 2);
      FirstArray(fs)
    else
      FirstArray(fs)
  }

  /** The page's if/else chain over `Array.isArray` takes the same list as
      the ordered match. */
  lemma ExtractionOrder(p: Payload)
    ensures p.BareArray? ==> ExtractQuestions(p) == p.elements
    ensures p.Obj? && p.questions.Arr? ==> ExtractQuestions(p) == p.questions.items
    ensures p.Obj? && !p.questions.Arr? && p.studyQuestions.Arr? ==>
              ExtractQuestions(p) == p.studyQuestions.items
    ensures p.Obj? && !p.questions.Arr? && !p.studyQuestions.Arr? ==> ExtractQuestions(p) == []
    ensures p.NullBody? ==> ExtractQuestions(p) == []
  {
    var fs := Candidates(p);
    if p.Obj? && p.questions.Arr? {
      assert IsFirstArray(fs, 1);
    } else if p.Obj? && p.studyQuestions.Arr? {
      assert IsFirstArray(fs, 2);
    } else if p.BareArray? {
      assert IsFirstArray(fs, 0);
    }
  }

  /** The try/catch/finally of `handleRequest` after the guard, from the
      moment the POST settles. Reading `data.summary` of a `null` body throws,
      which lands in the same catch as a rejected POST. */
  function Settle(v: ViewState, reply: Reply, includeQuestions: bool): (r: Settlement)
    ensures r.reportsError <==> reply.Rejected? || reply.data.NullBody?
    ensures r.reportsError ==> r.view == v
    ensures r.view.summary == v.summary || (reply.Replied? && TruthySummary(reply.data) == Some(r.view.summary))
    ensures r.view.questions == v.questions || (reply.Replied? && r.view.questions == ExtractQuestions(reply.data))
    ensures r.view.showQuestions ==> v.showQuestions || |r.view.questions| > 0
  {
    match reply
    case Rejected(_) => Settlement(v, true)
    case Replied(p) =>
      if p.NullBody? then Settlement(v, true)
      else
        var s := TruthySummary(p);
        var afterSummary := if s.Some? then v.(summary := s.value, showSummary := true) else v;
        var qs := ExtractQuestions(p);
        var afterQuestions :=
          if |qs| > 0 then afterSummary.(questions := qs, showQuestions := true)
          else if includeQuestions then afterSummary.(questions := [], showQuestions := false)
          else afterSummary;
        Settlement(afterQuestions, false)
  }

  /** A failed request (rejected, or a body the page cannot read) reports
      an error and leaves all result state as it was. */
  lemma FailureKeepsView(v: ViewState, reply: Reply, includeQuestions: bool)
    requires reply.Rejected? || reply.data.NullBody?
    ensures Settle(v, reply, includeQuestions) == Settlement(v, true)
  {
  }

  /** A readable reply never reports an error. */
  lemma ReadableReplyIsQuiet(v: ViewState, p: Payload, includeQuestions: bool)
    requires !p.NullBody?
    ensures !Settle(v, Replied(p), includeQuestions).reportsError
  {
  }

  /** The summary branch: a truthy summary is stored and revealed; otherwise
      both summary fields keep their values. The questions have no say. */
  lemma SummaryBranch(v: ViewState, p: Payload, includeQuestions: bool)
    requires !p.NullBody?
    ensures var w := Settle(v, Replied(p), includeQuestions).view;
      if p.Obj? && p.summary.Some? && p.summary.value != ""
      then w.summary == p.summary.value && w.showSummary
      else w.summary == v.summary && w.showSummary == v.showSummary
  {
  }

  /** The question branch does not look at the summary: two object replies
      that differ only in `summary` leave the same question state. */
  lemma QuestionsIgnoreSummary(v: ViewState, s1: Option<string>, s2: Option<string>,
                               q: Field, sq: Field, includeQuestions: bool)
    ensures var w1 := Settle(v, Replied(Obj(s1, q, sq)), includeQuestions).view;
            var w2 := Settle(v, Replied(Obj(s2, q, sq)), includeQuestions).view;
            w1.questions == w2.questions && w1.showQuestions == w2.showQuestions
  {
  }

  /** The three question cases. A non-empty list replaces the old one whole
      and reveals it; an empty list on a question request clears and hides;
      an empty list otherwise changes nothing. */
  lemma QuestionCases(v: ViewState, p: Payload, includeQuestions: bool)
    requires !p.NullBody?
    ensures var w := Settle(v, Replied(p), includeQuestions).view;
            var qs := ExtractQuestions(p);
            (|qs| > 0 ==> w.questions == qs && w.showQuestions) &&
            (|qs| == 0 && includeQuestions ==> w.questions == [] && !w.showQuestions) &&
            (|qs| == 0 && !includeQuestions ==> w.questions == v.questions && w.showQuestions == v.showQuestions)
  {
  }

  /** The same list gives the same page whether the backend sends it bare,
      as `questions` or as `studyQuestions`. */
  lemma ShapeIndependence(v: ViewState, xs: seq<Question>, includeQuestions: bool)
    ensures Settle(v, Replied(BareArray(xs)), includeQuestions) ==
            Settle(v, Replied(Obj(None, Arr(xs), Absent)), includeQuestions)
    ensures Settle(v, Replied(BareArray(xs)), includeQuestions) ==
            Settle(v, Replied(Obj(None, Absent, Arr(xs))), includeQuestions)
  {
    ExtractionOrder(BareArray(xs));
    ExtractionOrder(Obj(None, Arr(xs), Absent));
    ExtractionOrder(Obj(None, Absent, Arr(xs)));
  }

  /** An empty `questions` array shadows `studyQuestions`: on a question
      request the list is cleared even when `studyQuestions` is non-empty. */
  lemma EmptyQuestionsShadowStudyQuestions(v: ViewState, s: Option<string>, xs: seq<Question>)
    ensures var w := Settle(v, Replied(Obj(s, Arr([]), Arr(xs))), true).view;
            w.questions == [] && !w.showQuestions
  {
    ExtractionOrder(Obj(s, Arr([]), Arr(xs)));
  }

  /** `{}` on a question request: the list is cleared and hidden, the summary
      untouched, and no alert. */
  lemma EmptyObjectOnQuestionRequest(v: ViewState)
    ensures Settle(v, Replied(Obj(None, Absent, Absent)), true) ==
            Settlement(v.(questions := [], showQuestions := false), false)
  {
    ExtractionOrder(Obj(None, Absent, Absent));
  }

  /** Revealing needs content: a panel that a request opens has something in
      it, so a consistent view stays consistent. */
  lemma SettleKeepsViewConsistent(v: ViewState, reply: Reply, includeQuestions: bool)
    requires ViewConsistent(v)
    ensures ViewConsistent(Settle(v, reply, includeQuestions).view)
  {
  }
}
