/** The pure lookups the question list uses when it renders a record: the
    difficulty colour, the question-type symbol, the type caption and the
    letter in front of each option. */
module Display {
  import opened StudyTypes
  import opened Text

  const GreenText := "text-green-600"
  const YellowText := "text-yellow-600"
  const RedText := "text-red-600"
  const MutedText := "text-muted-foreground"

  const RadioIcon := "\U{1F518}"
  const TickCrossIcon := "\U{2713}/\U{2717}"
  const WritingIcon := "\U{270D}\U{FE0F}"
  const UnknownIcon := "\U{2753}"

  /** `getDifficultyColor`: a missing difficulty, or one that is none of
      easy, medium and hard in any letter case, gets the muted colour. */
  function DifficultyColor(difficulty: Option<string>): (r: string)
    ensures r == GreenText <==> difficulty.Some? && Lower(difficulty.value) == "easy"
    ensures r == YellowText <==> difficulty.Some? && Lower(difficulty.value) == "medium"
    ensures r == RedText <==> difficulty.Some? && Lower(difficulty.value) == "hard"
    ensures r == MutedText <==> !(difficulty.Some? && Lower(difficulty.value) in {"easy", "medium", "hard"})
  {
    match difficulty
    case None => MutedText
    case Some(d) =>
      var key := Lower(d);
      if key == "easy" then GreenText
      else if key == "medium" then YellowText
      else if key == "hard" then RedText
      else MutedText
  }

  /** `getQuestionTypeIcon`: both the `_` and the space spelling of each of
      the three known types, in any letter case, get that type's symbol. */
  function QuestionTypeIcon(questionType: Option<string>): (r: string)
    ensures r == RadioIcon <==>
      questionType.Some? && Lower(questionType.value) in {"multiple_choice", "multiple choice"}
    ensures r == TickCrossIcon <==>
      questionType.Some? && Lower(questionType.value) in {"true_false", "true false"}
    ensures r == WritingIcon <==>
      questionType.Some? && Lower(questionType.value) in {"short_answer", "short answer"}
    ensures r == UnknownIcon <==>
      !(questionType.Some? && Lower(questionType.value) in
        {"multiple_choice", "multiple choice", "true_false", "true false", "short_answer", "short answer"})
  {
    match questionType
    case None => UnknownIcon
    case Some(t) =>
      var key := Lower(t);
      if key == "multiple_choice" || key == "multiple choice" then RadioIcon
      else if key == "true_false" || key == "true false" then TickCrossIcon
      else if key == "short_answer" || key == "short answer" then WritingIcon
      else UnknownIcon
  }

  lemma DifficultyColorIgnoresCase(a: string, b: string)
    requires SameUpToCase(a, b)
    ensures DifficultyColor(Some(a)) == DifficultyColor(Some(b))
  {
    LowerIsCaseFolding(a, b);
  }

  lemma QuestionTypeIconIgnoresCase(a: string, b: string)
    requires SameUpToCase(a, b)
    ensures QuestionTypeIcon(Some(a)) == QuestionTypeIcon(Some(b))
  {
    LowerIsCaseFolding(a, b);
  }

  /** The caption `Type: …`: `questionType?.replace('_', ' ') || 'Unknown'`. */
  function TypeLabel(questionType: Option<string>): (r: string)
    ensures r != ""
    ensures questionType.None? || questionType.value == "" ==> r == "Unknown"
    ensures questionType.Some? && questionType.value != "" ==>
      var s := questionType.value;
      |r| == |s| &&
      (forall i :: 0 <= i < |s| ==> (r[i] != s[i] <==> s[i] == '_' && '_' !in s[..i])) &&
      (forall i :: 0 <= i < |s| && r[i] != s[i] ==> r[i] == ' ')
  {
    match questionType
    case None => "Unknown"
    case Some(t) =>
      var replaced := ReplaceFirst(t, '_', ' ');
      assert forall i :: 0 <= i < |t| && i == FirstIndex(t, '_') ==> '_' !in t[..i];
      if replaced == "" then "Unknown" else replaced
  }

  /** Helper for the label lemma: which spellings of one known type survive
      the caption's replacement. */
  lemma SpellingPair(x: string, underscored: string, spaced: string, p: nat)
    requires p < |spaced| && spaced[p] == ' ' && '_' !in spaced
    requires forall i :: 0 <= i < |spaced| && i != p ==> spaced[i] != ' '
    requires underscored == spaced[p := '_']
    ensures ReplaceFirst(x, '_', ' ') in {underscored, spaced} <==> x in {underscored, spaced}
  {
    assert '_' in underscored && ' ' !in underscored by {
      assert underscored[p] == '_';
      assert forall i :: 0 <= i < |underscored| ==> underscored[i] != ' ';
    }
    ReplaceFirstNeverYields(x, underscored, '_', ' ');
    ReplaceFirstPreimage(x, spaced, p, '_', ' ');
  }

  lemma MultipleChoiceSpellings(x: string)
    ensures ReplaceFirst(x, '_', ' ') in {"multiple_choice", "multiple choice"} <==> x in {"multiple_choice", "multiple choice"}
  {
    SpellingPair(x, "multiple_choice", "multiple choice", 8);
  }

  lemma TrueFalseSpellings(x: string)
    ensures ReplaceFirst(x, '_', ' ') in {"true_false", "true false"} <==> x in {"true_false", "true false"}
  {
    SpellingPair(x, "true_false", "true false", 4);
  }

  lemma ShortAnswerSpellings(x: string)
    ensures ReplaceFirst(x, '_', ' ') in {"short_answer", "short answer"} <==> x in {"short_answer", "short answer"}
  {
    SpellingPair(x, "short_answer", "short answer", 5);
  }

  /** The caption and the symbol agree: the symbol of the caption text is the
      symbol of the record's own type. */
  lemma TypeLabelKeepsIcon(questionType: Option<string>)
    ensures QuestionTypeIcon(Some(TypeLabel(questionType))) == QuestionTypeIcon(questionType)
  {
    match questionType
    case None =>
      assert Lower("Unknown") == "unknown";
    case Some(t) =>
      if t == "" {
        assert Lower("Unknown") == "unknown";
      } else {
        var l := Lower(t);
        var m := Lower(TypeLabel(questionType));
        LowerReplaceFirst(t, '_', ' ');
        assert m == ReplaceFirst(l, '_', ' ');
        MultipleChoiceSpellings(l);
        TrueFalseSpellings(l);
        ShortAnswerSpellings(l);
        IconFollowsKey(TypeLabel(questionType), t);
      }
  }

  lemma IconFollowsKey(a: string, b: string)
    requires Lower(a) in {"multiple_choice", "multiple choice"} <==> Lower(b) in {"multiple_choice", "multiple choice"}
    requires Lower(a) in {"true_false", "true false"} <==> Lower(b) in {"true_false", "true false"}
    requires Lower(a) in {"short_answer", "short answer"} <==> Lower(b) in {"short_answer", "short answer"}
    ensures QuestionTypeIcon(Some(a)) == QuestionTypeIcon(Some(b))
  {
  }

  /** `String.fromCharCode(65 + idx)`: the UTF-16 code unit shown before the
      option at index `idx` (ToUint16 wraps the argument). */
  function OptionLetter(idx: nat): (code: nat)
    ensures code < 0x1_0000
    ensures idx < 26 ==> code == "ABCDEFGHIJKLMNOPQRSTUVWXYZ"[idx] as int
  {
    ('A' as int + idx) % 0x1_0000
  }

  lemma OptionLettersDistinct(i: nat, j: nat)
    requires i < 26 && j < 26 && i != j
    ensures OptionLetter(i) != OptionLetter(j)
  {
  }
}
