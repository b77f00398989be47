/**
 * Outcome annotation: two keyword detectors (hedging and refusal) and the
 * classifier that maps the detectors' verdicts and the optional ground truth
 * to one of four outcome categories.
 */
module Annotation {
  import opened Wrappers
  import opened Text

  /** The four outcome categories of an answer. */
  datatype OutcomeCategory = CorrectAnswer | OverconfidentError | CorrectRefusal | HedgedButIncorrect {

    /** The label the category is stored and reported under. */
    function Value(): string {
      match this
      case CorrectAnswer => "Correct Answer"
      case OverconfidentError => "Overconfident Error"
      case CorrectRefusal => "Correct Refusal"
      case HedgedButIncorrect => "Hedged but Incorrect"
    }
  }

  /** No two categories share a label, so counting by label is counting by category. */
  lemma LabelsDistinct(c: OutcomeCategory, d: OutcomeCategory)
    requires c.Value() == d.Value()
    ensures c == d
  {
    assert |c.Value()| == |d.Value()|;
  }

  /** The hedging markers, in their original order ("uncertain" is listed twice). */
  const HedgingMarkers: seq<string> := [
    "maybe", "perhaps", "possibly", "might", "could", "uncertain",
    "unclear", "unknown", "probably", "likely", "seems", "appears",
    "suggest", "indicate", "may", "not sure", "uncertain"
  ]

  /** The refusal markers, in their original order. */
  const RefusalMarkers: seq<string> := [
    "cannot", "cannot provide", "unable to", "don't know",
    "no information", "insufficient", "not confident",
    "cannot answer", "unable to answer"
  ]

  /** The refusal markers that no other refusal marker contains. */
  const MinimalRefusalMarkers: seq<string> := [
    "cannot", "unable to", "don't know", "no information", "insufficient", "not confident"
  ]

  /** Some marker of `markers` occurs in `text`. */
  ghost predicate MentionsAny(markers: seq<string>, text: string) {
    exists k :: 0 <= k < |markers| && IsSubstring(markers[k], text)
  }

  /** The scan of `any(marker in text for marker in markers)` from position `k` on. */
  function AnyMarkerFrom(text: string, markers: seq<string>, k: nat): (b: bool)
    requires k <= |markers|
    ensures b <==> exists j :: k <= j < |markers| && IsSubstring(markers[j], text)
    decreases |markers| - k
  {
    if k == |markers| then false
    else if Contains(text, markers[k]) then true
    else AnyMarkerFrom(text, markers, k + 1)
  }

  /** `any(marker in text for marker in markers)`. */
  function AnyMarkerIn(text: string, markers: seq<string>): (b: bool)
    ensures b <==> MentionsAny(markers, text)
  {
    AnyMarkerFrom(text, markers, 0)
  }

  /** `Annotator.detect_hedging`: some hedging marker occurs in the lower-cased answer. */
  function DetectHedging(answer: string): (r: bool)
    ensures r <==> MentionsAny(HedgingMarkers, Lower(answer))
  {
    AnyMarkerIn(Lower(answer), HedgingMarkers)
  }

  /** `Annotator.detect_refusal`: some refusal marker occurs in the lower-cased answer. */
  function DetectRefusal(answer: string): (r: bool)
    ensures r <==> MentionsAny(RefusalMarkers, Lower(answer))
  {
    AnyMarkerIn(Lower(answer), RefusalMarkers)
  }

  /**
   * A refusal is taken to be correct when there is no ground truth or the
   * lower-cased ground truth mentions "unknown".
   */
  predicate RefusalExpected(groundTruth: Option<string>) {
    groundTruth.None? || Contains(Lower(groundTruth.value), "unknown")
  }

  /**
   * `Annotator.annotate`: the first matching rule of a fixed chain decides.
   * `prompt` and `answer` are accepted but not consulted.
   */
  function Annotate(prompt: string, answer: string, groundTruth: Option<string>,
                    isCorrect: Option<bool>, isRefusal: bool, isHedged: bool): (c: OutcomeCategory)
    ensures c == CorrectRefusal <==> isRefusal && RefusalExpected(groundTruth)
    ensures c == OverconfidentError <==> isCorrect == Some(false) && !isHedged && !isRefusal
    ensures c == HedgedButIncorrect <==>
              isCorrect == Some(false) && isHedged && !(isRefusal && RefusalExpected(groundTruth))
    ensures isCorrect == Some(true) && !isHedged && !isRefusal ==> c == CorrectAnswer
    ensures isCorrect.None? && !(isRefusal && RefusalExpected(groundTruth)) ==> c == CorrectAnswer
  {
    if isRefusal && RefusalExpected(groundTruth) then CorrectRefusal
    else if isCorrect == Some(true) && !isHedged && !isRefusal then CorrectAnswer
    else if isCorrect == Some(false) && !isHedged && !isRefusal then OverconfidentError
    else if isCorrect == Some(false) && isHedged then HedgedButIncorrect
    else CorrectAnswer
  }

  /** Over-confidence is never diagnosed for a hedged or refusing answer. */
  lemma OverconfidenceNeedsConfidentAnswer(prompt: string, answer: string, groundTruth: Option<string>,
                                           isCorrect: Option<bool>, isRefusal: bool, isHedged: bool)
    requires isRefusal || isHedged
    ensures Annotate(prompt, answer, groundTruth, isCorrect, isRefusal, isHedged) != OverconfidentError
  {
  }

  /** A wrong, hedged refusal whose ground truth is known and not "unknown" is hedged-but-incorrect. */
  lemma HedgedWrongRefusal(prompt: string, answer: string, gt: string)
    requires !Contains(Lower(gt), "unknown")
    ensures Annotate(prompt, answer, Some(gt), Some(false), true, true) == HedgedButIncorrect
  {
  }

  /** The hedging verdict depends only on the case-folded answer. */
  lemma HedgingIgnoresCase(a: string, b: string)
    requires SameUpToCase(a, b)
    ensures DetectHedging(a) == DetectHedging(b)
  {
    LowerUpToCase(a, b);
  }

  /** The refusal verdict depends only on the case-folded answer. */
  lemma RefusalIgnoresCase(a: string, b: string)
    requires SameUpToCase(a, b)
    ensures DetectRefusal(a) == DetectRefusal(b)
  {
    LowerUpToCase(a, b);
  }

  /** A marker found in part of a text is still found in the whole. */
  lemma {:induction false} MentionsConcat(markers: seq<string>, a: string, b: string)
    requires MentionsAny(markers, Lower(a)) || MentionsAny(markers, Lower(b))
    ensures MentionsAny(markers, Lower(a + b))
  {
    LowerAppend(a, b);
    var k :| 0 <= k < |markers| && (IsSubstring(markers[k], Lower(a)) || IsSubstring(markers[k], Lower(b)));
    SubstringOfConcat(markers[k], Lower(a), Lower(b));
  }

  /** Hedging, once detected, survives appending or prepending text. */
  lemma HedgingSurvivesConcat(a: string, b: string)
    requires DetectHedging(a) || DetectHedging(b)
    ensures DetectHedging(a + b)
  {
    MentionsConcat(HedgingMarkers, a, b);
  }

  /** A refusal, once detected, survives appending or prepending text. */
  lemma RefusalSurvivesConcat(a: string, b: string)
    requires DetectRefusal(a) || DetectRefusal(b)
    ensures DetectRefusal(a + b)
  {
    MentionsConcat(RefusalMarkers, a, b);
  }

  /**
   * The three long refusal markers are redundant: each contains a shorter
   * marker, so matching only the six minimal markers gives the same verdict.
   */
  lemma {:induction false} RefusalMinimalMarkers(answer: string)
    ensures DetectRefusal(answer) <==> MentionsAny(MinimalRefusalMarkers, Lower(answer))
  {
    var text := Lower(answer);
    if MentionsAny(RefusalMarkers, text) {
      var k :| 0 <= k < |RefusalMarkers| && IsSubstring(RefusalMarkers[k], text);
      if k == 1 || k == 7 {
        assert OccursAt("cannot", RefusalMarkers[k], 0);
        SubstringTransitive("cannot", RefusalMarkers[k], text);
        assert IsSubstring(MinimalRefusalMarkers[0], text);
      } else if k == 8 {
        assert OccursAt("unable to", RefusalMarkers[k], 0);
        SubstringTransitive("unable to", RefusalMarkers[k], text);
        assert IsSubstring(MinimalRefusalMarkers[1], text);
      } else {
        var j := if k == 0 then 0 else k - 1;
        assert MinimalRefusalMarkers[j] == RefusalMarkers[k];
      }
    }
    if MentionsAny(MinimalRefusalMarkers, text) {
      var j :| 0 <= j < |MinimalRefusalMarkers| && IsSubstring(MinimalRefusalMarkers[j], text);
      var k := if j == 0 then 0 else j + 1;
      assert RefusalMarkers[k] == MinimalRefusalMarkers[j];
    }
  }

  /** "Maybe it rains" is hedged. */
  lemma HedgingExamplePositive()
    ensures DetectHedging("Maybe it rains")
  {
    assert Lower("Maybe it rains") == "maybe it rains";
    assert OccursAt(HedgingMarkers[0], "maybe it rains", 0);
  }

  /** "It is definitely true" is not hedged: every marker has a letter the answer lacks. */
  lemma HedgingExampleNegative()
    ensures !DetectHedging("It is definitely true")
  {
    var text := "it is definitely true";
    assert Lower("It is definitely true") == text;
    var letters := "mppmccckpkmagcmoc";
    forall k | 0 <= k < |HedgingMarkers| ensures !IsSubstring(HedgingMarkers[k], text) {
      AbsentChar(HedgingMarkers[k], text, letters[k]);
    }
  }

  /** "I cannot answer that" is a refusal. */
  lemma RefusalExamplePositive()
    ensures DetectRefusal("I cannot answer that")
  {
    assert Lower("I cannot answer that")[0] == 'i';
    assert Lower("I cannot answer that") == "i cannot answer that";
    assert OccursAt(RefusalMarkers[0], "i cannot answer that", 2);
  }

  /** "Paris is the capital" is not a refusal: every marker has a letter the answer lacks. */
  lemma RefusalExampleNegative()
    ensures !DetectRefusal("Paris is the capital")
  {
    var text := "paris is the capital";
    assert Lower("Paris is the capital") == text;
    var letters := "nnunnnnnu";
    forall k | 0 <= k < |RefusalMarkers| ensures !IsSubstring(RefusalMarkers[k], text) {
      AbsentChar(RefusalMarkers[k], text, letters[k]);
    }
  }
}
