/**
 * What the two experiment runners share: the four method names, the
 * per-answer annotation record, the ground-truth lookup, and the counting
 * specification of the method-by-category summary.
 */
module Reporting {
  import opened Wrappers
  import opened Text
  import opened Annotation

  /** The four inference configurations, under the keys results are stored by. */
  datatype Method = Vanilla | Rag | SelfConsistency | TruthScore {
    function Name(): string {
      match this
      case Vanilla => "vanilla"
      case Rag => "rag"
      case SelfConsistency => "self_consistency"
      case TruthScore => "truthscore"
    }
  }

  /** The order in which methods are annotated and summarised. */
  const Methods: seq<Method> := [Vanilla, Rag, SelfConsistency, TruthScore]

  /** The categories in their declaration order. */
  const Categories: seq<OutcomeCategory> :=
    [CorrectAnswer, OverconfidentError, CorrectRefusal, HedgedButIncorrect]

  /** The position of `m` in `Methods`. */
  function MethodIndex(m: Method): (k: nat)
    ensures k < |Methods| && Methods[k] == m
  {
    match m
    case Vanilla => 0
    case Rag => 1
    case SelfConsistency => 2
    case TruthScore => 3
  }

  /** The position of `c` in `Categories`. */
  function CategoryIndex(c: OutcomeCategory): (k: nat)
    ensures k < |Categories| && Categories[k] == c
  {
    match c
    case CorrectAnswer => 0
    case OverconfidentError => 1
    case CorrectRefusal => 2
    case HedgedButIncorrect => 3
  }

  lemma AllListed()
    ensures forall m :: m in Methods
    ensures forall c :: c in Categories
  {
    forall m ensures m in Methods { var k := MethodIndex(m); }
    forall c ensures c in Categories { var k := CategoryIndex(c); }
  }

  /** `{"category": ..., "is_refusal": ..., "is_hedged": ...}` for one answer. */
  datatype AnnotationRecord = AnnotationRecord(category: OutcomeCategory, isRefusal: bool, isHedged: bool)

  /** The annotations of one result, keyed by method. */
  type Annotations = map<Method, AnnotationRecord>

  /** A prompt's ground-truth entry: its optional `"answer"` and `"is_correct"` keys. */
  datatype GroundTruthInfo = GroundTruthInfo(answer: Option<string>, isCorrect: Option<bool>)

  /** `ground_truth.get(prompt, {})`, with a missing table read as `{}`. */
  function GroundTruthFor(groundTruth: Option<map<string, GroundTruthInfo>>, prompt: string): (info: GroundTruthInfo)
    ensures groundTruth.None? ==> info == GroundTruthInfo(None, None)
    ensures groundTruth.Some? && prompt in groundTruth.value ==> info == groundTruth.value[prompt]
    ensures groundTruth.Some? && prompt !in groundTruth.value ==> info == GroundTruthInfo(None, None)
  {
    if groundTruth.Some? && prompt in groundTruth.value then groundTruth.value[prompt]
    else GroundTruthInfo(None, None)
  }

  /** The annotation of one answer: both detectors, then the classifier. */
  function AnnotateAnswer(prompt: string, answer: string, info: GroundTruthInfo): (a: AnnotationRecord)
    ensures a.isRefusal == DetectRefusal(answer) && a.isHedged == DetectHedging(answer)
    ensures a.category == Annotate(prompt, answer, info.answer, info.isCorrect, a.isRefusal, a.isHedged)
  {
    var isRefusal := DetectRefusal(answer);
    var isHedged := DetectHedging(answer);
    AnnotationRecord(Annotate(prompt, answer, info.answer, info.isCorrect, isRefusal, isHedged),
                     isRefusal, isHedged)
  }

  /** Without ground truth an answer is a correct refusal if it refuses and a correct answer otherwise. */
  lemma NoGroundTruthCategory(prompt: string, answer: string)
    ensures AnnotateAnswer(prompt, answer, GroundTruthInfo(None, None)).category ==
              if DetectRefusal(answer) then CorrectRefusal else CorrectAnswer
  {
  }

  /** How many results carry an annotation for `m` with category `c`. */
  function Tally(anns: seq<Annotations>, m: Method, c: OutcomeCategory): nat
    decreases |anns|
  {
    if |anns| == 0 then 0
    else
      var last := anns[|anns| - 1];
      Tally(anns[..|anns| - 1], m, c) + (if m in last && last[m].category == c then 1 else 0)
  }

  /** How many results carry an annotation for `m`. */
  function AnnotatedCount(anns: seq<Annotations>, m: Method): (n: nat)
    ensures n <= |anns|
    decreases |anns|
  {
    if |anns| == 0 then 0
    else AnnotatedCount(anns[..|anns| - 1], m) + (if m in anns[|anns| - 1] then 1 else 0)
  }

  /** The sum of a row of the summary over all four categories. */
  function RowSum(row: map<OutcomeCategory, nat>): nat
    requires forall c :: c in row
  {
    row[CorrectAnswer] + row[OverconfidentError] + row[CorrectRefusal] + row[HedgedButIncorrect]
  }

  /** Every annotated result falls in exactly one category. */
  lemma {:induction false} TallyPartition(anns: seq<Annotations>, m: Method)
    ensures Tally(anns, m, CorrectAnswer) + Tally(anns, m, OverconfidentError) +
            Tally(anns, m, CorrectRefusal) + Tally(anns, m, HedgedButIncorrect) == AnnotatedCount(anns, m)
    decreases |anns|
  {
    if |anns| > 0 {
      TallyPartition(anns[..|anns| - 1], m);
    }
  }

  /** Every result is counted for `m` exactly when every result is annotated for `m`. */
  lemma {:induction false} AnnotatedCountFull(anns: seq<Annotations>, m: Method)
    ensures AnnotatedCount(anns, m) == |anns| <==> forall i :: 0 <= i < |anns| ==> m in anns[i]
    decreases |anns|
  {
    if |anns| > 0 {
      var prefix := anns[..|anns| - 1];
      AnnotatedCountFull(prefix, m);
      if forall i :: 0 <= i < |anns| ==> m in anns[i] {
        assert forall i :: 0 <= i < |prefix| ==> m in prefix[i] by {
          forall i | 0 <= i < |prefix| ensures m in prefix[i] { assert prefix[i] == anns[i]; }
        }
      } else {
        var i :| 0 <= i < |anns| && m !in anns[i];
        if i < |anns| - 1 {
          assert prefix[i] == anns[i];
        }
      }
    }
  }

  /** `{"total_prompts": ..., "by_method": {...}, "by_category": {...}}`. */
  datatype Summary = Summary(totalPrompts: nat,
                             byMethod: map<Method, map<OutcomeCategory, nat>>,
                             byCategory: map<OutcomeCategory, map<Method, nat>>)

  /**
   * `s` counts `anns`: one row per method holding, per category, the number
   * of results annotated with it, and the transposed table beside it.
   */
  ghost predicate Tabulates(s: Summary, anns: seq<Annotations>) {
    && s.totalPrompts == |anns|
    && (forall m :: m in s.byMethod && forall c :: c in s.byMethod[m])
    && (forall m, c :: s.byMethod[m][c] == Tally(anns, m, c))
    && (forall c :: c in s.byCategory && forall m :: m in s.byCategory[c])
    && (forall c, m :: s.byCategory[c][m] == s.byMethod[m][c])
  }

  /** A row for `m` that counts the annotations of `m` in `anns`. */
  ghost predicate CountsRow(row: map<OutcomeCategory, nat>, anns: seq<Annotations>, m: Method) {
    forall c :: c in row && row[c] == Tally(anns, m, c)
  }

  /** `{cat: 0 for cat in categories}`. */
  function ZeroRow(): (row: map<OutcomeCategory, nat>)
    ensures forall m :: CountsRow(row, [], m)
  {
    AllListed();
    map c | c in Categories :: 0
  }

  /** Counting one more result extends a row by one in its category. */
  lemma CountsRowStep(row: map<OutcomeCategory, nat>, anns: seq<Annotations>, i: nat, m: Method)
    requires i < |anns| && CountsRow(row, anns[..i], m)
    ensures m in anns[i] ==> CountsRow(row[anns[i][m].category := row[anns[i][m].category] + 1], anns[..i + 1], m)
    ensures m !in anns[i] ==> CountsRow(row, anns[..i + 1], m)
  {
    assert anns[..i + 1][..i] == anns[..i];
  }

  /** Fills `by_category` from `by_method`, category by category and method by method. */
  method Transpose(byMethod: map<Method, map<OutcomeCategory, nat>>) returns (byCategory: map<OutcomeCategory, map<Method, nat>>)
    requires forall m :: m in byMethod && forall c :: c in byMethod[m]
    ensures forall c :: c in byCategory && forall m :: m in byCategory[c]
    ensures forall c, m :: byCategory[c][m] == byMethod[m][c]
  {
    AllListed();
    byCategory := map c | c in Categories :: map[];
    var ci := 0;
    while ci < |Categories|
      invariant 0 <= ci <= |Categories|
      invariant forall c :: c in byCategory
      invariant forall k :: 0 <= k < ci ==>
                  (forall m :: m in byCategory[Categories[k]] && byCategory[Categories[k]][m] == byMethod[m][Categories[k]])
    {
      var c := Categories[ci];
      var mi := 0;
      while mi < |Methods|
        invariant 0 <= mi <= |Methods|
        invariant forall c' :: c' in byCategory
        invariant forall k :: 0 <= k < ci ==>
                    (forall m :: m in byCategory[Categories[k]] && byCategory[Categories[k]][m] == byMethod[m][Categories[k]])
        invariant forall k :: 0 <= k < mi ==>
                    (Methods[k] in byCategory[c] && byCategory[c][Methods[k]] == byMethod[Methods[k]][c])
      {
        var m := Methods[mi];
        byCategory := byCategory[c := byCategory[c][m := byMethod[m][c]]];
        mi := mi + 1;
      }
      forall m ensures m in byCategory[c] && byCategory[c][m] == byMethod[m][c] {
        var k := MethodIndex(m);
      }
      ci := ci + 1;
    }
    forall c ensures forall m :: m in byCategory[c] && byCategory[c][m] == byMethod[m][c] {
      var k := CategoryIndex(c);
    }
  }
}
