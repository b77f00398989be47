/**
 * The manual experiment: answers supplied by the user instead of generated,
 * only the truth-score answer scored, empty answers left unannotated, and
 * the same method-by-category summary over whatever was annotated.
 */
module ManualRun {
  import opened Wrappers
  import Inference
  import opened Annotation
  import opened Reporting

  /** The truth-score entry of a result: the answer and, when it is non-empty, its score. */
  datatype TruthScoreEntry = TruthScoreEntry(answer: string, score: Option<Inference.ScoreResult>)

  /** `{"prompt": ..., "vanilla": {"answer": ...}, ..., "truthscore": {"answer": ..., ...}}`. */
  datatype ManualResult = ManualResult(prompt: string,
                                       vanilla: string,
                                       rag: string,
                                       selfConsistency: string,
                                       truthscore: TruthScoreEntry)

  /** `result[method]["answer"]`. */
  function AnswerOf(r: ManualResult, m: Method): string {
    match m
    case Vanilla => r.vanilla
    case Rag => r.rag
    case SelfConsistency => r.selfConsistency
    case TruthScore => r.truthscore.answer
  }

  /** The answers table: prompt, then method, to the supplied answer. */
  type AnswerTable = map<string, map<Method, string>>

  /** `answers.get(prompt, {}).get(method, "")`. */
  function Supplied(answers: AnswerTable, prompt: string, m: Method): (a: string)
    ensures prompt in answers && m in answers[prompt] ==> a == answers[prompt][m]
    ensures !(prompt in answers && m in answers[prompt]) ==> a == ""
  {
    if prompt in answers && m in answers[prompt] then answers[prompt][m] else ""
  }

  /** One entry of a results file: its `"prompt"` and its other string-valued keys. */
  datatype InputItem = InputItem(prompt: string, fields: map<string, string>)

  /** `item.get(key, "")`. */
  function Field(item: InputItem, key: string): string {
    if key in item.fields then item.fields[key] else ""
  }

  /** The inner dictionary built for one item: exactly the four method keys, `""` where absent. */
  function EntryOf(item: InputItem): (e: map<Method, string>)
    ensures forall m :: m in e && e[m] == Field(item, m.Name())
  {
    AllListed();
    map m | m in Methods :: Field(item, m.Name())
  }

  /**
   * The dictionary comprehension of `run_from_file`: items are taken in
   * order, so a later item with the same prompt replaces an earlier one.
   */
  function AnswersFromItems(items: seq<InputItem>): AnswerTable
    decreases |items|
  {
    if |items| == 0 then map[]
    else AnswersFromItems(items[..|items| - 1])[items[|items| - 1].prompt := EntryOf(items[|items| - 1])]
  }

  /** `i` is the last position of `items` holding prompt `p`. */
  ghost predicate LastWith(items: seq<InputItem>, p: string, i: int) {
    0 <= i < |items| && items[i].prompt == p && forall j :: i < j < |items| ==> items[j].prompt != p
  }

  /** The table holds exactly the items' prompts. */
  lemma {:induction false} AnswersFromItemsDomain(items: seq<InputItem>, p: string)
    ensures p in AnswersFromItems(items) <==> exists i :: 0 <= i < |items| && items[i].prompt == p
    decreases |items|
  {
    if |items| > 0 {
      var n := |items| - 1;
      var prefix := items[..n];
      AnswersFromItemsDomain(prefix, p);
      if items[n].prompt != p && exists i :: 0 <= i < |items| && items[i].prompt == p {
        var i :| 0 <= i < |items| && items[i].prompt == p;
        assert prefix[i] == items[i];
      }
    }
  }

  /** Each prompt maps to the entry of the last item holding it. */
  lemma {:induction false} AnswersFromItemsLastWins(items: seq<InputItem>, p: string, i: nat)
    requires LastWith(items, p, i)
    ensures p in AnswersFromItems(items) && AnswersFromItems(items)[p] == EntryOf(items[i])
    decreases |items|
  {
    var n := |items| - 1;
    if i < n {
      var prefix := items[..n];
      assert prefix[i] == items[i];
      assert LastWith(prefix, p, i) by {
        forall j | i < j < |prefix| ensures prefix[j].prompt != p { assert prefix[j] == items[j]; }
      }
      AnswersFromItemsLastWins(prefix, p, i);
      assert items[n].prompt != p;
      assert AnswersFromItems(items) == AnswersFromItems(prefix)[items[n].prompt := EntryOf(items[n])];
    }
  }

  /** Only the four method keys of an item are read: a ground truth or any other key is dropped. */
  lemma EntryIgnoresOtherFields(item: InputItem, key: string, value: string)
    requires forall m: Method :: m.Name() != key
    ensures EntryOf(InputItem(item.prompt, item.fields[key := value])) == EntryOf(item)
  {
    var other := InputItem(item.prompt, item.fields[key := value]);
    forall m: Method ensures Field(other, m.Name()) == Field(item, m.Name()) {
      assert m.Name() != key;
    }
  }

  /** `"ground_truth"` is not one of the method keys, so a file's ground truth never reaches the answers. */
  lemma GroundTruthFieldDropped(item: InputItem, value: string)
    ensures EntryOf(InputItem(item.prompt, item.fields["ground_truth" := value])) == EntryOf(item)
  {
    forall m: Method ensures m.Name() != "ground_truth" {
      assert |m.Name()| != 12;
    }
    EntryIgnoresOtherFields(item, "ground_truth", value);
  }

  /** The annotations of the non-empty answers of `r`, judged against `info`. */
  function AnnotationsFor(r: ManualResult, info: GroundTruthInfo): (anns: Annotations)
    ensures forall m :: m in anns <==> AnswerOf(r, m) != ""
    ensures forall m :: m in anns ==> anns[m] == AnnotateAnswer(r.prompt, AnswerOf(r, m), info)
  {
    AllListed();
    map m | m in Methods && AnswerOf(r, m) != "" :: AnnotateAnswer(r.prompt, AnswerOf(r, m), info)
  }

  /** A result together with its `"annotations"` entry. */
  datatype AnnotatedResult = AnnotatedResult(result: ManualResult, annotations: Annotations)

  function AnnotationsOf(annotated: seq<AnnotatedResult>): (anns: seq<Annotations>)
    ensures |anns| == |annotated|
    ensures forall i :: 0 <= i < |annotated| ==> anns[i] == annotated[i].annotations
  {
    seq(|annotated|, i requires 0 <= i < |annotated| => annotated[i].annotations)
  }

  /** `annotated` is `results` with each result's non-empty answers annotated against `groundTruth`. */
  ghost predicate Annotates(annotated: seq<AnnotatedResult>, results: seq<ManualResult>,
                            groundTruth: Option<map<string, GroundTruthInfo>>) {
    && |annotated| == |results|
    && forall i :: 0 <= i < |results| ==>
         && annotated[i].result == results[i]
         && annotated[i].annotations == AnnotationsFor(results[i], GroundTruthFor(groundTruth, results[i].prompt))
  }

  /** The manual runner; its scorer is the truth scorer it builds. */
  datatype ManualRunner = ManualRunner(scorer: (string, string) -> Inference.ScoreResult) {

    /**
     * The result `run_with_answers` builds for `prompt`: each method's
     * supplied answer (`""` when missing), the truth-score answer scored
     * exactly when it is non-empty.
     */
    function ResultFor(prompt: string, answers: AnswerTable): (r: ManualResult)
      ensures r.prompt == prompt
      ensures forall m :: AnswerOf(r, m) == Supplied(answers, prompt, m)
      ensures r.truthscore.score.Some? <==> Supplied(answers, prompt, TruthScore) != ""
      ensures r.truthscore.score.Some? ==> r.truthscore.score.value == scorer(prompt, r.truthscore.answer)
    {
      var ts := Supplied(answers, prompt, TruthScore);
      ManualResult(prompt,
                   Supplied(answers, prompt, Vanilla),
                   Supplied(answers, prompt, Rag),
                   Supplied(answers, prompt, SelfConsistency),
                   TruthScoreEntry(ts, if ts != "" then Some(scorer(prompt, ts)) else None))
    }

    /**
     * `run_with_answers(prompts, answers, ground_truth)`: one result per
     * prompt, in order. `groundTruth` is accepted and not consulted.
     */
    method RunWithAnswers(prompts: seq<string>, answers: AnswerTable,
                          groundTruth: Option<map<string, GroundTruthInfo>>)
      returns (results: seq<ManualResult>)
      ensures |results| == |prompts|
      ensures forall i :: 0 <= i < |prompts| ==> results[i] == ResultFor(prompts[i], answers)
    {
      results := [];
      var i := 0;
      while i < |prompts|
        invariant 0 <= i <= |prompts|
        invariant |results| == i
        invariant forall j :: 0 <= j < i ==> results[j] == ResultFor(prompts[j], answers)
      {
        var prompt := prompts[i];
        var entry := TruthScoreEntry(Supplied(answers, prompt, TruthScore), None);
        if entry.answer != "" {
          entry := entry.(score := Some(scorer(prompt, entry.answer)));
        }
        var result := ManualResult(prompt,
                                   Supplied(answers, prompt, Vanilla),
                                   Supplied(answers, prompt, Rag),
                                   Supplied(answers, prompt, SelfConsistency),
                                   entry);
        results := results + [result];
        i := i + 1;
      }
    }

    /** A prompt missing from the table yields four empty answers and no score. */
    lemma MissingPromptIsEmpty(prompt: string, answers: AnswerTable)
      requires prompt !in answers
      ensures forall m :: AnswerOf(ResultFor(prompt, answers), m) == ""
      ensures ResultFor(prompt, answers).truthscore.score.None?
    {
    }

    /**
     * `run_from_file`: one result per item, in file order, each drawing its
     * answers from the last item with the same prompt; ground truth in the
     * file is ignored.
     */
    method RunFromFile(items: seq<InputItem>) returns (results: seq<ManualResult>)
      ensures |results| == |items|
      ensures forall i :: 0 <= i < |items| ==> results[i] == ResultFor(items[i].prompt, AnswersFromItems(items))
    {
      var prompts := seq(|items|, i requires 0 <= i < |items| => items[i].prompt);
      var answers := AnswersFromItems(items);
      results := RunWithAnswers(prompts, answers, None);
    }

    /** A file result carries the answers of the last item with its prompt. */
    lemma FileResultIsLastItem(items: seq<InputItem>, i: nat, j: nat)
      requires i < |items| && LastWith(items, items[i].prompt, j)
      ensures forall m :: AnswerOf(ResultFor(items[i].prompt, AnswersFromItems(items)), m) == Field(items[j], m.Name())
    {
      AnswersFromItemsLastWins(items, items[i].prompt, j);
    }

    /**
     * `annotate_results(results, ground_truth)`: every non-empty answer is
     * annotated, every empty one is skipped.
     */
    method AnnotateResults(results: seq<ManualResult>, groundTruth: Option<map<string, GroundTruthInfo>>)
      returns (annotated: seq<AnnotatedResult>)
      ensures Annotates(annotated, results, groundTruth)
      ensures groundTruth.None? ==> forall i, m :: 0 <= i < |results| && m in annotated[i].annotations ==>
                annotated[i].annotations[m].category ==
                  if DetectRefusal(AnswerOf(results[i], m)) then CorrectRefusal else CorrectAnswer
    {
      annotated := [];
      var i := 0;
      while i < |results|
        invariant 0 <= i <= |results|
        invariant Annotates(annotated, results[..i], groundTruth)
      {
        var anns := AnnotateOne(results[i], GroundTruthFor(groundTruth, results[i].prompt));
        annotated := annotated + [AnnotatedResult(results[i], anns)];
        i := i + 1;
      }
      assert results[..i] == results;
      if groundTruth.None? {
        forall i, m | 0 <= i < |results| && m in annotated[i].annotations
          ensures annotated[i].annotations[m].category ==
                    if DetectRefusal(AnswerOf(results[i], m)) then CorrectRefusal else CorrectAnswer
        {
          NoGroundTruthCategory(results[i].prompt, AnswerOf(results[i], m));
        }
      }
    }

    /** The inner loop of `annotate_results`: the four methods of one result, in order, skipping empty answers. */
    method AnnotateOne(result: ManualResult, info: GroundTruthInfo) returns (anns: Annotations)
      ensures forall m :: m in anns <==> AnswerOf(result, m) != ""
      ensures forall m :: m in anns ==> anns[m] == AnnotateAnswer(result.prompt, AnswerOf(result, m), info)
    {
      anns := map[];
      var j := 0;
      while j < |Methods|
        invariant 0 <= j <= |Methods|
        invariant forall m :: m in anns ==> MethodIndex(m) < j && AnswerOf(result, m) != ""
        invariant forall i :: 0 <= i < j && AnswerOf(result, Methods[i]) != "" ==>
                    Methods[i] in anns && anns[Methods[i]] == AnnotateAnswer(result.prompt, AnswerOf(result, Methods[i]), info)
      {
        var m := Methods[j];
        var answer := AnswerOf(result, m);
        if answer != "" {
          var isRefusal := DetectRefusal(answer);
          var isHedged := DetectHedging(answer);
          var category := Annotate(result.prompt, answer, info.answer, info.isCorrect, isRefusal, isHedged);
          assert AnnotationRecord(category, isRefusal, isHedged) == AnnotateAnswer(result.prompt, answer, info);
          anns := anns[m := AnnotationRecord(category, isRefusal, isHedged)];
        }
        j := j + 1;
      }
      forall m | AnswerOf(result, m) != "" ensures m in anns && anns[m] == AnnotateAnswer(result.prompt, AnswerOf(result, m), info) {
        var i := MethodIndex(m);
      }
    }

    /**
     * `summarize_results(annotated)`: a result lacking an annotation for a
     * method is not counted for it, so each method's row sums to at most
     * the number of results, and to exactly that when every result is
     * annotated for the method.
     */
    method SummarizeResults(annotated: seq<AnnotatedResult>) returns (summary: Summary)
      ensures Tabulates(summary, AnnotationsOf(annotated))
      ensures forall m :: RowSum(summary.byMethod[m]) == AnnotatedCount(AnnotationsOf(annotated), m)
      ensures forall m :: RowSum(summary.byMethod[m]) <= summary.totalPrompts
      ensures forall m :: RowSum(summary.byMethod[m]) == summary.totalPrompts <==>
                forall i :: 0 <= i < |annotated| ==> m in annotated[i].annotations
    {
      ghost var anns := AnnotationsOf(annotated);
      var byMethod: map<Method, map<OutcomeCategory, nat>> := map[];
      var mi := 0;
      while mi < |Methods|
        invariant 0 <= mi <= |Methods|
        invariant forall m :: m in byMethod <==> m in Methods[..mi]
        invariant forall m :: m in byMethod ==> CountsRow(byMethod[m], anns, m)
      {
        var m := Methods[mi];
        var row := ZeroRow();
        var ri := 0;
        while ri < |annotated|
          invariant 0 <= ri <= |annotated|
          invariant CountsRow(row, anns[..ri], m)
        {
          CountsRowStep(row, anns, ri, m);
          if m in annotated[ri].annotations {
            var category := annotated[ri].annotations[m].category;
            row := row[category := row[category] + 1];
          }
          ri := ri + 1;
        }
        assert anns[..ri] == anns;
        byMethod := byMethod[m := row];
        mi := mi + 1;
      }
      assert Methods[..mi] == Methods;
      AllListed();
      var byCategory := Transpose(byMethod);
      summary := Summary(|annotated|, byMethod, byCategory);
      forall m ensures RowSum(summary.byMethod[m]) == AnnotatedCount(anns, m) {
        TallyPartition(anns, m);
      }
      forall m ensures RowSum(summary.byMethod[m]) == summary.totalPrompts <==>
                         forall i :: 0 <= i < |annotated| ==> m in annotated[i].annotations {
        AnnotatedCountFull(anns, m);
      }
    }
  }

  /**
   * Chaining the two steps: a method's row of the summary of the annotated
   * results sums to the number of results exactly when every result has a
   * non-empty answer for that method.
   */
  lemma FullRowIffAllAnswered(results: seq<ManualResult>, groundTruth: Option<map<string, GroundTruthInfo>>,
                              annotated: seq<AnnotatedResult>, summary: Summary, m: Method)
    requires Annotates(annotated, results, groundTruth)
    requires Tabulates(summary, AnnotationsOf(annotated))
    ensures RowSum(summary.byMethod[m]) <= |results|
    ensures RowSum(summary.byMethod[m]) == |results| <==> forall i :: 0 <= i < |results| ==> AnswerOf(results[i], m) != ""
  {
    var anns := AnnotationsOf(annotated);
    TallyPartition(anns, m);
    AnnotatedCountFull(anns, m);
    assert forall i :: 0 <= i < |results| ==> (m in anns[i] <==> AnswerOf(results[i], m) != "");
  }
}
