/**
 * The automatic experiment: every prompt through the four configurations,
 * every answer annotated, and the method-by-category summary.
 */
module ExperimentRun {
  import opened Wrappers
  import opened Text
  import opened Inference
  import opened Annotation
  import opened Reporting
  import opened Prompts

  /** `{"prompt": ..., "vanilla": ..., "rag": ..., "self_consistency": ..., "truthscore": ...}`. */
  datatype PromptResult = PromptResult(prompt: string,
                                       vanilla: GenerationResult,
                                       rag: GenerationResult,
                                       selfConsistency: GenerationResult,
                                       truthscore: GatedResult)

  /** `result[method]["answer"]`. */
  function AnswerOf(r: PromptResult, m: Method): string {
    match m
    case Vanilla => r.vanilla.answer
    case Rag => r.rag.answer
    case SelfConsistency => r.selfConsistency.answer
    case TruthScore => r.truthscore.answer
  }

  /** A result together with its `"annotations"` entry. */
  datatype AnnotatedResult = AnnotatedResult(result: PromptResult, annotations: Annotations)

  /** The annotations of all four answers of `r`, judged against `info`. */
  function AnnotationsFor(r: PromptResult, info: GroundTruthInfo): (anns: Annotations)
    ensures forall m :: m in anns && anns[m] == AnnotateAnswer(r.prompt, AnswerOf(r, m), info)
  {
    AllListed();
    map m | m in Methods :: AnnotateAnswer(r.prompt, AnswerOf(r, m), info)
  }

  function AnnotationsOf(annotated: seq<AnnotatedResult>): (anns: seq<Annotations>)
    ensures |anns| == |annotated|
    ensures forall i :: 0 <= i < |annotated| ==> anns[i] == annotated[i].annotations
  {
    seq(|annotated|, i requires 0 <= i < |annotated| => annotated[i].annotations)
  }

  /** The refusal template the gate substitutes is itself detected as a refusal. */
  lemma RefusalTemplateIsRefusal()
    ensures DetectRefusal(RefusalTemplate)
  {
    assert OccursAt(RefusalMarkers[0], "cannot", 0);
    SubstringOfConcat("cannot", "I ", "cannot");
    SubstringOfConcat("cannot", "I " + "cannot", " provide a confident answer to this question based on available evidence.");
    assert Lower("cannot") == "cannot";
    SubstringOfLower("cannot", RefusalTemplate);
  }

  /**
   * The refusal template is annotated a correct refusal whenever the prompt
   * has no ground-truth answer or its ground truth mentions "unknown".
   */
  lemma GatedRefusalIsCorrectRefusal(prompt: string, info: GroundTruthInfo)
    requires RefusalExpected(info.answer)
    ensures AnnotateAnswer(prompt, RefusalTemplate, info).category == CorrectRefusal
  {
    RefusalTemplateIsRefusal();
  }

  /** How many requests each of the three clients has sent; the truth-score configuration shares vanilla's. */
  datatype Counters = Counters(vanilla: nat, rag: nat, sampling: nat)

  /** The runner: the four configurations, the truth-score one wrapping the vanilla one. */
  datatype ExperimentRunner = ExperimentRunner(vanilla: VanillaLLM, rag: RAG,
                                               selfConsistency: SelfConsistency,
                                               truthscore: TruthScoreInference) {

    /** The wiring `__init__` sets up. */
    ghost predicate Valid() {
      && truthscore.baseConfig == VanillaBase(vanilla)
      && selfConsistency.numSamples == 5
      && vanilla.client.Some? == rag.client.Some? == selfConsistency.client.Some?
    }

    /**
     * The result of `run_single_prompt(prompt)` when the clients stand at `k`:
     * vanilla, RAG and self-consistency in that order, then the truth-score
     * configuration, which sends vanilla's request a second time.
     */
    function ResultAt(prompt: string, k: Counters): (r: PromptResult)
      requires Valid()
      ensures r.prompt == prompt && r.truthscore.baseMethod == VanillaName
      ensures selfConsistency.RecordAt(prompt, k.sampling) == Returned(r.selfConsistency)
      ensures r.truthscore.refused ==> r.truthscore.answer == RefusalTemplate
      ensures !r.truthscore.refused ==>
                r.truthscore.answer == vanilla.Generate(prompt, k.vanilla + vanilla.CallsPerGenerate()).answer
      ensures vanilla.client.None? ==> r.truthscore.refused || r.truthscore.answer == r.vanilla.answer
    {
      PromptResult(prompt,
                   vanilla.Generate(prompt, k.vanilla),
                   rag.Generate(prompt, k.rag),
                   selfConsistency.RecordAt(prompt, k.sampling).result,
                   truthscore.Generate(prompt, k.vanilla + vanilla.CallsPerGenerate()).result)
    }

    /** Where the clients stand after `run_single_prompt(prompt)` started at `k`. */
    function After(prompt: string, k: Counters): (k': Counters)
      requires Valid()
      ensures k'.vanilla == k.vanilla + 2 * vanilla.CallsPerGenerate()
      ensures k'.rag == k.rag + rag.CallsPerGenerate()
      ensures k'.sampling == k.sampling + selfConsistency.CallsPerGenerate(prompt, k.sampling)
      ensures vanilla.client.None? ==> k' == k
    {
      Counters(k.vanilla + 2 * vanilla.CallsPerGenerate(),
               k.rag + rag.CallsPerGenerate(),
               k.sampling + selfConsistency.CallsPerGenerate(prompt, k.sampling))
    }

    /** `run_single_prompt(prompt)` with the clients at `k`; also returns where they stand afterwards. */
    method RunSinglePrompt(prompt: string, k: Counters) returns (r: PromptResult, k': Counters)
      requires Valid()
      ensures r == ResultAt(prompt, k)
      ensures k' == After(prompt, k)
    {
      var v := vanilla.Generate(prompt, k.vanilla);
      var g := rag.Generate(prompt, k.rag);
      var s, sent := selfConsistency.Generate(prompt, k.sampling);
      var t := truthscore.Generate(prompt, k.vanilla + vanilla.CallsPerGenerate());
      assert s == Returned(ResultAt(prompt, k).selfConsistency);
      r := PromptResult(prompt, v, g, s.result, t.result);
      k' := Counters(k.vanilla + 2 * vanilla.CallsPerGenerate(), k.rag + rag.CallsPerGenerate(), k.sampling + sent);
    }

    /** The results of running `prompts` in order, the clients starting at `k`. */
    function RunAll(prompts: seq<string>, k: Counters): seq<PromptResult>
      requires Valid()
      decreases |prompts|
    {
      if |prompts| == 0 then []
      else [ResultAt(prompts[0], k)] + RunAll(prompts[1..], After(prompts[0], k))
    }

    /** Where the clients stand after running `prompts` from `k`. */
    function AfterAll(prompts: seq<string>, k: Counters): Counters
      requires Valid()
      decreases |prompts|
    {
      if |prompts| == 0 then k else AfterAll(prompts[1..], After(prompts[0], k))
    }

    /** One result per prompt, in the prompts' order. */
    lemma {:induction false} RunAllShape(prompts: seq<string>, k: Counters)
      requires Valid()
      ensures |RunAll(prompts, k)| == |prompts|
      ensures forall i :: 0 <= i < |prompts| ==> RunAll(prompts, k)[i].prompt == prompts[i]
      decreases |prompts|
    {
      if |prompts| > 0 {
        RunAllShape(prompts[1..], After(prompts[0], k));
      }
    }

    /** Without a client every prompt's result is the same whatever came before it. */
    lemma {:induction false} RunAllWithoutClient(prompts: seq<string>, k: Counters)
      requires Valid() && vanilla.client.None?
      ensures RunAll(prompts, k) == seq(|prompts|, i requires 0 <= i < |prompts| => ResultAt(prompts[i], k))
      decreases |prompts|
    {
      if |prompts| > 0 {
        RunAllWithoutClient(prompts[1..], After(prompts[0], k));
        forall i | 0 <= i < |prompts[1..]| ensures ResultAt(prompts[1..][i], k) == ResultAt(prompts[i + 1], k) {
        }
      }
    }

    /** `run_all_prompts(prompts)`, the built-in list when `prompts` is `None`. */
    method RunAllPrompts(prompts: Option<seq<string>>, k: Counters) returns (results: seq<PromptResult>, k': Counters)
      requires Valid()
      ensures results == RunAll(prompts.GetOr(AllPrompts), k)
      ensures k' == AfterAll(prompts.GetOr(AllPrompts), k)
    {
      var ps := if prompts.None? then AllPrompts else prompts.value;
      results, k' := RunPrompts(ps, k);
    }

    /** The loop of `run_all_prompts`: one `run_single_prompt` per prompt, in order. */
    method RunPrompts(ps: seq<string>, k: Counters) returns (results: seq<PromptResult>, k': Counters)
      requires Valid()
      ensures results == RunAll(ps, k)
      ensures k' == AfterAll(ps, k)
    {
      results := [];
      k' := k;
      var i := 0;
      while i < |ps|
        invariant 0 <= i <= |ps|
        invariant results + RunAll(ps[i..], k') == RunAll(ps, k)
        invariant AfterAll(ps[i..], k') == AfterAll(ps, k)
      {
        assert ps[i..][1..] == ps[i + 1..];
        var result;
        result, k' := RunSinglePrompt(ps[i], k');
        results := results + [result];
        i := i + 1;
      }
    }

    /** `annotate_results(results, ground_truth)`. */
    method AnnotateResults(results: seq<PromptResult>, groundTruth: Option<map<string, GroundTruthInfo>>)
      returns (annotated: seq<AnnotatedResult>)
      ensures |annotated| == |results|
      ensures forall i :: 0 <= i < |results| ==> annotated[i].result == results[i]
      ensures forall i :: 0 <= i < |results| ==>
                annotated[i].annotations == AnnotationsFor(results[i], GroundTruthFor(groundTruth, results[i].prompt))
      ensures groundTruth.None? ==> forall i, m :: 0 <= i < |results| ==>
                && m in annotated[i].annotations
                && annotated[i].annotations[m].category ==
                     if DetectRefusal(AnswerOf(results[i], m)) then CorrectRefusal else CorrectAnswer
    {
      annotated := [];
      var i := 0;
      while i < |results|
        invariant 0 <= i <= |results|
        invariant |annotated| == i
        invariant forall j :: 0 <= j < i ==> annotated[j].result == results[j]
        invariant forall j :: 0 <= j < i ==>
                    annotated[j].annotations == AnnotationsFor(results[j], GroundTruthFor(groundTruth, results[j].prompt))
      {
        var anns := AnnotateOne(results[i], GroundTruthFor(groundTruth, results[i].prompt));
        assert anns == AnnotationsFor(results[i], GroundTruthFor(groundTruth, results[i].prompt));
        annotated := annotated + [AnnotatedResult(results[i], anns)];
        i := i + 1;
      }
      if groundTruth.None? {
        forall i, m | 0 <= i < |results|
          ensures annotated[i].annotations[m].category ==
                    if DetectRefusal(AnswerOf(results[i], m)) then CorrectRefusal else CorrectAnswer
        {
          NoGroundTruthCategory(results[i].prompt, AnswerOf(results[i], m));
        }
      }
    }

    /** The inner loop of `annotate_results`: the four methods of one result, in order. */
    method AnnotateOne(result: PromptResult, info: GroundTruthInfo) returns (anns: Annotations)
      ensures forall m :: m in anns && anns[m] == AnnotateAnswer(result.prompt, AnswerOf(result, m), info)
    {
      anns := map[];
      var j := 0;
      while j < |Methods|
        invariant 0 <= j <= |Methods|
        invariant forall m :: m in anns ==> MethodIndex(m) < j
        invariant forall i :: 0 <= i < j ==>
                    Methods[i] in anns && anns[Methods[i]] == AnnotateAnswer(result.prompt, AnswerOf(result, Methods[i]), info)
      {
        var m := Methods[j];
        var answer := AnswerOf(result, m);
        var isRefusal := DetectRefusal(answer);
        var isHedged := DetectHedging(answer);
        var category := Annotate(result.prompt, answer, info.answer, info.isCorrect, isRefusal, isHedged);
        anns := anns[m := AnnotationRecord(category, isRefusal, isHedged)];
        j := j + 1;
      }
      forall m ensures m in anns && anns[m] == AnnotateAnswer(result.prompt, AnswerOf(result, m), info) {
        var i := MethodIndex(m);
      }
    }

    /**
     * `summarize_results(annotated)`. Every result must carry all four
     * annotations; a missing one is a `KeyError` in the original.
     */
    method SummarizeResults(annotated: seq<AnnotatedResult>) returns (summary: Summary)
      requires forall i, m :: 0 <= i < |annotated| ==> m in annotated[i].annotations
      ensures Tabulates(summary, AnnotationsOf(annotated))
      ensures forall m :: RowSum(summary.byMethod[m]) == summary.totalPrompts
    {
      ghost var anns := AnnotationsOf(annotated);
      var byMethod: map<Method, map<OutcomeCategory, nat>> := map[];
      var mi := 0;
      while mi < |Methods|
        invariant 0 <= mi <= |Methods|
        invariant forall m :: m in byMethod <==> m in Methods[..mi]
        invariant forall m :: m in byMethod ==> CountsRow(byMethod[m], anns, m)
      {
        var m := Methods[mi];
        var row := ZeroRow();
        var ri := 0;
        while ri < |annotated|
          invariant 0 <= ri <= |annotated|
          invariant CountsRow(row, anns[..ri], m)
        {
          CountsRowStep(row, anns, ri, m);
          var category := annotated[ri].annotations[m].category;
          row := row[category := row[category] + 1];
          ri := ri + 1;
        }
        assert anns[..ri] == anns;
        byMethod := byMethod[m := row];
        mi := mi + 1;
      }
      assert Methods[..mi] == Methods;
      AllListed();
      var byCategory := Transpose(byMethod);
      summary := Summary(|annotated|, byMethod, byCategory);
      forall m ensures RowSum(summary.byMethod[m]) == summary.totalPrompts {
        TallyPartition(anns, m);
        AnnotatedCountFull(anns, m);
      }
    }
  }

  /** The runner `__init__` builds from the service behind the API key, if any, and the scorer. */
  function NewRunner(service: Option<Service>, scorer: (string, string) -> ScoreResult): (r: ExperimentRunner)
    ensures r.Valid()
    ensures r.vanilla.client == service && r.rag.client == service && r.selfConsistency.client == service
    ensures r.vanilla.modelName == DefaultModel && r.rag.modelName == DefaultModel
    ensures r.selfConsistency.modelName == DefaultModel && r.truthscore.scorer == scorer
  {
    var vanilla := VanillaLLM(DefaultModel, service);
    ExperimentRunner(vanilla, RAG(DefaultModel, service), Inference.SelfConsistency(5, DefaultModel, service),
                     TruthScoreInference(VanillaBase(vanilla), scorer))
  }
}
