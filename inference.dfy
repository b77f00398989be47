/**
 * The four inference configurations: direct ("vanilla") generation,
 * retrieval-augmented generation, self-consistency sampling and the
 * truth-score gate. The chat-completion service and the truth scorer are
 * oracles: a function from a request and the client's call index to an
 * outcome, and a function from (question, answer) to a score.
 */
module Inference {
  import opened Wrappers
  import opened Text

  // ---------------------------------------------------------------- usage

  /** Token counts reported for one call, or accumulated over several. */
  datatype Usage = Usage(promptTokens: nat, completionTokens: nat, totalTokens: nat)

  const NoUsage := Usage(0, 0, 0)

  /** Field-by-field sum, as `total_usage[key] += response.usage.key` does. */
  function AddUsage(a: Usage, b: Usage): Usage {
    Usage(a.promptTokens + b.promptTokens, a.completionTokens + b.completionTokens,
          a.totalTokens + b.totalTokens)
  }

  lemma AddUsageLaws(x: Usage, y: Usage, z: Usage)
    ensures AddUsage(x, NoUsage) == x
    ensures AddUsage(AddUsage(x, y), z) == AddUsage(x, AddUsage(y, z))
  {
  }

  /** Usage accumulated over calls, in call order, starting from zero counts. */
  function TotalUsage(us: seq<Usage>): Usage
    decreases |us|
  {
    if |us| == 0 then NoUsage else AddUsage(TotalUsage(us[..|us| - 1]), us[|us| - 1])
  }

  /** Accumulating over two batches of calls gives the sum of the two batch totals. */
  lemma {:induction false} TotalUsageConcat(a: seq<Usage>, b: seq<Usage>)
    ensures TotalUsage(a + b) == AddUsage(TotalUsage(a), TotalUsage(b))
    decreases |b|
  {
    if |b| == 0 {
      assert a + b == a;
      AddUsageLaws(TotalUsage(a), NoUsage, NoUsage);
    } else {
      var b', last := b[..|b| - 1], b[|b| - 1];
      assert (a + b)[..|a + b| - 1] == a + b';
      assert (a + b)[|a + b| - 1] == last;
      TotalUsageConcat(a, b');
      AddUsageLaws(TotalUsage(a), TotalUsage(b'), last);
    }
  }

  // ------------------------------------------------------ the chat service

  /** One chat-completion request: model, system message, user message and sampling settings. */
  datatype ChatRequest = ChatRequest(model: string, system: string, user: string,
                                     temperature: real, maxTokens: nat)

  datatype Completion = Completion(content: string, usage: Usage)

  /** What one call to the service gives: a completion, or an exception with its message. */
  datatype CallOutcome = Completed(completion: Completion) | Failed(message: string)

  /**
   * The chat-completion service behind an API key, seen as an oracle: the
   * outcome of a request, given how many requests the same client has sent
   * before (so repeated calls with one request may answer differently).
   */
  type Service = (ChatRequest, nat) -> CallOutcome

  // --------------------------------------------------------------- records


  /** `Counter` of the samples, read as a dict: (answer, count) pairs in insertion order. */
  type Agreement = seq<(string, nat)>

  /** Fields present only for some configurations. */
  datatype Extra =
    | NoExtra
    | Retrieval(retrievedDocs: nat)
    | Sampling(samples: seq<string>, numSamples: int, agreement: Option<Agreement>)

  /** The record a vanilla, RAG or self-consistency configuration returns. */
  datatype GenerationResult = GenerationResult(
    answer: string, methodName: string, model: string, placeholder: bool,
    error: Option<string>, usage: Option<Usage>, extra: Extra)

  /** A `generate` call either returns its record or raises an exception that escapes it. */
  datatype Outcome<+T> = Returned(result: T) | Raised(exception: string)

  /** What the generate of a base configuration gives. */
  type Generated = Outcome<GenerationResult>

  const PlaceholderTag := "[PLACEHOLDER]"
  const ErrorTag := "[ERROR]"

  /** The `"method"` values of the four configurations. */
  const VanillaName := "vanilla"
  const RagName := "rag"
  const SamplingName := "self_consistency"
  const TruthScoreName := "truthscore"

  /** The fixed fragments of the placeholder and error answers. */
  const VanillaPlaceholderText := " This is a simulated vanilla LLM response to: "
  const VanillaErrorText := " Failed to generate response: "
  const RagPlaceholderText := " RAG response to: "
  const RagDocCountOpen := " (with "
  const RagDocCountClose := " retrieved docs)"
  const RagErrorText := " Failed to generate RAG response: "
  const SampleText := " Sample "
  const SampleAnswerText := " answer to: "
  const SamplingErrorText := " Failed to generate self-consistency response: "

  /** The record a vanilla call gives: no client, a failed call, or a completion. */
  function VanillaRecord(model: string, prompt: string, outcome: Option<CallOutcome>): (r: GenerationResult)
    ensures r.methodName == VanillaName && r.model == model && r.extra == NoExtra
    ensures outcome.None? ==> PlaceholderTag <= r.answer && r.placeholder && r.error.None?
    ensures outcome.Some? && outcome.value.Failed? ==>
              ErrorTag <= r.answer && r.placeholder && r.error == Some(outcome.value.message)
    ensures outcome.Some? && outcome.value.Completed? ==>
              r.answer == outcome.value.completion.content && !r.placeholder && r.error.None? &&
              r.usage == Some(outcome.value.completion.usage)
  {
    match outcome
    case None =>
      GenerationResult(PlaceholderTag + VanillaPlaceholderText + prompt,
                       VanillaName, model, true, None, None, NoExtra)
    case Some(Failed(e)) =>
      GenerationResult(ErrorTag + VanillaErrorText + e,
                       VanillaName, model, true, Some(e), None, NoExtra)
    case Some(Completed(c)) =>
      GenerationResult(c.content, VanillaName, model, false, None, Some(c.usage), NoExtra)
  }

  /** The number of documents the placeholder retriever returns. */
  const RetrievedDocCount := 3

  /** The placeholder retriever: three fixed documents naming the query (`top_k` is ignored). */
  function RetrieveDocuments(query: string, topK: nat): (docs: seq<string>)
    ensures |docs| == RetrievedDocCount
  {
    ["Document 1 related to: " + query,
     "Document 2 related to: " + query,
     "Document 3 related to: " + query]
  }

  /** `"\n\n".join(f"- {doc}" for doc in docs)`. */
  function ContextOf(docs: seq<string>): string
    decreases |docs|
  {
    if |docs| == 0 then ""
    else if |docs| == 1 then "- " + docs[0]
    else "- " + docs[0] + "\n\n" + ContextOf(docs[1..])
  }

  /** The record a RAG call gives: no client, a failed call, or a completion. */
  function RagRecord(model: string, prompt: string, outcome: Option<CallOutcome>): (r: GenerationResult)
    ensures r.methodName == RagName && r.model == model
    ensures outcome.None? ==>
              PlaceholderTag <= r.answer && r.placeholder && r.error.None? &&
              r.extra == Retrieval(RetrievedDocCount)
    ensures outcome.Some? && outcome.value.Failed? ==>
              ErrorTag <= r.answer && r.placeholder && r.error == Some(outcome.value.message) &&
              r.extra == NoExtra
    ensures outcome.Some? && outcome.value.Completed? ==>
              r.answer == outcome.value.completion.content && !r.placeholder && r.error.None? &&
              r.usage == Some(outcome.value.completion.usage) && r.extra == Retrieval(RetrievedDocCount)
  {
    var docs := RetrieveDocuments(prompt, 3);
    match outcome
    case None =>
      GenerationResult(PlaceholderTag + RagPlaceholderText + prompt + RagDocCountOpen +
                       NatToString(|docs|) + RagDocCountClose,
                       RagName, model, true, None, None, Retrieval(|docs|))
    case Some(Failed(e)) =>
      GenerationResult(ErrorTag + RagErrorText + e,
                       RagName, model, true, Some(e), None, NoExtra)
    case Some(Completed(c)) =>
      GenerationResult(c.content, RagName, model, false, None, Some(c.usage), Retrieval(|docs|))
  }

  // ----------------------------------------------------- agreement counting

  /** The first position of `x` in `s`. */
  function FirstIndex(s: seq<string>, x: string): (k: nat)
    requires x in s
    ensures k < |s| && s[k] == x && forall j :: 0 <= j < k ==> s[j] != x
  {
    if s[0] == x then 0 else 1 + FirstIndex(s[1..], x)
  }

  lemma FirstIndexAppend(s: seq<string>, x: string, y: string)
    requires x in s
    ensures FirstIndex(s + [y], x) == FirstIndex(s, x)
  {
    assert (s + [y])[FirstIndex(s, x)] == x;
  }

  /** The distinct samples, in order of first occurrence. */
  function Distinct(s: seq<string>): seq<string>
    decreases |s|
  {
    if |s| == 0 then []
    else
      var d := Distinct(s[..|s| - 1]);
      if s[|s| - 1] in d then d else d + [s[|s| - 1]]
  }

  ghost predicate NoRepeats(d: seq<string>) {
    forall i, j :: 0 <= i < j < |d| ==> d[i] != d[j]
  }

  /** `Distinct(s)` lists every sample once, ordered by first occurrence in `s`. */
  lemma {:induction false} DistinctProperties(s: seq<string>)
    ensures NoRepeats(Distinct(s))
    ensures forall x :: x in s <==> x in Distinct(s)
    ensures forall i, j :: 0 <= i < j < |Distinct(s)| ==>
              Distinct(s)[i] in s && Distinct(s)[j] in s &&
              FirstIndex(s, Distinct(s)[i]) < FirstIndex(s, Distinct(s)[j])
    decreases |s|
  {
    if |s| > 0 {
      var s', x := s[..|s| - 1], s[|s| - 1];
      assert s == s' + [x];
      DistinctProperties(s');
      forall y | y in s' ensures FirstIndex(s, y) == FirstIndex(s', y) {
        FirstIndexAppend(s', y, x);
      }
    }
  }

  function SumOccurrences(keys: seq<string>, m: multiset<string>): nat
    decreases |keys|
  {
    if |keys| == 0 then 0 else m[keys[0]] + SumOccurrences(keys[1..], m)
  }

  lemma {:induction false} SumOccurrencesAdd(keys: seq<string>, m: multiset<string>, x: string)
    requires NoRepeats(keys)
    ensures SumOccurrences(keys, m + multiset{x}) == SumOccurrences(keys, m) + (if x in keys then 1 else 0)
    decreases |keys|
  {
    if |keys| > 0 {
      assert NoRepeats(keys[1..]) by {
        forall i, j | 0 <= i < j < |keys| - 1 ensures keys[1..][i] != keys[1..][j] {
          assert keys[i + 1] != keys[j + 1];
        }
      }
      SumOccurrencesAdd(keys[1..], m, x);
      assert x in keys <==> x == keys[0] || x in keys[1..];
      assert x == keys[0] ==> x !in keys[1..];
    }
  }

  lemma {:induction false} SumOccurrencesAppendKey(keys: seq<string>, m: multiset<string>, x: string)
    ensures SumOccurrences(keys + [x], m) == SumOccurrences(keys, m) + m[x]
    decreases |keys|
  {
    if |keys| == 0 {
      assert keys + [x] == [x];
    } else {
      assert (keys + [x])[1..] == keys[1..] + [x];
      SumOccurrencesAppendKey(keys[1..], m, x);
    }
  }

  /** The multiplicities of the distinct samples add up to the number of samples. */
  lemma {:induction false} DistinctCountsSum(s: seq<string>)
    ensures SumOccurrences(Distinct(s), multiset(s)) == |s|
    decreases |s|
  {
    if |s| > 0 {
      var s', x := s[..|s| - 1], s[|s| - 1];
      assert s == s' + [x];
      assert multiset(s) == multiset(s') + multiset{x};
      var d := Distinct(s');
      DistinctCountsSum(s');
      DistinctProperties(s');
      SumOccurrencesAdd(d, multiset(s'), x);
      if x !in d {
        SumOccurrencesAppendKey(d, multiset(s), x);
        assert x !in s';
        assert multiset(s)[x] == 1;
      }
    }
  }

  /** The keys of an agreement table, in order. */
  function Keys(t: Agreement): seq<string> {
    seq(|t|, i requires 0 <= i < |t| => t[i].0)
  }

  /** The sum of the counts of an agreement table. */
  function CountSum(t: Agreement): nat
    decreases |t|
  {
    if |t| == 0 then 0 else t[0].1 + CountSum(t[1..])
  }

  lemma {:induction false} CountSumOfMultiplicities(t: Agreement, m: multiset<string>)
    requires forall i :: 0 <= i < |t| ==> t[i].1 == m[t[i].0]
    ensures CountSum(t) == SumOccurrences(Keys(t), m)
    decreases |t|
  {
    if |t| > 0 {
      assert Keys(t)[1..] == Keys(t[1..]);
      CountSumOfMultiplicities(t[1..], m);
    }
  }

  /**
   * `dict(Counter(samples))`: every distinct sample exactly once, in order of
   * first occurrence, with its number of occurrences; the counts add up to
   * the number of samples.
   */
  function CountSamples(samples: seq<string>): (t: Agreement)
    ensures NoRepeats(Keys(t))
    ensures forall x :: x in samples <==> x in Keys(t)
    ensures forall i :: 0 <= i < |t| ==> t[i].1 == multiset(samples)[t[i].0]
    ensures forall i, j :: 0 <= i < j < |t| ==>
              t[i].0 in samples && t[j].0 in samples &&
              FirstIndex(samples, t[i].0) < FirstIndex(samples, t[j].0)
    ensures CountSum(t) == |samples|
  {
    var d := Distinct(samples);
    var t := seq(|d|, i requires 0 <= i < |d| => (d[i], multiset(samples)[d[i]]));
    assert Keys(t) == d;
    DistinctProperties(samples);
    DistinctCountsSum(samples);
    CountSumOfMultiplicities(t, multiset(samples));
    t
  }

  /**
   * `max(agreement.items(), key=count)`: the position of the first entry with
   * the largest count (a left-to-right scan that replaces its candidate only
   * on a strictly larger count).
   */
  function ArgMax(t: Agreement): (k: nat)
    requires |t| > 0
    ensures k < |t|
    ensures forall j :: 0 <= j < |t| ==> t[j].1 <= t[k].1
    ensures forall j :: 0 <= j < k ==> t[j].1 < t[k].1
    decreases |t|
  {
    if |t| == 1 then 0
    else
      var k := ArgMax(t[..|t| - 1]);
      if t[|t| - 1].1 > t[k].1 then |t| - 1 else k
  }

  /** The answer self-consistency selects from a non-empty list of samples. */
  function SelectAnswer(samples: seq<string>): string
    requires |samples| > 0
  {
    var t := CountSamples(samples);
    assert |t| > 0 by { assert samples[0] in Keys(t); }
    t[ArgMax(t)].0
  }

  /** The position of a key in an agreement table. */
  lemma KeyPosition(t: Agreement, y: string) returns (j: nat)
    requires y in Keys(t)
    ensures j < |t| && t[j].0 == y
  {
    j :| 0 <= j < |Keys(t)| && Keys(t)[j] == y;
  }

  /**
   * The selected answer is a sample with the largest number of occurrences,
   * and of all samples with that many occurrences it is the one whose first
   * occurrence comes earliest.
   */
  lemma SelectedIsEarliestMajority(samples: seq<string>)
    requires |samples| > 0
    ensures SelectAnswer(samples) in samples
    ensures forall y :: y in samples ==> multiset(samples)[y] <= multiset(samples)[SelectAnswer(samples)]
    ensures forall y :: y in samples && multiset(samples)[y] == multiset(samples)[SelectAnswer(samples)] ==>
              FirstIndex(samples, SelectAnswer(samples)) <= FirstIndex(samples, y)
  {
    var t := CountSamples(samples);
    assert |t| > 0 by { assert samples[0] in Keys(t); }
    var k := ArgMax(t);
    var x := t[k].0;
    assert x in Keys(t) by { assert Keys(t)[k] == x; }
    forall y | y in samples
      ensures multiset(samples)[y] <= multiset(samples)[x]
      ensures multiset(samples)[y] == multiset(samples)[x] ==> FirstIndex(samples, x) <= FirstIndex(samples, y)
    {
      var j := KeyPosition(t, y);
    }
  }

  /** Two of three votes win: ["A", "B", "A"] selects "A". */
  lemma MajorityExample()
    ensures SelectAnswer(["A", "B", "A"]) == "A"
  {
    var s := ["A", "B", "A"];
    SelectedIsEarliestMajority(s);
    assert multiset(s)["A"] == 2 && multiset(s)["B"] == 1;
  }

  /** A tie goes to the earliest answer: ["A", "B"] selects "A". */
  lemma TieExample()
    ensures SelectAnswer(["A", "B"]) == "A"
  {
    var s := ["A", "B"];
    SelectedIsEarliestMajority(s);
    assert multiset(s)["A"] == 1 && multiset(s)["B"] == 1;
    assert FirstIndex(s, "A") == 0 && FirstIndex(s, "B") == 1;
  }

  // ------------------------------------------------- self-consistency records

  /** The message Python's `max` raises with on an empty dict of answers. */
  const EmptyMaxMessage := "max() arg is an empty sequence"

  /** The message `samples[0]` raises with on an empty list. */
  const EmptyIndexMessage := "list index out of range"

  /** `range(n)` has `n` elements when `n` is positive and none otherwise. */
  function RangeLength(n: int): nat {
    if n > 0 then n else 0
  }

  /** The placeholder samples `f"[PLACEHOLDER] Sample {i} answer to: {prompt}"` for `i` in `range(n)`. */
  function PlaceholderSamples(prompt: string, n: int): (samples: seq<string>)
    ensures |samples| == RangeLength(n)
    ensures forall i :: 0 <= i < |samples| ==> PlaceholderTag <= samples[i]
  {
    seq(RangeLength(n), i requires 0 <= i =>
      PlaceholderTag + SampleText + NatToString(i) + SampleAnswerText + prompt)
  }

  /** Self-consistency without a client: the first placeholder sample, or `IndexError` when there is none. */
  function SamplingPlaceholder(model: string, prompt: string, n: int): (g: Generated)
    ensures g.Raised? <==> n <= 0
    ensures g.Returned? ==>
              g.result.methodName == SamplingName && g.result.placeholder &&
              g.result.extra == Sampling(PlaceholderSamples(prompt, n), n, None) &&
              g.result.answer == PlaceholderSamples(prompt, n)[0]
  {
    var samples := PlaceholderSamples(prompt, n);
    if |samples| == 0 then Raised(EmptyIndexMessage)
    else Returned(GenerationResult(samples[0], SamplingName, model, true, None, None,
                                   Sampling(samples, n, None)))
  }

  /** The record of a self-consistency call that raised inside its `try`. */
  function SamplingError(model: string, message: string): (r: GenerationResult)
    ensures r.methodName == SamplingName && r.model == model
    ensures ErrorTag <= r.answer && r.placeholder && r.error == Some(message) && r.extra == NoExtra
  {
    GenerationResult(ErrorTag + SamplingErrorText + message,
                     SamplingName, model, true, Some(message), None, NoExtra)
  }

  /** The position of the first failed call, or `|outs|` when every call completed. */
  function FirstFailure(outs: seq<CallOutcome>): (k: nat)
    ensures k <= |outs|
    ensures k < |outs| ==> outs[k].Failed?
    ensures forall j :: 0 <= j < k ==> outs[j].Completed?
    decreases |outs|
  {
    if |outs| == 0 then 0
    else if outs[0].Failed? then 0
    else 1 + FirstFailure(outs[1..])
  }

  ghost predicate AllCompleted(outs: seq<CallOutcome>) {
    forall i :: 0 <= i < |outs| ==> outs[i].Completed?
  }

  /** The answers of completed calls, in call order. */
  function Contents(outs: seq<CallOutcome>): (texts: seq<string>)
    requires AllCompleted(outs)
    ensures |texts| == |outs|
  {
    seq(|outs|, i requires 0 <= i < |outs| => outs[i].completion.content)
  }

  /** The usage of completed calls, in call order. */
  function Usages(outs: seq<CallOutcome>): (us: seq<Usage>)
    requires AllCompleted(outs)
    ensures |us| == |outs|
  {
    seq(|outs|, i requires 0 <= i < |outs| => outs[i].completion.usage)
  }

  /**
   * The record self-consistency returns on the client path, given what the
   * service would answer to each of the `n` calls: the first failure ends
   * the run with an error record, no samples at all make `max` fail, and
   * otherwise the selected answer, all samples, the agreement table and the
   * accumulated usage are reported.
   */
  function SampledRecord(model: string, n: int, outs: seq<CallOutcome>): (r: GenerationResult)
    requires |outs| == RangeLength(n)
    ensures r.methodName == SamplingName && r.model == model
    ensures FirstFailure(outs) < |outs| ==> r == SamplingError(model, outs[FirstFailure(outs)].message)
    ensures FirstFailure(outs) == |outs| && n <= 0 ==> r == SamplingError(model, EmptyMaxMessage)
    ensures FirstFailure(outs) == |outs| && n > 0 ==>
              AllCompleted(outs) && !r.placeholder && r.error.None? &&
              r.answer in Contents(outs) && r.answer == SelectAnswer(Contents(outs)) &&
              r.extra == Sampling(Contents(outs), n, Some(CountSamples(Contents(outs)))) &&
              r.usage == Some(TotalUsage(Usages(outs)))
  {
    var f := FirstFailure(outs);
    if f < |outs| then SamplingError(model, outs[f].message)
    else if n <= 0 then SamplingError(model, EmptyMaxMessage)
    else
      var samples := Contents(outs);
      SelectedIsEarliestMajority(samples);
      GenerationResult(SelectAnswer(samples), SamplingName, model, false, None,
                       Some(TotalUsage(Usages(outs))), Sampling(samples, n, Some(CountSamples(samples))))
  }

  /** The number of service calls the client path makes: up to and including the first failure. */
  function CallsMade(outs: seq<CallOutcome>): (c: nat)
    ensures c <= |outs|
  {
    if FirstFailure(outs) < |outs| then FirstFailure(outs) + 1 else |outs|
  }

  // ------------------------------------------------------------ the gate

  datatype Decision = Accept | Qualified | Refuse

  /** What the truth scorer reports; only `truthScore` and `decision` are read. */
  datatype ScoreResult = ScoreResult(evidenceScore: real, consistency: real, languageConfidence: real,
                                     coverage: real, truthScore: real, decision: Decision)

  /** The record the truth-score configuration returns. */
  datatype GatedResult = GatedResult(answer: string, methodName: string, baseMethod: string,
                                     truthScore: real, decision: Decision, refused: bool,
                                     scoreDetails: ScoreResult)

  /** The answer a refused one is replaced by, written around the refusal marker it opens with. */
  const RefusalTemplate := "I " + "cannot" + " provide a confident answer to this question based on available evidence."

  /**
   * The gate: a `Refuse` decision replaces the base answer by the fixed
   * refusal; any other decision passes the base answer through unchanged.
   */
  function Gate(base: GenerationResult, score: ScoreResult): (r: GatedResult)
    ensures r.methodName == TruthScoreName && r.baseMethod == base.methodName
    ensures r.truthScore == score.truthScore && r.scoreDetails == score && r.decision == score.decision
    ensures r.refused <==> score.decision == Refuse
    ensures r.refused ==> r.answer == RefusalTemplate
    ensures !r.refused ==> r.answer == base.answer
  {
    if score.decision == Refuse then
      GatedResult(RefusalTemplate, TruthScoreName, base.methodName, score.truthScore, Refuse, true, score)
    else
      GatedResult(base.answer, TruthScoreName, base.methodName, score.truthScore, score.decision, false, score)
  }

  // ------------------------------------------------------- configurations

  /** The model every configuration defaults to. */
  const DefaultModel := "gpt-4o-mini"

  const VanillaSystemPrompt := "You are a helpful assistant that provides accurate, factual answers."
  const RagSystemPrompt := "You are a helpful assistant that answers questions based on the provided context. \n" +
                           "If the context doesn't contain enough information to answer the question, say so."
  const SamplingSystemPrompt := "You are a helpful assistant."

  /** The fixed fragments of the RAG user prompt. */
  const RagContextLead := "Context:\n"
  const RagQuestionLead := "\n\nQuestion: "
  const RagAnswerCue := "\n\nAnswer based on the context above:"

  /** Vanilla decoding: one call, or a placeholder when no client is configured. */
  datatype VanillaLLM = VanillaLLM(modelName: string, client: Option<Service>) {

    function Request(prompt: string): ChatRequest {
      ChatRequest(modelName, VanillaSystemPrompt, prompt, 0.7, 200)
    }

    /** `generate(prompt)` when the client has sent `k` requests before. */
    function Generate(prompt: string, k: nat): GenerationResult {
      VanillaRecord(modelName, prompt, if client.Some? then Some(client.value(Request(prompt), k)) else None)
    }

    /** The number of requests one `generate` sends. */
    function CallsPerGenerate(): nat {
      if client.Some? then 1 else 0
    }
  }

  /** Retrieval-augmented generation over the placeholder retriever. */
  datatype RAG = RAG(modelName: string, client: Option<Service>) {

    function Request(prompt: string): ChatRequest {
      var context := ContextOf(RetrieveDocuments(prompt, 3));
      ChatRequest(modelName, RagSystemPrompt,
                  RagContextLead + context + RagQuestionLead + prompt + RagAnswerCue,
                  0.7, 200)
    }

    /** `generate(prompt)` when the client has sent `k` requests before. */
    function Generate(prompt: string, k: nat): GenerationResult {
      RagRecord(modelName, prompt, if client.Some? then Some(client.value(Request(prompt), k)) else None)
    }

    function CallsPerGenerate(): nat {
      if client.Some? then 1 else 0
    }
  }

  /** Self-consistency: `numSamples` calls, then the most frequent answer. */
  datatype SelfConsistency = SelfConsistency(numSamples: int, modelName: string, client: Option<Service>) {

    function Request(prompt: string): ChatRequest {
      ChatRequest(modelName, SamplingSystemPrompt, prompt, 0.8, 200)
    }

    /** What the service would answer to the planned calls, the first having index `k`. */
    function Responses(prompt: string, k: nat): (outs: seq<CallOutcome>)
      requires client.Some?
      ensures |outs| == RangeLength(numSamples)
    {
      seq(RangeLength(numSamples), i requires 0 <= i => client.value(Request(prompt), k + i))
    }

    /**
     * What `generate(prompt)` gives when the client has sent `k` requests
     * before: with a client it always returns a record; without one it
     * raises exactly when there are no samples.
     */
    function RecordAt(prompt: string, k: nat): (g: Generated)
      ensures client.Some? ==> g == Returned(SampledRecord(modelName, numSamples, Responses(prompt, k)))
      ensures client.None? ==> (g.Raised? <==> numSamples <= 0)
    {
      if client.None? then SamplingPlaceholder(modelName, prompt, numSamples)
      else Returned(SampledRecord(modelName, numSamples, Responses(prompt, k)))
    }

    /** The number of requests one `generate` sends. */
    function CallsPerGenerate(prompt: string, k: nat): nat {
      if client.None? then 0 else CallsMade(Responses(prompt, k))
    }

    /** `generate(prompt)`: the sampling loop, stopping at the first failed call. */
    method Generate(prompt: string, k: nat) returns (g: Generated, calls: nat)
      ensures g == RecordAt(prompt, k)
      ensures calls == CallsPerGenerate(prompt, k)
    {
      if client.None? {
        var samples := PlaceholderSamples(prompt, numSamples);
        if |samples| == 0 {
          g := Raised(EmptyIndexMessage);
        } else {
          g := Returned(GenerationResult(samples[0], SamplingName, modelName, true, None, None,
                                         Sampling(samples, numSamples, None)));
        }
        return g, 0;
      }
      var service := client.value;
      var request := Request(prompt);
      ghost var outs := Responses(prompt, k);
      var samples: seq<string> := [];
      var totalUsage := NoUsage;
      var i := 0;
      while i < numSamples
        invariant 0 <= i <= RangeLength(numSamples)
        invariant AllCompleted(outs[..i])
        invariant samples == Contents(outs[..i])
        invariant totalUsage == TotalUsage(Usages(outs[..i]))
      {
        var response := service(request, k + i);
        assert response == outs[i];
        if response.Failed? {
          assert FirstFailure(outs) == i by { FirstFailureAfterPrefix(outs, i); }
          return Returned(SamplingError(modelName, response.message)), i + 1;
        }
        assert outs[..i + 1] == outs[..i] + [outs[i]];
        assert Usages(outs[..i + 1])[..i] == Usages(outs[..i]);
        samples := samples + [response.completion.content];
        totalUsage := AddUsage(totalUsage, response.completion.usage);
        i := i + 1;
      }
      assert outs[..i] == outs;
      assert FirstFailure(outs) == |outs| by { FirstFailureAfterPrefix(outs, |outs|); }
      calls := i;
      var agreement := CountSamples(samples);
      if |agreement| == 0 {
        g := Returned(SamplingError(modelName, EmptyMaxMessage));
      } else {
        var selected := agreement[ArgMax(agreement)].0;
        g := Returned(GenerationResult(selected, SamplingName, modelName, false, None,
                                       Some(totalUsage), Sampling(samples, numSamples, Some(agreement))));
      }
    }
  }

  /** When the first `i` calls completed, the first failure is at `i` or later. */
  lemma {:induction false} FirstFailureAfterPrefix(outs: seq<CallOutcome>, i: nat)
    requires i <= |outs| && AllCompleted(outs[..i])
    requires i < |outs| ==> outs[i].Failed?
    ensures FirstFailure(outs) == i
    decreases i
  {
    if i > 0 {
      assert outs[0] == outs[..i][0];
      assert outs[1..][..i - 1] == outs[..i][1..];
      FirstFailureAfterPrefix(outs[1..], i - 1);
    }
  }

  /** The configuration the truth-score gate wraps: any of the three generating ones. */
  datatype BaseConfig =
    | VanillaBase(vanilla: VanillaLLM)
    | RagBase(rag: RAG)
    | SamplingBase(sampling: SelfConsistency)
  {
    /** The `"method"` the wrapped configuration's records carry. */
    function MethodName(): string {
      match this
      case VanillaBase(_) => VanillaName
      case RagBase(_) => RagName
      case SamplingBase(_) => SamplingName
    }

    /**
     * `base_config.generate(prompt)` when the wrapped client has sent `k`
     * requests before: vanilla and RAG always return; self-consistency may
     * raise, and its exception escapes.
     */
    function Generate(prompt: string, k: nat): (g: Generated)
      ensures VanillaBase? ==> g == Returned(vanilla.Generate(prompt, k))
      ensures RagBase? ==> g == Returned(rag.Generate(prompt, k))
      ensures SamplingBase? ==> g == sampling.RecordAt(prompt, k)
      ensures g.Returned? ==> g.result.methodName == MethodName()
    {
      match this
      case VanillaBase(v) => Returned(v.Generate(prompt, k))
      case RagBase(r) => Returned(r.Generate(prompt, k))
      case SamplingBase(s) => s.RecordAt(prompt, k)
    }
  }

  /** The truth-score configuration: generate with the base configuration, score, gate. */
  datatype TruthScoreInference = TruthScoreInference(baseConfig: BaseConfig, scorer: (string, string) -> ScoreResult) {

    /**
     * `generate(prompt)` when the base configuration's client has sent `k`
     * requests before. An exception of the base passes through unscored;
     * otherwise the base answer is scored and gated, and `base_method` is the
     * base's method (never the `"unknown"` fallback).
     */
    function Generate(prompt: string, k: nat): (r: Outcome<GatedResult>)
      ensures r.Raised? <==> baseConfig.Generate(prompt, k).Raised?
      ensures r.Raised? ==> r.exception == baseConfig.Generate(prompt, k).exception
      ensures r.Returned? ==>
                var base := baseConfig.Generate(prompt, k).result;
                && (r.result.refused <==> scorer(prompt, base.answer).decision == Refuse)
                && (r.result.refused ==> r.result.answer == RefusalTemplate)
                && (!r.result.refused ==> r.result.answer == base.answer)
                && r.result.scoreDetails == scorer(prompt, base.answer)
                && r.result.baseMethod == baseConfig.MethodName()
    {
      match baseConfig.Generate(prompt, k)
      case Raised(e) => Raised(e)
      case Returned(base) => Returned(Gate(base, scorer(prompt, base.answer)))
    }
  }

  /**
   * A self-consistency base without a client and with no samples raises,
   * and the truth-score configuration passes that exception on unscored.
   */
  lemma RaisingBasePassesThrough(sampling: SelfConsistency, scorer: (string, string) -> ScoreResult,
                                 prompt: string, k: nat)
    requires sampling.client.None? && sampling.numSamples <= 0
    ensures TruthScoreInference(SamplingBase(sampling), scorer).Generate(prompt, k) == Raised(EmptyIndexMessage)
  {
  }
}
