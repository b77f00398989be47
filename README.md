# truthscore-llm experiments, modelled in Dafny

The experiment harness of truthscore-llm compares four inference configurations on a fixed set of prompts:
- vanilla decoding;
- retrieval-augmented generation (RAG) over a placeholder retriever;
- self-consistency sampling, which takes five samples and keeps the most frequent answer;
- the truth-score gate, which wraps a generating configuration (vanilla, in the runner), scores its answer and replaces it with a fixed refusal when the score says `REFUSE`.

Each answer is then run through two keyword detectors, one for hedging and one for refusal. A fixed rule chain sorts it into one of four outcome categories. The results are summarised as a method-by-category table of counts, together with its transpose.

A second, manual runner takes answers supplied by the user instead of generating them. It skips empty answers when annotating.

The model is organised as follows:
- `text.dfy` (`Text`): ASCII `str.lower()`, the substring test `needle in hay` with a reference definition, and `str(n)`.
- `annotation.dfy` (`Annotation`): the outcome categories, both detectors with their marker lists, and the classifier.
- `inference.dfy` (`Inference`):
  - the four configurations as datatypes; the chat service and the truth scorer are oracles;
  - the agreement count of self-consistency and its `max` selection;
  - the sampling loop with its usage accumulation;
  - the placeholder and error records;
  - the gate.
- `reporting.dfy` (`Reporting`): what both runners share — the method keys, the annotation record, the ground-truth lookup, the counting specification of the summary and the transpose.
- `run_experiment.dfy` (`ExperimentRun`): the automatic runner (`run_single_prompt`, `run_all_prompts`, `annotate_results`, `summarize_results`).
- `run_manual_experiment.dfy` (`ManualRun`): the manual runner (`run_with_answers`, `run_from_file`, `annotate_results`, `summarize_results`).
- `prompts.dfy` (`Prompts`): the built-in prompt list.
- `wrappers.dfy` (`Wrappers`): `Option`.

## How the service is modelled

The chat service is a function `(ChatRequest, nat) -> CallOutcome`. Its second argument is the number of requests that client has sent before. A call is therefore a pure lookup, and the runners thread a `Counters` value, one count per client, through the prompts.

The truth-score configuration wraps any of the three generating configurations (`BaseConfig`); the runner wraps its own vanilla configuration. Each prompt therefore advances the vanilla count twice: once for the vanilla result, and once more for the answer the gate scores.

A missing client (no API key or no `openai` package) is `None`. On that path every configuration produces its placeholder record.

## Behaviour worth noting

- **Hedging markers.** `detect_hedging` lists `"uncertain"` twice, so its list has 17 entries.
- **`num_samples <= 0`.** Self-consistency fails in two different ways:
  - without a client, `samples[0]` raises `IndexError` out of `generate` (`Raised`);
  - with a client, `max` of an empty dict raises inside the `try`, which turns it into an `[ERROR]` record.
- **A failed sample call.** It ends the whole self-consistency call with an error record; the samples gathered before it are discarded.
- **Error and placeholder answers in the summary.** They are annotated and counted like any other answer; no category sets them apart.
- **Manual summary.** When some answers are empty, a method's counts sum to less than the number of prompts.

## Model

| member | source | states |
|---|---|---|
| Text.Contains | experiments/annotation.py:90 | The left-to-right scan answers true exactly when the needle occurs somewhere in the text (`needle in hay`). |
| Annotation.LabelsDistinct | experiments/annotation.py:15-20 | The four category labels are pairwise distinct, so a count keyed by label is a count by category. |
| Annotation.AnyMarkerIn | experiments/annotation.py:90 | `any(marker in text ...)` is true exactly when some marker of the list occurs in the text. |
| Annotation.DetectHedging | experiments/annotation.py:73-90 | True exactly when one of the 17 hedging markers occurs in the lower-cased answer. |
| Annotation.DetectRefusal | experiments/annotation.py:93-110 | True exactly when one of the 9 refusal markers occurs in the lower-cased answer. |
| Annotation.Annotate | experiments/annotation.py:27-70 | Correct refusal iff refusing and the ground truth is absent or mentions "unknown". Overconfident iff known wrong, unhedged and not refusing. Hedged-but-incorrect iff known wrong and hedged, and no correct refusal. Correct answer for known-right confident answers, and whenever correctness is unknown and no correct refusal applies. |
| Annotation.OverconfidenceNeedsConfidentAnswer | experiments/annotation.py:58-70 | A hedged or refusing answer is never classed as an overconfident error. |
| Annotation.HedgedWrongRefusal | experiments/annotation.py:50-67 | A refusal whose ground truth is known and lacks "unknown", and which is wrong and hedged, falls through to hedged-but-incorrect. |
| Annotation.HedgingIgnoresCase | experiments/annotation.py:89-90 | Answers that differ only in letter case get the same hedging verdict. |
| Annotation.RefusalIgnoresCase | experiments/annotation.py:109-110 | Answers that differ only in letter case get the same refusal verdict. |
| Annotation.MentionsConcat | experiments/annotation.py:89-90 | A marker found in either part of a text is found in the concatenation. |
| Annotation.HedgingSurvivesConcat | experiments/annotation.py:83-90 | A hedged text stays hedged when text is added before or after it. |
| Annotation.RefusalSurvivesConcat | experiments/annotation.py:103-110 | A refusing text stays refusing when text is added before or after it. |
| Annotation.RefusalMinimalMarkers | experiments/annotation.py:103-110 | Detection over the nine markers agrees with detection over the six markers that contain no other; "cannot provide", "cannot answer" and "unable to answer" are redundant. |
| Annotation.HedgingExamplePositive | experiments/annotation.py:83-90 | "Maybe it rains" is hedged. |
| Annotation.HedgingExampleNegative | experiments/annotation.py:83-90 | "It is definitely true" is not hedged. |
| Annotation.RefusalExamplePositive | experiments/annotation.py:103-110 | "I cannot answer that" is a refusal. |
| Annotation.RefusalExampleNegative | experiments/annotation.py:103-110 | "Paris is the capital" is not a refusal. |
| Inference.AddUsageLaws | experiments/inference_configs.py:277-297 | The zero usage is neutral and field-wise addition is associative. |
| Inference.TotalUsageConcat | experiments/inference_configs.py:277-297 | Usage accumulated over two batches of calls is the sum of the two batch totals. |
| Inference.VanillaRecord | experiments/inference_configs.py:64-111 | No client gives the `[PLACEHOLDER]` record. A failed call gives the `[ERROR]` record carrying the message. A completion gives its content and usage with `placeholder` false. Always method "vanilla" and the configured model. |
| Inference.RetrieveDocuments | experiments/inference_configs.py:139-151 | The placeholder retriever always returns three documents. |
| Inference.RagRecord | experiments/inference_configs.py:153-216 | The same three outcomes as vanilla, under method "rag". The placeholder and success records report three retrieved documents; the error record reports none. |
| Inference.DistinctProperties | experiments/inference_configs.py:244-253 | The distinct samples list each sample once, cover exactly the samples, and appear in order of first occurrence. |
| Inference.DistinctCountsSum | experiments/inference_configs.py:244-253 | The multiplicities of the distinct samples add up to the number of samples. |
| Inference.CountSamples | experiments/inference_configs.py:244-253 | `dict(Counter(samples))`: each distinct sample once, with its number of occurrences, in first-occurrence order; the counts add up to the number of samples. |
| Inference.ArgMax | experiments/inference_configs.py:304 | `max(..., key=count)` picks an entry with the largest count, and no earlier entry has that count. |
| Inference.SelectedIsEarliestMajority | experiments/inference_configs.py:303-304 | The selected answer is a sample. No sample occurs more often than it. Among the samples that occur as often, it is the one first seen. |
| Inference.MajorityExample | experiments/inference_configs.py:303-304 | ["A", "B", "A"] selects "A". |
| Inference.TieExample | experiments/inference_configs.py:303-304 | ["A", "B"] selects "A". |
| Inference.PlaceholderSamples | experiments/inference_configs.py:262-265 | There are `max(n, 0)` placeholder samples, each tagged `[PLACEHOLDER]`. |
| Inference.SamplingPlaceholder | experiments/inference_configs.py:261-273 | It raises exactly when there are no samples. Otherwise it returns the first placeholder sample and all the samples. |
| Inference.SamplingError | experiments/inference_configs.py:316-324 | The self-consistency error record: `[ERROR]`-tagged, placeholder, carrying the message. |
| Inference.FirstFailure | experiments/inference_configs.py:280-300 | The first failed call, with every earlier call completed. |
| Inference.SampledRecord | experiments/inference_configs.py:275-324 | The first failure gives that call's error record. No samples give the error record of `max`. Otherwise the selected answer, all samples, the agreement table and the accumulated usage. |
| Inference.CallsMade | experiments/inference_configs.py:280-300 | The loop sends requests up to and including the first failure, never more than planned. |
| Inference.Gate | experiments/inference_configs.py:359-379 | Refused iff the decision is `REFUSE`. A refused answer is the fixed template. Otherwise the base answer passes unchanged. The score, decision and base method are carried over. |
| Inference.SelfConsistency.Responses | experiments/inference_configs.py:280-289 | One planned call per sample. |
| Inference.SelfConsistency.RecordAt | experiments/inference_configs.py:255-324 | With a client, the sampled record of the service's answers. Without one, it raises exactly when `num_samples <= 0`. |
| Inference.SelfConsistency.Generate | experiments/inference_configs.py:255-324 | The sampling loop returns the record above. It sends as many requests as that record's calls. |
| Inference.BaseConfig.Generate | experiments/inference_configs.py:334-356 | `base_config.generate(prompt)` for a vanilla, RAG or self-consistency base: vanilla and RAG always return, self-consistency may raise; a returned record carries the base's method name. |
| Inference.TruthScoreInference.Generate | experiments/inference_configs.py:345-379 | An exception of the base passes through unscored. Otherwise refused iff the scorer refuses the base answer; a refused answer is the template, any other is the base answer; the score details are the scorer's; `base_method` is the base's method name, never "unknown". |
| Inference.RaisingBasePassesThrough | experiments/inference_configs.py:261-265 | A self-consistency base with no client and no samples makes the truth-score configuration raise the same `IndexError`. |
| Prompts.AllPromptsSize | experiments/prompts.py:14-79 | 40 TruthfulQA-style prompts, then 10 FEVER-style ones, 50 in all. |
| Reporting.GroundTruthFor | experiments/run_experiment.py:97-104 | A missing table or a missing prompt reads as the empty entry; otherwise the prompt's entry. |
| Reporting.AnnotateAnswer | experiments/run_experiment.py:110-125 | Both detectors' verdicts, and the classifier applied to them and to the entry's answer and correctness. |
| Reporting.NoGroundTruthCategory | experiments/annotation.py:50-70 | With no ground truth, an answer is a correct refusal if it refuses and a correct answer otherwise. |
| Reporting.TallyPartition | experiments/run_experiment.py:153-158 | Each annotated result is counted in exactly one category. |
| Reporting.AnnotatedCountFull | experiments/run_manual_experiment.py:187-190 | The number of results annotated for a method equals the number of results iff every result is annotated for it. |
| Reporting.ZeroRow | experiments/run_experiment.py:154 | The zero row counts the empty list for every method. |
| Reporting.CountsRowStep | experiments/run_experiment.py:156-158 | Counting one more result adds one in its category, or nothing when it has no annotation. |
| Reporting.Transpose | experiments/run_experiment.py:161-163 | `by_category[c][m] == by_method[m][c]` for every category and method. |
| ExperimentRun.AnnotationsFor | experiments/run_experiment.py:109-129 | All four methods are annotated, each by its own answer. |
| ExperimentRun.RefusalTemplateIsRefusal | experiments/inference_configs.py:361-363 | The gate's refusal template is detected as a refusal. |
| ExperimentRun.GatedRefusalIsCorrectRefusal | experiments/inference_configs.py:360-369 | A gated refusal is annotated a correct refusal whenever its ground truth is absent or mentions "unknown". |
| ExperimentRun.ExperimentRunner.ResultAt | experiments/run_experiment.py:45-63 | The self-consistency entry is what its `generate` returns. The truth-score answer is the template or the second vanilla answer. Without a client the truth-score answer is the template or equals the vanilla answer. |
| ExperimentRun.ExperimentRunner.After | experiments/run_experiment.py:45-63 | One prompt sends two vanilla requests (the second for the gate), one RAG request and the sampling calls. Without a client nothing is sent. |
| ExperimentRun.ExperimentRunner.RunSinglePrompt | experiments/run_experiment.py:45-63 | Runs vanilla, RAG, self-consistency and the gate in that order. The result and the new counters are those above. |
| ExperimentRun.ExperimentRunner.RunAllShape | experiments/run_experiment.py:65-84 | One result per prompt, in the prompts' order. |
| ExperimentRun.ExperimentRunner.RunAllWithoutClient | experiments/run_experiment.py:65-84 | Without a client, every prompt's result is independent of the prompts before it. |
| ExperimentRun.ExperimentRunner.RunAllPrompts | experiments/run_experiment.py:65-84 | Runs the given prompts, or the built-in 50 when none are given, in order, threading the clients' counts. |
| ExperimentRun.ExperimentRunner.RunPrompts | experiments/run_experiment.py:78-82 | The loop's results are one `run_single_prompt` per prompt, each starting where the previous one left the clients. |
| ExperimentRun.ExperimentRunner.AnnotateResults | experiments/run_experiment.py:86-131 | Each result is kept and annotated with `AnnotationsFor` against the prompt's ground truth: all four answers. Without ground truth, each category is correct refusal or correct answer. |
| ExperimentRun.ExperimentRunner.AnnotateOne | experiments/run_experiment.py:109-129 | The inner loop annotates every method by its own answer. |
| ExperimentRun.ExperimentRunner.SummarizeResults | experiments/run_experiment.py:133-165 | Counts each method's annotations per category. `by_category` is the transpose. Each method's counts sum to `total_prompts`. |
| ExperimentRun.NewRunner | experiments/run_experiment.py:25-43 | All three clients share the service. The models default to gpt-4o-mini, with five samples. The gate wraps the runner's own vanilla configuration. |
| ManualRun.Supplied | experiments/run_manual_experiment.py:64-67 | `answers.get(prompt, {}).get(method, "")`. |
| ManualRun.EntryOf | experiments/run_manual_experiment.py:103-108 | The entry of an item has exactly the four method keys, each the item's field or `""`. |
| ManualRun.AnswersFromItemsDomain | experiments/run_manual_experiment.py:101-110 | The answers table holds exactly the prompts of the items. |
| ManualRun.AnswersFromItemsLastWins | experiments/run_manual_experiment.py:101-110 | Each prompt maps to the entry of the last item holding it. |
| ManualRun.EntryIgnoresOtherFields | experiments/run_manual_experiment.py:103-108 | Changing a field that is not a method key leaves the entry unchanged. |
| ManualRun.GroundTruthFieldDropped | experiments/run_manual_experiment.py:101-112 | A `"ground_truth"` field never reaches the answers. |
| ManualRun.AnnotationsFor | experiments/run_manual_experiment.py:136-158 | Exactly the methods with a non-empty answer are annotated, each by its answer. |
| ManualRun.ManualRunner.ResultFor | experiments/run_manual_experiment.py:61-78 | Each method's answer is the supplied one or `""`. The truth-score answer is scored iff it is non-empty, and then with the scorer's verdict on the prompt and that answer. |
| ManualRun.ManualRunner.RunWithAnswers | experiments/run_manual_experiment.py:34-80 | One result per prompt, in order, as above. |
| ManualRun.ManualRunner.MissingPromptIsEmpty | experiments/run_manual_experiment.py:64-77 | A prompt absent from the table gets four empty answers and no score. |
| ManualRun.ManualRunner.RunFromFile | experiments/run_manual_experiment.py:82-112 | One result per item, in file order, each using the answers table built from all items. |
| ManualRun.ManualRunner.FileResultIsLastItem | experiments/run_manual_experiment.py:101-112 | An item's result carries the answers of the last item with the same prompt. |
| ManualRun.ManualRunner.AnnotateResults | experiments/run_manual_experiment.py:114-162 | Each result is kept, its non-empty answers are annotated against the prompt's ground truth, and its empty ones are skipped. Without ground truth, each annotated category is correct refusal or correct answer. |
| ManualRun.ManualRunner.AnnotateOne | experiments/run_manual_experiment.py:136-158 | The inner loop annotates exactly the methods with a non-empty answer. |
| ManualRun.ManualRunner.SummarizeResults | experiments/run_manual_experiment.py:164-197 | Counts per method and category, skipping unannotated results, with the transpose. Each method's counts sum to its number of annotated results. That sum is at most `total_prompts`, and equal iff every result is annotated for the method. |
| ManualRun.FullRowIffAllAnswered | experiments/run_manual_experiment.py:114-197 | After annotating and summarising, a method's counts sum to at most the number of results, and to exactly that many iff every answer for that method is non-empty. |

## Left out

- The chat service, the `openai` package and API keys are not modelled. The service is an oracle indexed by request and call count; API-key discovery is reduced to whether a client is present.
- A completion whose content is `None` is not modelled: content is always a string.
- The configurations are values, not objects. The number of requests a client has sent is passed in explicitly, which leaves out object identity and aliasing.
- `TruthScorer` internals (evidence, consistency, language confidence, coverage) are not modelled. The scorer is an oracle; its scores are reals copied into the records.
- An exception raised by the scorer is not modelled; the scorer is total.
- `time.sleep(0.1)` between samples is not modelled; it only paces calls.
- The progress and error `print`s, console output, and `main` are not modelled.
- Output directories are not modelled.
- `save_results`, `save_summary` and `print_summary_table` are not modelled; they are file and console output.
- JSON reading in `run_from_file` is not modelled. The file's items arrive already parsed, each with a prompt; a missing `"prompt"` key (`KeyError`) is not modelled.
- `fix_metadata.py`, `setup_api.py` and `example.py` are not part of this model.
- `PROMPT_CATEGORIES` in prompts.py is not modelled; no core operation reads it.
- Text.Lower: lower-cases ASCII letters only, whereas Python's `str.lower()` also folds other Unicode letters.
- Non-string values in a results file are not modelled: every field of an input item is a string. A `null` answer (Python `None`), which the code treats like `""` (not scored, not annotated), and the object or `null` values its template puts under `"ground_truth"` and `"is_correct"` are outside the model; `ManualRun.GroundTruthFieldDropped` covers a string-valued `"ground_truth"` only.
- Method keys are a closed datatype. Keys of the manual answer dictionaries other than the four method names are ignored by the code and absent from the model.
- Dictionary key order in results and summaries is not modelled, except in the agreement table, where it decides ties and is modelled as an ordered list.
- Inference.TruthScoreInference.Generate: the base is one of the three generating configurations; a truth-score configuration wrapping another truth-score configuration, which the code's `InferenceConfig` typing would also allow, is not modelled.
- Inference.SampledRecord: the message of the `max` error is written as CPython's wording. It only marks which path was taken.
- ExperimentRun.ExperimentRunner.SummarizeResults: requires every result to carry all four annotations; the code would raise `KeyError` otherwise. `AnnotateResults` always provides them.
- ExperimentRun.ExperimentRunner.RunSinglePrompt: requires the wiring of `__init__` (`Valid`, which fixes five samples). Under it self-consistency never raises, so `run_single_prompt` always returns. The `IndexError` path of `num_samples <= 0` without a client is modelled in `Inference.SelfConsistency.RecordAt` only.
- Inference.RefusalTemplate: written as a concatenation of three pieces. It is the same text as the source's single literal.
