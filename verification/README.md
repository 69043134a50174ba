# Verified models of the embodied benchmark programs

A Dafny project that models the benchmark programs' schedulers, stores and arithmetic, and proves
what they promise for every input and every run. `dafny verify dfyconfig.toml` checks all of it.

- **Slot-refill replay** (`Refill`, `RefillTheorems`, `BatchReplay`). Episodes of different lengths
  share a fixed number of slots, each with its own recurrent memory. `BatchReplay` is the loop over
  mutable slots; its specification is a list scheduler on values. A row-wise runtime is one whose
  result for a row depends on that row's observation and memory alone.
- **Stop detection and output routing** (`StopRouting`, `GenerationLoops`, `SessionReplay`,
  `SessionRun`, `Names`). The engine is any sequence of steps, each a list of cumulative outputs;
  nothing is assumed of it, and a trace conforms when outputs only extend, belong to open requests
  and have one candidate. The parser that recognises STOP is an arbitrary predicate on token prefixes.
- **Tensor-batch adapter** (`SlotOrder`, `TensorBatchAdapter`, `TensorBatchRuns`). The model call is
  any function of the ordered inputs that may raise or return any rows.
- **Navigation manifests** (`Quantiles`, `EpisodeJoin`, `Manifest`, `Derivatives`, `ManifestSamples`,
  `ManifestRows`, `ManifestBuilder`, `ManifestPublication`, `ManifestTables`, `BuildManifests` for the
  builder; `ManifestValidator`, `ManifestRules`, `ManifestLoader` for the strict loader; `FormalGroups`,
  `ManifestAgreement`, `ManifestAdmission`, `ManifestRoundTrip` for their agreement). A disk is a map from
  paths to contents, a digest an uninterpreted function of contents, a resampler one of pixels.
- **Measurement arithmetic** (`PairedTiming`, `Lossless`, `Percentile`, `Calibration`, `Throughput`,
  `Robotwin`), in exact integers and reals.

Specification functions that a method follows step by step are tied down a second time: predicates
named `Plain...` say the same of the inputs and results alone, in literal constants, and the method
ensures both.

Three findings, each with a concrete case and the exact condition:

- A model call that returns finite, recorded rows in the wrong number raises, yet does not close the
  adapter: the pairing at serve_batch.py:168-170 lies outside the guarded block, although
  serve_batch.py:66-68 documents that no call may follow a model call that failed
  (`WrongCountKeepsAdapterOpen`, `LatchIff`). `NoRowsThenCommit` is one request on one slot, answered by no row.
- A manifest set built into the images root itself is refused for every profile with derived images,
  and one whose annotations are the provenance document or its temporary is refused for all
  (`AdmittedIff`). One episode of seven frames builds such sets: `WalkBuildable` shows that they are
  finished, `WalkLoads` that the loader refuses them and takes the set apart from both.
- The older token loop answers as the newer one exactly when the first stop of the stream ends a block
  and, if it is EOS, the last step is the first to show it (`OlderLoopAgreesIff`). `OlderLoopOverruns`
  and `OlderLoopMissesStop` are blocks with EOS or a parsed STOP inside, whose later tokens it keeps;
  `OlderLoopRefuses` is a request that goes on after EOS, which it does not abort and so refuses at
  benchmark_vllm.py:255-256. All three need an engine other than the one it configures: that one adds
  one token a step (benchmark_vllm.py:139-157 set no speculative decoding) and ends a request with its
  EOS token (:177-185), and then the loops agree (`EndingAtEosAgrees`). A one-request batch reports the
  engine's own finish reason where the single loop reports `max_tokens` (`BatchOfOneAgrees`), as for
  the one token of `ReasonsDiffer`, which the engine ends with the reason `length`.

## Model

| member | source | states |
|---|---|---|
| `Refill.RefillClosed` | benchmarks/activevln-benchmark/benchmark_batch.py:226-230 | Appending pending episodes one by one until the slots are full or the episodes run out gives the active slots followed by the next episodes in order |
| `Refill.RefillFacts` | benchmarks/activevln-benchmark/benchmark_batch.py:226-230 | A refill keeps the active slots in front, keeps episodes ascending and unfinished, loses no work, fills up while episodes wait, and never exceeds the slots |
| `Refill.AdvanceFacts` | benchmarks/activevln-benchmark/benchmark_batch.py:298-304 | One batch takes exactly one frame off the remaining work per slot; the filter keeps order and validity, so remaining frames are a termination measure |
| `RefillTheorems.Coverage` | benchmarks/activevln-benchmark/benchmark_batch.py:225-304 | Every episode appears at its steps 0, 1, 2, ... up to its length, each once and in that order |
| `RefillTheorems.Conservation` | benchmarks/activevln-benchmark/benchmark_batch.py:225-322 | The rows of all batches number exactly the frames selected |
| `RefillTheorems.FullWhilePending` | benchmarks/activevln-benchmark/benchmark_batch.py:226-230 | Every batch formed before some episode's first batch is exactly full |
| `RefillTheorems.MakespanUpper` | benchmarks/activevln-benchmark/benchmark_batch.py:225-304 | Slots times batches is at most total frames plus (slots - 1) times the longest episode |
| `RefillTheorems.FeasibleLower` | benchmarks/activevln-benchmark/benchmark_batch.py:225-304 | No feasible replay, greedy or not, has fewer batches than the longest episode or than total frames over slots |
| `RefillTheorems.ScheduleFeasible` | benchmarks/activevln-benchmark/benchmark_batch.py:225-304 | The greedy schedule is itself feasible: within the slots, each frame once, no episode twice in a batch |
| `RefillTheorems.WithinTwiceOptimal` | benchmarks/activevln-benchmark/benchmark_batch.py:225-304 | Greedy refill needs at most 2 - 1/slots times the batches of any feasible replay |
| `RefillTheorems.MakespanTight` | benchmarks/activevln-benchmark/benchmark_batch.py:225-304 | For any number b of slots the makespan bound is met with equality, by b (b - 1) episodes of one frame followed by one of b frames |
| `BatchReplay.BatchReplay.Admit` | benchmarks/activevln-benchmark/benchmark_batch.py:226-230 | New slots start empty at step 0 on the next pending episodes; the filled list and the cursor are those of the refill |
| `BatchReplay.BatchReplay.Commit` | benchmarks/activevln-benchmark/benchmark_batch.py:278-298 | Logs one row per slot with the output that episode alone would give, stores its memory and moves it on; on a nonfinite output or a wrong row count exactly the earlier slots were committed |
| `BatchReplay.BatchReplay.KeepUnfinished` | benchmarks/activevln-benchmark/benchmark_batch.py:299-304 | Exactly the slots whose step is below the frames of their episode and, if there is a step limit, below the limit are kept, in order |
| `BatchReplay.BatchReplay.CallBatch` | benchmarks/activevln-benchmark/benchmark_batch.py:241-298 | One batch is recorded with its occupancy; its log extends the old one by the batch's keys, or by the prefix before the first nonfinite output |
| `BatchReplay.BatchReplay.Run` | benchmarks/activevln-benchmark/benchmark_batch.py:222-326 | The log is always a prefix of the schedule's rows, all of them on success; for row-wise runtimes the run completes exactly when every episode alone stays finite, and otherwise stops at the first nonfinite row. Read off frames and limit alone: no row is past its episode or the limit, an episode's steps ascend, and a complete log shows every frame below the limit, between 1 and the batch size of them in each batch as counted |
| `BatchReplay.BatchedRefinesAlone` | benchmarks/activevln-benchmark/benchmark_batch.py:222-322 | For a row-wise runtime the log projected on any episode is that episode replayed alone from empty memory |
| `BatchReplay.CompleteCoverage` | benchmarks/activevln-benchmark/benchmark_batch.py:322-326 | After a complete run the log has exactly the expected number of rows, so the coverage check never fails |
| `BatchReplay.CompleteIsFinite` | benchmarks/activevln-benchmark/benchmark_batch.py:278-281 | A complete run of a row-wise runtime means every episode alone is finite at every selected step |
| `BatchReplay.FailedIsNonfinite` | benchmarks/activevln-benchmark/benchmark_batch.py:278-281 | A failed run of a row-wise runtime means some episode alone gives a nonfinite output |
| `BatchReplay.LoggedInTurn` | benchmarks/activevln-benchmark/benchmark_batch.py:278-298 | For each episode there is one chain of outcomes, each the runtime's answer to the frame alone with the memory of the one before, and every logged row of the episode is the finite outcome of its step |
| `StopRouting.StoppingPrefix` | benchmarks/activevln-benchmark/benchmark_vllm_modern.py:37-53 | Scans only the tokens not checked before; keeps all when none ends in 151643, in 151645 or a parsed STOP there, else the tokens up to the first that does, named "eos" for either token and "stop" otherwise |
| `StopRouting.ScanSuffix` | benchmarks/activevln-benchmark/benchmark_vllm_modern.py:45-53 | Scanning the unchecked part of an extended stream finds the shortest stopping prefix of the whole stream |
| `StopRouting.ShortestUnique` | benchmarks/activevln-benchmark/benchmark_vllm_modern.py:40-53 | A stream has at most one shortest stopping prefix |
| `StopRouting.OverrunIsInvisible` | benchmarks/activevln-benchmark/benchmark_vllm_modern.py:40-44 | Tokens the engine verified past the stop never change what is kept |
| `StopRouting.RouteOne` | benchmarks/activevln-benchmark/benchmark_vllm_batch.py:95-116 | Handling one faultless output updates its own record rightly and leaves all others right |
| `StopRouting.Route` | benchmarks/activevln-benchmark/benchmark_vllm_batch.py:95-116 | One output is refused exactly when it is faulty judged by the raw trace (unknown or ended request, several candidates, rewritten tokens), with that fault; otherwise records and finished set stay those of the trace |
| `StopRouting.RouteStep` | benchmarks/activevln-benchmark/benchmark_vllm_batch.py:93-116 | One engine step handles its outputs in order up to the first fault |
| `StopRouting.CollectOutputs` | benchmarks/activevln-benchmark/benchmark_vllm_batch.py:76-119 | Returns the one admissible answer for every trace: duplicate ids, else the first fault, else ended early, else for every request the shortest stopping prefix of its own stream, its returned count and its reason. In terms of outputs and tokens alone: no kept token before the last is 151643 or 151645, nor is a kept prefix a STOP; the reason is "eos" exactly after one of these two, and a list that ends in no stop is the whole stream of a finished request with the engine's reason or max_tokens |
| `StopRouting.VerdictPlainly` | benchmarks/activevln-benchmark/benchmark_vllm_batch.py:76-119 | An answer admissible by the first fault and the shortest prefix is right about the outputs alone: it succeeds exactly for distinct ids, sound outputs and ended requests, and each error names the first output that is wrong, and why, or the request left open |
| `GenerationLoops.KeptIsStreamStop` | benchmarks/activevln-benchmark/benchmark_vllm_batch.py:92-119 | What is kept for a request depends on its token stream only |
| `GenerationLoops.BlocksDoNotMatter` | benchmarks/activevln-benchmark/benchmark_vllm_batch.py:92-119 | Two traces that deliver one request's stream in different blocks keep the same tokens for it |
| `GenerationLoops.InterleavingDoesNotMatter` | benchmarks/activevln-benchmark/benchmark_vllm_batch.py:92-119 | Dropping all outputs of other requests leaves a request's record unchanged |
| `GenerationLoops.ModernCall` | benchmarks/activevln-benchmark/benchmark_vllm_modern.py:319-339 | For any trace keeps the first stop past what earlier blocks showed, if it comes before a misfit; else refuses the misfit by its kind or a trace without tokens, or keeps the last nonempty block. On cumulative blocks that is the shortest stopping prefix of the first block that has one. In terms of steps alone: the tokens begin a block some step shows, all steps to there being of the request, with "eos" exactly after 151643 or 151645 |
| `GenerationLoops.NativeCall` | benchmarks/activevln-benchmark/benchmark_vllm.py:231-256 | For any trace keeps the first block that ends in EOS or parses to STOP as a whole, if it comes before a misfit, but refuses it when it ends in EOS and steps of the trace remain; else refuses the misfit by its kind or a trace without tokens, or keeps the last block; and the same in terms of steps and tokens alone |
| `GenerationLoops.BatchOfOneAgrees` | benchmarks/activevln-benchmark/benchmark_vllm_modern.py:319-339 | A one-request batch collects the tokens of the single-request loop; their stop reasons agree exactly when a stop was found or the engine names none of its own |
| `GenerationLoops.ReasonsDiffer` | benchmarks/activevln-benchmark/benchmark_vllm_batch.py:92-119 | On one token ended by the engine for length, a batch of one records length and the newer loop max_tokens |
| `GenerationLoops.KeepSameTokens` | benchmarks/activevln-benchmark/benchmark_vllm.py:234-253 | The older loop finds the same tokens for the same reason as the newer exactly when the stream has no stop or some block is its shortest stopping prefix |
| `GenerationLoops.OlderLoopAgreesIff` | benchmarks/activevln-benchmark/benchmark_vllm.py:231-256 | Both loops answer alike, refusals included, exactly when the stream has no stop, or its first stop ends some block and, if it is EOS, no step before the last shows a stop |
| `GenerationLoops.OlderLoopOverruns` | benchmarks/activevln-benchmark/benchmark_vllm.py:234-253 | On one block with EOS inside it, which takes an engine that adds several tokens a step, the newer loop keeps the tokens up to EOS and the older one all of them, as max_tokens |
| `GenerationLoops.OlderLoopMissesStop` | benchmarks/activevln-benchmark/benchmark_vllm.py:250-253 | On one block with a parsed STOP inside it the newer loop keeps the tokens up to STOP and the older one all of them, as max_tokens |
| `GenerationLoops.OlderLoopRefuses` | benchmarks/activevln-benchmark/benchmark_vllm.py:244-256 | When EOS ends the first block and the engine goes on, the newer loop keeps that block and the older call is refused |
| `GenerationLoops.OneTokenStepsAgree` | benchmarks/activevln-benchmark/benchmark_vllm.py:231-256 | With at most one new token per step the older loop answers as the newer on every stream, except that it refuses a stream whose first stop is EOS when a step before the last showed a stop |
| `GenerationLoops.EndingAtEosAgrees` | benchmarks/activevln-benchmark/benchmark_vllm.py:139-185 | With at most one new token per step, and no step but the last showing a block that ends in EOS, as the engine is configured, both loops answer alike |
| `SessionReplay.ReplaySession.Open` | benchmarks/activevln-benchmark/benchmark_vllm_batch.py:206-215 | Opening a request appends the turn text, the frame and a fresh image name, and keeps the session invariant |
| `SessionReplay.ReplaySession.Close` | benchmarks/activevln-benchmark/benchmark_vllm_batch.py:240-246 | Closing appends exactly the kept tokens, giving one more complete turn |
| `SessionReplay.KeptIsMinimal` | benchmarks/activevln-benchmark/benchmark_vllm_batch.py:108-109 | No stop lies strictly inside the tokens a correct record keeps |
| `SessionReplay.CollectedMinimal` | benchmarks/activevln-benchmark/benchmark_vllm_batch.py:234-246 | Every record of a successful collection may enter history: no token follows a stop in it |
| `SessionReplay.RequestsDistinct` | benchmarks/activevln-benchmark/benchmark_vllm_batch.py:216 | The request names of a batch are distinct |
| `SessionReplay.SessionReplay.CallBatch` | benchmarks/activevln-benchmark/benchmark_vllm_batch.py:184-293 | Refuses bad or shared batches before touching a session; otherwise every session gains its image, and on success one turn with its own request's kept tokens, on an engine fault no turn |
| `SessionRun.SessionRun.Admit` | benchmarks/activevln-benchmark/benchmark_vllm_batch.py:384-388 | Free places get sessions of the next episodes under the names measure-id; active sessions keep their order |
| `SessionRun.SessionRun.Finish` | benchmarks/activevln-benchmark/benchmark_vllm_batch.py:396-400 | Logs one row per session, each the record its own request must have by the outputs of its batch, with the tokens that entered its history, and moves every session one step on |
| `SessionRun.SessionRun.KeepUnfinished` | benchmarks/activevln-benchmark/benchmark_vllm_batch.py:401-405 | Exactly the sessions whose step is below the frames of their episode and, if there is a step limit, below the limit are kept, in order |
| `SessionRun.SessionRun.Pass` | benchmarks/activevln-benchmark/benchmark_vllm_batch.py:383-405 | One pass keeps the run invariant: history is the turns so far, images and names number the completed steps, and row by row the log has the schedule's request and the record that request's own stream calls for; it goes on exactly when the engine's trace is good |
| `SessionRun.SessionRun.Run` | benchmarks/activevln-benchmark/benchmark_vllm_batch.py:381-425 | The replay completes exactly when every batch's engine trace conforms and ends all its requests; then every episode has as many turns as frames or the step limit, whichever is smaller, the log shows each of them, its record being what the last output of its own request calls for, and no token follows 151643, 151645 or a parsed STOP in any history. A failed replay stops before the first bad trace |
| `SessionRun.KeptFromEngine` | benchmarks/activevln-benchmark/benchmark_vllm_batch.py:92-119 | In a finished replay the kept tokens of every turn are the shortest stopping prefix, or all, of the stream of the request at that turn's place of the schedule |
| `SessionRun.ImageNamesNeverRepeat` | benchmarks/activevln-benchmark/benchmark_vllm_batch.py:215 | No image name is used twice, within a session or across sessions of distinct episodes |
| `Names.FrameIdInjective` | benchmarks/activevln-benchmark/benchmark_vllm_batch.py:215 | A frame name determines its session and frame number, whatever the session is called |
| `Names.RequestIdInjective` | benchmarks/activevln-benchmark/benchmark_vllm_batch.py:216 | A request name determines its call and place |
| `Names.SessionIdInjective` | benchmarks/activevln-benchmark/benchmark_vllm_batch.py:388 | Sessions of distinct episode ids, negative ones included, have distinct names |
| `Names.NamesSpelled` | benchmarks/activevln-benchmark/benchmark_vllm_batch.py:215-216 | Session 12 is measure-12, its first image measure-12-frame-0, request 0 of call 12 batch-12-request-0, and frame 7 at 320 by 240 is 7_320x240 |
| `SlotOrder.OrderedFacts` | benchmarks/activevln-benchmark/serve_batch.py:77-78 | The ordered list is ascending by slot and holds the same requests |
| `SlotOrder.SortedUnique` | benchmarks/activevln-benchmark/serve_batch.py:77-78 | Distinct slots make the sorted list unique |
| `SlotOrder.ArrivalOrderIrrelevant` | benchmarks/activevln-benchmark/serve_batch.py:66-78 | Permuting a batch leaves the list the runtime sees unchanged |
| `TensorBatchAdapter.TensorBatchAdapter.Decode` | benchmarks/activevln-benchmark/serve_batch.py:79-84 | Decodes in slot order and fails exactly when some request has not one decodable image of the right name |
| `TensorBatchAdapter.TensorBatchAdapter.Execute` | benchmarks/activevln-benchmark/serve_batch.py:103-175 | The model phase latches on its own failures; memories and index change only when every row is finite, recorded and paired, and then for all rows at once |
| `TensorBatchAdapter.TensorBatchAdapter.InferBatch` | benchmarks/activevln-benchmark/serve_batch.py:63-175 | The whole call is one adapter step: refusals in order, latch, all-or-nothing commit, and reply i answering request i. In terms of the requests alone: a successful call feeds each request's own image, instruction and memory by slot and stores each row's memory under its session, a refused one names something wrong and changes nothing but the latch |
| `TensorBatchAdapter.TensorBatchAdapter.Infer` | benchmarks/activevln-benchmark/serve_batch.py:59-61 | A single request is a batch of one |
| `TensorBatchAdapter.TensorBatchAdapter.Reset` | benchmarks/activevln-benchmark/serve_batch.py:181-186 | Forgets one session only; the resident resets grow by one exactly with resident KV and when the session held a memory, and index and latch stand |
| `TensorBatchRuns.RaisingChangesNothing` | benchmarks/activevln-benchmark/serve_batch.py:85-171 | A raising call changes no memory and no index |
| `TensorBatchRuns.LatchIff` | benchmarks/activevln-benchmark/serve_batch.py:103-170 | A raising call that reached the model latches exactly unless the model returned finite, recorded rows (in the wrong number) |
| `TensorBatchRuns.WrongCountKeepsAdapterOpen` | benchmarks/activevln-benchmark/serve_batch.py:66-68 | Against the documented promise, a model call returning too few rows raises and yet leaves the adapter usable |
| `TensorBatchRuns.NoRowsThenCommit` | benchmarks/activevln-benchmark/serve_batch.py:159-175 | With one slot and one request, an empty row list raises and the same request commits on the next call |
| `TensorBatchRuns.PermutedCallsAgree` | benchmarks/activevln-benchmark/serve_batch.py:66-175 | The same call in another arrival order is refused for the same reason or not at all, gives the same memories, and each request the same reply |
| `TensorBatchRuns.OnceFailed` | benchmarks/activevln-benchmark/serve_batch.py:86-87 | Over every run, after the latch no call commits, the index stands and memories only disappear by reset |
| `TensorBatchRuns.IndexCounts` | benchmarks/activevln-benchmark/serve_batch.py:171 | Over every run the index counts exactly the successful calls |
| `TensorBatchRuns.ResetsCount` | benchmarks/activevln-benchmark/serve_batch.py:181-186 | Over every run the resident resets number exactly the resets of a session with a successful call since its reset before, and none without resident KV |
| `TensorBatchRuns.CommitFolds` | benchmarks/activevln-benchmark/serve_batch.py:110-170 | A successful call steps each served session's memory by its own row and leaves the others |
| `TensorBatchRuns.MemoryIsFold` | benchmarks/activevln-benchmark/serve_batch.py:103-186 | Over every run of calls, failures and resets, a session's memory is the fold of exactly its successful calls since its last reset |
| `Quantiles.Ends` | benchmarks/3B-navigation/prepare_r2r_vlnce_manifest.py:144-154 | Both forms hit index 0 and the last index |
| `Quantiles.Gaps` | benchmarks/3B-navigation/prepare_r2r_vlnce_manifest.py:149-150 | Neighbouring indices differ by one of two consecutive numbers, in both forms |
| `Quantiles.Nearest` | benchmarks/3B-navigation/prepare_r2r_vlnce_manifest.py:149-150 | The rounding form is within half a rank of the exact position, the later of two as near; the floor form never exceeds it |
| `Quantiles.SelectIncreasing` | benchmarks/3B-navigation/prepare_r2r_vlnce_manifest.py:144-154 | Over strictly increasing values with enough of them the selection succeeds, is strictly increasing, takes both ends and at each rank the value nearest to it, the later of two as near, and for a count of one the middle value, the earlier of two: the duplicate error is unreachable |
| `Quantiles.UniformFacts` | benchmarks/gr00t-benchmark/benchmark.py:44-51 | Fails exactly unless 1 <= count <= length; otherwise strictly increasing indices in range with both ends, each the exact position rounded down |
| `EpisodeJoin.CheckActions` | benchmarks/3B-navigation/prepare_r2r_vlnce_manifest.py:128-137 | Accepts exactly a leading dummy followed by navigation actions |
| `EpisodeJoin.EligibleIsRange` | benchmarks/3B-navigation/prepare_r2r_vlnce_manifest.py:251-258 | For validated actions the eligibility filter keeps the whole range of steps |
| `EpisodeJoin.JoinNext` | benchmarks/3B-navigation/prepare_r2r_vlnce_manifest.py:213-271 | Reading one annotation check by check gives what JoinOne says: the first check that fails, nothing, or the joined episode. In its own fields: an error names something wrong with it, an episode is given exactly when it is acceptable and its directory long enough, and has the annotation's own id, scene, frames and actions and the steps nearest to the quantiles |
| `EpisodeJoin.JoinOneFacts` | benchmarks/3B-navigation/prepare_r2r_vlnce_manifest.py:213-271 | Every joined episode has the actions of its annotation and the frames of its listed directory, aligned, with consecutive names, its training instruction, and increasing steps from the first to the last with history and neighbours in bounds; the quantile error never occurs, and a listed episode is skipped exactly when too short |
| `EpisodeJoin.SortFacts` | benchmarks/3B-navigation/prepare_r2r_vlnce_manifest.py:272 | Sorting by id keeps the episodes and gives increasing ids |
| `EpisodeJoin.Join` | benchmarks/3B-navigation/prepare_r2r_vlnce_manifest.py:201-277 | Succeeds exactly when every annotation of a training episode is acceptable, none repeats an episode already joined, and enough have a directory long enough; the result is the first of these by id, each with the id, actions, scene and listed frames of its annotation and the steps nearest to the quantiles |
| `EpisodeJoin.FirstPlainly` | benchmarks/3B-navigation/prepare_r2r_vlnce_manifest.py:272-277 | The first episodes by id of what the annotations give, which the builder uses, are those annotations' own, in terms of their fields alone |
| `Names.SizedStemInjective` | benchmarks/3B-navigation/prepare_r2r_vlnce_manifest.py:310-316 | A sized file name determines stem and size |
| `Manifest.DerivedPathIff` | benchmarks/3B-navigation/prepare_r2r_vlnce_manifest.py:309-316 | Two derived paths are equal exactly when category, size, directory and stem are |
| `Derivatives.Derivatives.SizeOf` | benchmarks/3B-navigation/prepare_r2r_vlnce_manifest.py:292-298 | Reads a source's size once, refusing what is not a JPEG, and remembers it |
| `Derivatives.Derivatives.SourceHash` | benchmarks/3B-navigation/prepare_r2r_vlnce_manifest.py:300-303 | Hashes a source once and remembers it |
| `Derivatives.Derivatives.Fit` | benchmarks/3B-navigation/prepare_r2r_vlnce_manifest.py:305-350 | A known key is answered without touching anything; a new one writes temporary then destination, hashes, sizes and records, each failure leaving exactly what was done before it |
| `Derivatives.FitKeeps` | benchmarks/3B-navigation/prepare_r2r_vlnce_manifest.py:305-350 | A successful fit keeps: each key recorded once under its derived path, latest records describing the files, numbered and foreign files untouched, of the files there before exactly the temporaries of fitted keys gone, caches true |
| `Derivatives.FitSucceeds` | benchmarks/3B-navigation/prepare_r2r_vlnce_manifest.py:305-350 | Fitting a numbered frame below the root that was a JPEG image at the start succeeds at any point of any run |
| `Derivatives.RunKeeps` | benchmarks/3B-navigation/prepare_r2r_vlnce_manifest.py:305-350 | Any successful sequence of fits keeps those invariants and answers each key with its own path |
| `Derivatives.DestinationsMeetIff` | benchmarks/3B-navigation/prepare_r2r_vlnce_manifest.py:309-316 | Distinct keys share a destination exactly when their sources differ by suffix alone |
| `Derivatives.AllHoldIff` | benchmarks/3B-navigation/prepare_r2r_vlnce_manifest.py:335-349 | Every recorded hash is the final file's exactly when records sharing a path agree |
| `Derivatives.DistinctStemsHold` | benchmarks/3B-navigation/prepare_r2r_vlnce_manifest.py:335-349 | With distinct stems per directory, all outputs are distinct, every recorded hash is that of the file finally there, and that file is its own numbered source resampled |
| `Derivatives.SuffixesCollide` | benchmarks/3B-navigation/prepare_r2r_vlnce_manifest.py:310-316 | 1.jpg beside 1.jpeg: the later fit overwrites the earlier image and its recorded hash is wrong |
| `ManifestRows.NavidaRow` | benchmarks/3B-navigation/prepare_r2r_vlnce_manifest.py:426-439 | The navigation row names the fitted or the source frames, which are then recorded |
| `ManifestRows.MakePanoramic` | benchmarks/3B-navigation/prepare_r2r_vlnce_manifest.py:448-472 | The panoramic row names fitted panoramas and the four temporal neighbours with their angles and distances in order |
| `ManifestRows.AddSample` | benchmarks/3B-navigation/prepare_r2r_vlnce_manifest.py:405-486 | One sample's four rows, with every image they name fitted and recorded; in terms of frames and actions alone: current, history and candidate images are those of steps k, k-4..k-1 and k-2, k-1, k+1, k+2 with angles and distances, the responses name the actions k-3..k as Stop, Move, Left and Right, the distance is a quarter metre per forward action, and the move and the action chosen are those of step k+1 |
| `ManifestSamples.SampleAt` | benchmarks/3B-navigation/prepare_r2r_vlnce_manifest.py:403-404 | Sample e * steps + q is quantile q of episode e |
| `ManifestSamples.SampleFrom` | benchmarks/3B-navigation/prepare_r2r_vlnce_manifest.py:403-404 | Every sample position determines its episode and quantile |
| `ManifestSamples.HistoryMatchesDistance` | benchmarks/3B-navigation/prepare_r2r_vlnce_manifest.py:407-414 | The distance covered over a sample's history is a quarter metre per "Move" among its responses |
| `Names.SampleIdInjective` | benchmarks/3B-navigation/prepare_r2r_vlnce_manifest.py:407 | A sample name determines episode, quantile and frame, whatever the padding |
| `ManifestBuilder.NeedsResize` | benchmarks/3B-navigation/prepare_r2r_vlnce_manifest.py:386-398 | Resizing is needed exactly when some used frame is not 320 by 240, in whatever order frames are read; it fails only if some used frame is no JPEG |
| `ManifestBuilder.BuildRows` | benchmarks/3B-navigation/prepare_r2r_vlnce_manifest.py:399-486 | The tables hold the rows of every quantile of every episode in order, and every image named is recorded |
| `ManifestTables.TablesPlainly` | benchmarks/3B-navigation/prepare_r2r_vlnce_manifest.py:399-486 | In the tables of all samples, row e * steps + q is that of quantile q of episode e: its frames, responses, distance, move, candidates and action said in terms of that episode's frames and actions |
| `ManifestBuilder.FramesDistinct` | benchmarks/3B-navigation/prepare_r2r_vlnce_manifest.py:234-247 | Numbered frames of different episode directories never collide: one stem names one frame of a directory |
| `ManifestPublication.Publish` | benchmarks/3B-navigation/prepare_r2r_vlnce_manifest.py:488-494 | Writes the three manifests through temporaries and describes each by path, hash and count |
| `ManifestPublication.FinishedSet` | benchmarks/3B-navigation/prepare_r2r_vlnce_manifest.py:488-554 | After the last write, every derivative and source stands with its recorded hash, all documents are there, and inputs are as hashed unless their path was the provenance document's |
| `ManifestTables.CompletePlainly` | benchmarks/3B-navigation/prepare_r2r_vlnce_manifest.py:357-559 | A finished set in terms of frames, actions and files alone: the tables of every sample, each derived image they name backed by a derivative on disk with its source's pixels resampled, all hashes, counts and header fields, and resizing exactly when some used frame is not 320 by 240 |
| `BuildManifests.Build` | benchmarks/3B-navigation/prepare_r2r_vlnce_manifest.py:357-559 | Succeeds exactly when counts and depth are right, both inputs read well, the annotations give enough episodes, every frame these use is a JPEG and no image or manifest is written through the annotations; the set is then complete for those episodes, also in terms of frames, actions and files alone, and nothing outside the output directory and no numbered file changed |
| `ManifestValidator.AllDerivativesIff` | benchmarks/3B-navigation/dataset.py:561-587 | Derivatives are admissible exactly when their paths are safe and present and every hash they declare is the file's |
| `ManifestValidator.CheckDerivatives` | benchmarks/3B-navigation/dataset.py:556-587 | Collecting declarations, rejecting conflicts and hashing once admits exactly the derivatives that hold |
| `ManifestLoader.ManifestImages` | benchmarks/3B-navigation/dataset.py:448-468 | Collects exactly the image paths the records name, or refuses a record without its profile's image |
| `ManifestLoader.CheckCoverage` | benchmarks/3B-navigation/dataset.py:589-593 | Passes exactly when every image named is vouched for by the source or the output hashes, chosen by data root |
| `ManifestLoader.GroupByEpisode` | benchmarks/3B-navigation/dataset.py:620-633 | Groups the selected records by episode in order |
| `ManifestLoader.CheckGroups` | benchmarks/3B-navigation/dataset.py:620-644 | Passes exactly for 48 episodes, each with quantiles 0 to 3 at four distinct frames |
| `ManifestLoader.CheckFormal` | benchmarks/3B-navigation/dataset.py:608-669 | Passes exactly for 48 by 4 counts, good groups, full histories and the classification |
| `ManifestLoader.ValidateProvenance` | benchmarks/3B-navigation/dataset.py:490-681 | Passes exactly for admitted provenance |
| `ManifestLoader.Load` | benchmarks/3B-navigation/dataset.py:685-737 | Succeeds exactly for loadable input, also in terms of files, records and declared hashes alone, and returns the first records; without provenance nothing is verified and formal is false |
| `ManifestRules.LoadablePlainly` | benchmarks/3B-navigation/dataset.py:471-737 | The loader's checks together admit exactly a directory with a JSON manifest of distinct ids whose first records have images of the profile's sizes at safe paths and, under a provenance, its header, counts, roots and hashes, every mentioned image among its derivatives and, when formal, 48 episodes |
| `ManifestRules.ParsesIff` | benchmarks/3B-navigation/dataset.py:229-398 | A record parses exactly when it has an id, an instruction with text, its images at safe paths as pictures, of 320 by 240 for navigation and candidates and 960 by 240 for panoramas, responses matching its history and no negative distance |
| `ManifestRules.GroupIff` | benchmarks/3B-navigation/dataset.py:620-644 | An episode's group is good exactly when its selected records show each of the quantiles 0 to 3 once, at four different frames |
| `FormalGroups.RegularGroups` | benchmarks/3B-navigation/dataset.py:620-644 | 48 episodes of four increasing steps in order form 48 good groups |
| `ManifestAgreement.StandsIsOk` | benchmarks/3B-navigation/dataset.py:566-587 | A derivative the builder left standing passes every check of the loader |
| `ManifestAgreement.PanoramicGood` | benchmarks/3B-navigation/dataset.py:311-398 | Every panoramic record of a finished set is covered and parses in the demanded sizes |
| `ManifestAgreement.NavidaSourceGood` | benchmarks/3B-navigation/dataset.py:280-308 | Without resizing, every navigation record names covered 320 by 240 source frames |
| `ManifestAgreement.IdsUnique` | benchmarks/3B-navigation/prepare_r2r_vlnce_manifest.py:407-486 | Sample ids equal the selected ids in order and never repeat |
| `ManifestAgreement.FormalPasses` | benchmarks/3B-navigation/dataset.py:608-665 | A finished 48 by 4 set has all groups and histories for all three profiles |
| `ManifestAdmission.SharedDirectoryFails` | benchmarks/3B-navigation/dataset.py:589-593 | With the images root as output directory, derived images are vouched for by nothing |
| `ManifestAdmission.AdmittedIff` | benchmarks/3B-navigation/dataset.py:471-737 | A finished set is admitted under its provenance exactly when the limit fits, formal sets are 48 by 4, derived images have an output directory of their own, and the annotations are neither the provenance document nor its temporary |
| `ManifestAdmission.AllProfilesAdmitted` | benchmarks/3B-navigation/prepare_r2r_vlnce_manifest.py:357-559 | Every 48 by 4 set the builder finishes apart from the images root is admitted formally for all three profiles |
| `ManifestRoundTrip.BuildThenLoad` | benchmarks/3B-navigation/dataset.py:471-737 | Built and then loaded: the load succeeds exactly when the limit fits, formal sets are 48 by 4, derived images have a directory of their own and the annotations outlive the provenance document |
| `ManifestRoundTrip.WalkBuildable` | benchmarks/3B-navigation/prepare_r2r_vlnce_manifest.py:357-559 | One episode of seven frames builds a finished set wherever the output is, the images root included, and with the annotations in place of the provenance or of its temporary |
| `ManifestRoundTrip.WalkLoads` | benchmarks/3B-navigation/dataset.py:471-737 | The loader refuses that set exactly when its derived images share the images root or the provenance replaces or removes its annotations |
| `PairedTiming.BenchmarkPaired` | benchmarks/numerical_validation.py:278-328 | Fails exactly for fewer than two modes or nonpositive counts; otherwise sample i * modes + p is case i modulo the cases under the mode at place p of round i, forwards in even rounds and backwards in odd ones, with the wall time of its slot |
| `PairedTiming.SameCases` | benchmarks/numerical_validation.py:306-309 | Every mode is measured on the same cases in the same order |
| `PairedTiming.DriftDifference` | benchmarks/numerical_validation.py:304-323 | A linear drift treats two modes alike after an even number of rounds, and is off by their distance after an odd one |
| `PairedTiming.DriftFairIff` | benchmarks/numerical_validation.py:289-293 | A genuine linear drift adds the same to every mode exactly when the number of rounds is even |
| `PairedTiming.AbbaSchedule` | benchmarks/3B-navigation/benchmark_history_image_cache.py:461-490 | The sessions run ABBA in even and BAAB in odd iterations: session k is uncached exactly for k modulo 8 in 0, 3, 5 and 6 |
| `PairedTiming.AbbaFairIff` | benchmarks/3B-navigation/benchmark_history_image_cache.py:461-490 | Summed over the sessions of each mode in the schedule produced, a drift quadratic in the slot balances exactly when it has no bend or the iterations are even in number; a linear one always |
| `PairedTiming.BenchmarkRequests` | benchmarks/numerical_validation.py:223-275 | Fails exactly for nonpositive counts; otherwise the samples of a summarised case are those of its own turns in order, no case has more than one sample beyond another, none has no sample and no sample is left out |
| `Lossless.Compare` | benchmarks/numerical_validation.py:66-115 | Passes exactly when shape, type, finiteness, all three metrics and, if asked, bytes agree; lists each failure exactly when its own test fails and once. Of the numbers alone: the largest error is reached and bounds all, each root mean square squared and times the count is the sum of squares, and the relative one times the larger of reference and floor is the error's |
| `Lossless.MetricsPlainly` | benchmarks/numerical_validation.py:84-103 | The metrics of comparable snapshots bound every difference, are reached, and square to the means of the squared differences and values |
| `Lossless.RmsIsPlain` | benchmarks/numerical_validation.py:118-122 | The rescaled root mean square is the plain one |
| `Lossless.RatiosBounded` | benchmarks/numerical_validation.py:100-103 | Every square it takes lies in [0, 1] |
| `Lossless.RmsBounds` | benchmarks/numerical_validation.py:98-103 | rms squared is at most the largest error squared, which is at most n times rms squared |
| `Lossless.LosslessIff` | benchmarks/numerical_validation.py:66-115 | The lossless gate passes exactly for nonempty finite snapshots of equal shape, type and bytes |
| `Lossless.CompareTraces` | benchmarks/numerical_validation.py:125-145 | Passes exactly for a nonempty reference, equal keys and all pairs passing; every shared key has the row its two snapshots alone give |
| `Lossless.LosslessEquivalence` | benchmarks/numerical_validation.py:125-145 | On traces the lossless gate is symmetric and transitive, and reflexive exactly on sound traces |
| `Percentile.FormsAgree` | benchmarks/attention_split.py:82-93 | The two interpolated percentile forms agree for every nonempty sample list and fraction in [0, 1] |
| `Percentile.Between` | benchmarks/3B-navigation/benchmark_history_image_cache.py:58-64 | The percentile lies between the adjacent order statistics |
| `Percentile.AtRank` | benchmarks/attention_split.py:82-93 | At fraction k / (n - 1) the percentile is the sample of rank k |
| `Percentile.BetweenRanks` | benchmarks/attention_split.py:82-93 | A part w of the way between two ranks gives the point the same part of the way between their samples |
| `Percentile.Extremes` | benchmarks/attention_split.py:82-93 | Fraction 0 gives the smallest sample and fraction 1 the largest |
| `Percentile.Monotone` | benchmarks/attention_split.py:89-91 | A larger fraction never gives a smaller percentile |
| `Percentile.OrderIrrelevant` | benchmarks/attention_split.py:87-93 | The order of the samples is irrelevant |
| `Percentile.RankIsCeiling` | benchmarks/3B-navigation/benchmark.py:144-146 | The index is 19 n / 20 rounded up, less one, and in range |
| `Percentile.RankCovers` | benchmarks/3B-navigation/benchmark.py:144-156 | At least 95 in 100 samples are at or below the reported one |
| `Calibration.Tolerance` | benchmarks/kernel_tuning/calibration.py:165 | The absolute tolerance is the largest of its three floors |
| `Calibration.BoundReached` | benchmarks/kernel_tuning/calibration.py:160-171 | The residual and the largest error bound every element and are reached |
| `Calibration.BoundPlainly` | benchmarks/kernel_tuning/calibration.py:146-172 | A derived residual is the least slack with which every value lies within its reference plus or minus eps times the reference, the largest error the least without that, and the tolerance the largest of its three floors |
| `Calibration.BaselineAccepted` | benchmarks/kernel_tuning/calibration.py:146-172 | A tolerance is derived exactly for a finite floating baseline of the shape of a finite float64 reference; every value of that baseline then lies between its reference minus and plus the threshold, with the residual at most half of atol |
| `Calibration.CompareCalibrated` | benchmarks/kernel_tuning/calibration.py:175-198 | Succeeds exactly when, output by output, layouts agree and every value lies between its reference minus and plus atol + rtol times the reference; the two maxima bound every difference, absolutely and in units of the larger of reference and atol, and each is reached or zero |
| `Calibration.AcceptedIff` | benchmarks/kernel_tuning/calibration.py:175-198 | Comparing magnitudes of errors accepts exactly the outputs whose values lie in those intervals |
| `Calibration.RelativeBound` | benchmarks/kernel_tuning/calibration.py:191-197 | An accepted element reports relative error at most 1 + rtol |
| `Calibration.CalibrationSelfConsistent` | benchmarks/kernel_tuning/calibration.py:247-253 | Every output passes under the bound derived from itself, so calibration never refuses its own baseline |
| `Throughput.TaskGroups` | benchmarks/gr00t-benchmark/throughput.py:164-167 | The groups are the maximal runs of equal tasks, covering the dataset in order |
| `Throughput.BatchGroup` | benchmarks/gr00t-benchmark/throughput.py:232-233 | A group is cut into nonempty single-task batches, all full but the last |
| `Throughput.MeasuredRows` | benchmarks/gr00t-benchmark/throughput.py:231-256 | Every sample is measured exactly once, in dataset order, in single-task batches no larger than asked; a batch short of that is the last or the task changes after it |
| `Throughput.MeasurementComplete` | benchmarks/gr00t-benchmark/throughput.py:249-272 | Counting observations without padding gives the dataset's size |
| `Throughput.PaddedKeeps` | benchmarks/gr00t-benchmark/throughput.py:24-26 | Padding keeps all observations in front and repeats the last |
| `Throughput.Collate` | benchmarks/gr00t-benchmark/throughput.py:18-39 | Fails exactly for unequal token counts; otherwise concatenates the padded observations' rows |
| `Throughput.CheckGroup` | benchmarks/gr00t-benchmark/throughput.py:171-177 | The batch runs cyclically through the group so that the reference sits at exactly its slot |
| `Throughput.SliceIsObservation` | benchmarks/gr00t-benchmark/throughput.py:196-203 | With equal rows per observation the slice at the slot is that observation's rows |
| `Throughput.ReferenceRecovered` | benchmarks/gr00t-benchmark/throughput.py:190-203 | Preparing and batching the samples of a check group and slicing at its slot gives back the rows of the reference sample's own preparation |
| `Robotwin.RoundTripIff` | benchmarks/lingbot-vla-benchmark/benchmark.py:527-571 | Restoring a normalised column gives back every value exactly when state and action statistics agree |
| `Robotwin.PrepareState` | benchmarks/lingbot-vla-benchmark/benchmark.py:537-542 | The arms in columns 0 to 11, joints 6 and 13 in 14 and 15, zero elsewhere; one more than a column times its quantile width is twice the joint's distance from the low quantile |
| `Robotwin.LayoutRoundTrip` | benchmarks/lingbot-vla-benchmark/benchmark.py:533-575 | With equal statistics, restoring the prepared state gives back all fourteen joints column for column |
| `Robotwin.ResizedIs` | benchmarks/lingbot-vla-benchmark/benchmark.py:546-548 | A resized side is 224 times it over the longer side, rounded down |
| `Robotwin.ResizeFits` | benchmarks/lingbot-vla-benchmark/benchmark.py:546-552 | Padding is never negative, the longer side is filled exactly, and a side vanishes exactly beyond an aspect of 224 |

## Left out

- Tensors, CUDA streams, events, graph capture, attention kernels and the engines behind them: a model call is a function from inputs to rows, an engine a trace of outputs.
- Settling of pipelined engine steps after a stop, timers, counters, graph and input audits, cache statistics and report writing.
- The resident-KV reset after the last replay batch, and the warmup calls before a measured run.
- Floating-point rounding everywhere: metrics, percentiles, tolerances and resizing are exact; overflow to a nonfinite metric therefore cannot occur in `Lossless.Compare`.
- GenerationLoops.NativeCall: does not promise a call for every stream that only extends, because the source refuses one that goes on after EOS.
- Robotwin.ResizeFits: does not model that rounding may make the longer side 223 instead of 224, because the ratio is exact here.
- Percentile.FormsAgree: covers fractions from 0 to 1, the range a percentile has. Outside it the forms differ: at a negative position one rounds down to a negative index, which wraps, and the other truncates, to 0 for positions above -1 and to a negative index below that; above 1 one indexes past the samples as soon as its position does, the other only when its truncated position does.
- Symbolic links, home directories and relative inputs: paths are resolved ones, with a name split at its last dot.
- JSON syntax and the types of JSON fields: records, provenance and annotations are typed values, and a document is malformed or read whole. Unknown-field checks appear only where one profile's record is read under another.
- Whitespace and digits beyond ASCII in instructions and frame names, and the case of file suffixes.
- The listing of episode directories and the pattern that splits a video name into scene and episode: both are inputs of the join, frames already in the order of their numbers.
- Image decoding and EXIF rotation: an image has a size, the one after rotation.
- Byte-level hashing and text digests: digests are functions of contents, assumed 64 characters long, and in `ManifestAdmission.AdmittedIff` annotations that lie where the provenance document goes are assumed to have another digest than it.
- Percentile summaries, medians and throughput ratios computed by numerical libraries.
- Concurrency in the adapter: its lock makes each call and reset one step, which is how runs are modelled.
- The remaining drivers, request validators and compatibility checks: single conditions that would only add easy members.
