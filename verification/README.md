# mini-vllm, verified

A model of mini-vllm's inference worker and of its gateway's admission and routing, with proofs of what they are for:

- a sequence generated in a batch that others join and leave, over a left-padded KV cache, gets the tokens it would get
  alone, and those are the tokens of full recomputation without a cache;
- the scheduler loses nobody, serves in order, delivers exactly once, and drains when arrivals stop, while how long a running
  request takes has a bound exactly when nobody can be admitted past it;
- the gateway's counters are exact under every interleaving, and its stale reads unbalance the workers by exactly the number
  of picks in flight.

`dafny verify dfyconfig.toml` checks everything.

## How it is built

**The engine.** `Transformer.dfy` models the network as functions: `embed(token, position)`, per layer the key and value of a
hidden state, attention over a list of visible key/value pairs, and a head. Vectors are sequences of exact reals. A batched
pass works row by row; each new column attends to the slots at or before it whose mask bit is 1 (`Masks.dfy`), and what a
padding column computes is arbitrary. `PlainHidden` is the reference: the tokens alone, no cache, no padding. `KvCache.dfy` has the cache
surgery, `Sampling.dfy` the filters and the grouped sampler, `Batching.dfy` what prefill, decode, evict and admit compute,
`Invariant.dfy` the invariant they keep, `Generation.dfy` whole runs and the two ways of generating. `Engine.dfy` has the
objects that the worker mutates (`Seq`, `BatchState`, `LLMEngine`), each method proved against the function it implements.

The invariant of a batch lists, row by row, the tokens fed to it (`fed`). A row is sound when reading its cache where its
mask is 1 gives, layer by layer, the keys and values of an uncached pass over those tokens; for an unfinished row they are the
prompt and all outputs but the last, which is pending. Finished rows may be fed junk; their outputs are frozen.

**The scheduler.** `Scheduling.dfy` is a state machine whose events are the steps of the loop (launch, engine call returns,
publish, evict, complete), engine errors, shutdown, and what callers do: submit, time out, cancel, stop reading a stream.
Callers may act between any two steps of a tick, because the engine runs in another thread. `Order.dfy`, `Service.dfy` and
`Delivery.dfy` each have one part of the invariant (where requests are, what their sequences are worth, what their callers
have) and show that every step keeps it; `Runs.dfy` puts them together and states what holds in every run; `History.dfy` says
what never changes again; `Liveness.dfy` measures the work up to a request and `Progress.dfy` bounds by it how long anybody is
queued and how long it takes to drain; `Turnaround.dfy` says when a running request is sure to finish, and for how long others
can hold it up when it is not; `Closing.dfy` is about finished sequences; `Accounting.dfy` and `Lone.dfy` are about the cache
counters. `Batcher.dfy` has the `DynamicBatcher` object, each method proved against its step.

**The gateway.** `Gateway.dfy` is a protocol of any number of handlers, interleaved load by load and add by add, each with the
once-flags of its two closures; `Balance.dfy` has the stale-read bound; `WorkerPool.dfy` the objects, one uninterrupted call at a time.

Results about whole runs assume a deployment that can work at all (`Service.Standing`): at least one layer, a context window of
at least two tokens, and positive `max_new_tokens` and `max_batch_size`. Stopping rules, limits, queue sizes, samplers, decoders,
prompts, parameters and the behaviour of callers are arbitrary.

## Where the code and its documentation differ

- Asked for no tokens, `generate_with_kv_cache` still produces one (clamping raises the request to 1) while
  `generate_without_cache` produces none: `ZeroTokensDiffer`. `CachedEqualsUncached` says, in terms of the arguments alone, exactly
  when the two are guaranteed to agree.
- `encode` leaves room for a generated token exactly when the context window is at least 2; at 1 its slice keeps the whole
  prompt: `EncodeLeavesRoom`.
- Streamed chunks add up to the text at every point of an output exactly when the text only ever grew, token by token; they do
  so for every output exactly when the decoder only ever extends its text. A decoder that shows U+FFFD for an incomplete UTF-8
  sequence does not: `ReassemblyNeedsGrowth`, `ReassemblyNeedsExtension`, `PartialCharacterBreaksStream`.
- `batcher.py` (lines 15-19) admits new work without draining the batch, but a tick either admits or decodes (lines 235-243), so
  every admission holds up all running rows. Where two requests can run at once and a request can be for more than one token, one
  one-token arrival per tick keeps a running request from its next token for ever: `StormHoldsUp`. `TimelyExactly` says for which
  settings every request is sure to finish; `LeavesInTime` bounds the time by the work and by the admissions it was passed over in.
- `pool_test.go` (lines 144-150) expects concurrent picks to leave every worker within one of the mean. With k picks in flight the
  workers can differ by k or by the number of slots, whichever is less, and by no more: `SpreadIsExact`.

## Model

| member | source | states |
|---|---|---|
| Masks.LeftMaskVisible | worker/server/kvcache.py:74-81 | through a left-padded mask exactly the last `used` slots are visible, in order |
| Transformer.PlainIsCausal | worker/server/model.py:324-341 | in an uncached pass, hidden states and key/values of a prefix do not depend on later tokens |
| Transformer.PassIsPlain | worker/server/model.py:170-196 | a pass over a cache that represents the tokens fed so far leaves one that represents them and the new real tokens, in every layer, whatever padding slots hold |
| Transformer.LogitsArePlain | worker/server/model.py:188-195 | the last column's logits of such a pass are those of an uncached pass over all tokens fed |
| Sampling.ClampHonours | worker/server/sampling.py:19-26 | clamping lands in the honoured range, and keeps each setting exactly when that setting was in it |
| Sampling.TopKExact | worker/server/sampling.py:36-39 | top-k keeps exactly the tokens with fewer than k strictly larger scores, unchanged |
| Sampling.TopPAt | worker/server/sampling.py:41-47 | a token survives top-p exactly when the mass before it in descending order is at most p, and the scatter gives it its own score |
| Sampling.TopPShortest | worker/server/sampling.py:41-47 | for p strictly between 0 and 1, and any descending order, top-p keeps exactly the shortest prefix whose mass exceeds p, never none, never a token masked before |
| Sampling.SoftmaxIsDistribution | worker/server/sampling.py:43-49 | with some finite score the softmax adds up to one, and is 0 exactly on masked tokens |
| Sampling.FilterLeavesCandidates | worker/server/sampling.py:34-49 | with honoured settings some token always survives both filters, survivors keep their own scores, and none breaks the top-k limit |
| Sampling.GroupRows | worker/server/sampling.py:61-63 | the groups partition the rows by sampling settings, each row in exactly one group |
| Sampling.SampleBatch | worker/server/sampling.py:52-72 | grouped sampling gives every row its own sampler's result on its own logits and settings |
| KvCache.LeftPad | worker/server/kvcache.py:74-90 | every row of every layer gains `pad` zeroed slots in front; nothing happens for a pad of 0 or less |
| KvCache.ConcatBatch | worker/server/kvcache.py:93-111 | the two caches stacked, the shorter left-padded, an empty one ignored |
| KvCache.LeftPadSequences | worker/server/kvcache.py:131-141 | ids and mask of the longest length, each row padding then its tokens, zeros then ones |
| KvCache.PositionOfToken | worker/server/kvcache.py:144-151 | the j-th real token of a left-padded row gets position j whatever the padding |
| KvCache.StackThenKeep | worker/server/kvcache.py:58-111 | keeping the first rows of a stack and dropping the columns it added gives back the first cache, masked slots included |
| KvCache.StackedShape | worker/server/kvcache.py:93-111 | a stack of shaped caches has the rows of both, every one padded to the larger width |
| Batching.EncodeLeavesRoom | worker/server/model.py:119-125 | prompts are non-empty and shorter than the context window exactly when that window is at least 2, and are then a suffix of the tokens given |
| Batching.RowsWhereComplete | worker/server/model.py:225-226 | every finished (or unfinished) row is listed; with the contract of `RowsWhere`, only those, in order |
| Batching.PrefillShape | worker/server/model.py:147-167 | a prefilled batch is well shaped and as wide as its longest prompt |
| Batching.DecodeShape | worker/server/model.py:175-196 | a decode step keeps the shape and adds one column |
| Invariant.PromptRow | worker/server/model.py:152-166 | a prompt padded to any width is prefilled as if alone and unpadded |
| Invariant.NextRow | worker/server/model.py:175-195 | one decode step of a sound row feeds its pending token at the next position and computes the uncached logits |
| Invariant.EmitKeepsSeqOk | worker/server/model.py:198-215 | emitting the token of the uncached logits keeps a sequence on its uncached stream with the finish reason its rules give; a finished one is untouched |
| Invariant.PrefillOk | worker/server/model.py:147-167 | prefilling any prompts together gives a sound batch |
| Invariant.DecodeOk | worker/server/model.py:170-196 | a decode step keeps every row sound, finished rows included, and the batch tight |
| Invariant.CompactOk | worker/server/model.py:242-253 | compaction leaves exactly the width of the longest row, so it drops the shared padding and no real column |
| Invariant.EvictOk | worker/server/model.py:221-240 | eviction keeps the batch sound and tight, and what stays is exactly the unfinished rows in order |
| Invariant.AdmitOk | worker/server/model.py:256-274 | admission keeps the rows already running sound and adds sound rows for the newcomers below them |
| Invariant.MarkOk | worker/server/batcher.py:200-203 | marking a running sequence abandoned between engine calls keeps the batch sound |
| Invariant.AdmitThenEvict | worker/server/model.py:221-274 | if every newcomer finishes on its first token, admitting and evicting restores cache (masked slots included), mask, pending tokens and row order |
| Generation.SoloIsLawful | worker/server/model.py:280-293 | alone, every request runs to a stopping rule on its uncached token stream |
| Generation.LawfulAgree | worker/server/model.py:198-215 | two lawful runs of the same prompt and settings agree: one is a prefix of a ruled one, and equal to it if ruled itself |
| Generation.RunOpsOk | worker/server/model.py:221-274 | after any interleaving of admissions, decode steps, evictions and abandonments the batch satisfies its representation, shape and tightness invariant, and what was evicted is lawful and finished |
| Generation.BatchingIsInvisible | worker/server/model.py:146-274 | under any such interleaving, with any neighbours, each sequence has generated a prefix of its solo generation, and exactly that once a rule has stopped it |
| Generation.StoppingRules | worker/server/model.py:198-214 | a lawful sequence never exceeds min(max tokens, context - prompt); EOS occurs only last and exactly with "stop"; "length" holds exactly when that limit is reached without EOS |
| Generation.UncachedIsNaive | worker/server/model.py:331-340 | the uncached loop continues by best tokens, stops early exactly on EOS, which comes only last |
| Generation.CachingIsExact | worker/server/model.py:280-341 | greedy cached generation is the uncached loop's output cut to the limit of request, setting and context window |
| Generation.CachedEqualsUncached | worker/server/model.py:280-341 | greedy cached and uncached generation agree whatever the weights exactly when at least one token is asked for and no more than the setting and the context window allow |
| Generation.AgreementOfRun | worker/server/model.py:280-341 | for given weights they agree exactly when at least one token is asked for and the limits allow that many or the cached run stopped on EOS |
| Generation.ZeroTokensDiffer | worker/server/sampling.py:19-22 | asked for no tokens, cached generation gives one and the uncached loop none |
| Generation.PrefillPositions | worker/server/kvcache.py:131-151 | in a prefill the j-th prompt token of each row is at position j, below the context window |
| Generation.DecodePositions | worker/server/model.py:175-184 | a decode step puts the pending token at the number of tokens before it, below the context window |
| Generation.PromptTokens | worker/server/model.py:152-158 | the last columns of a prefilled row are its prompt, at positions 0, 1, 2, ... |
| Engine.LLMEngine.EmitTokens | worker/server/model.py:198-215 | in place, one sampled token per unfinished row and the stopping rules, finished rows frozen |
| Engine.LLMEngine.PrefillBatch | worker/server/model.py:147-167 | the new batch, and the sequences it has advanced, are what `Prefill` computes |
| Engine.LLMEngine.DecodeStep | worker/server/model.py:170-196 | the batch, updated in place, is what `Decode` computes |
| Engine.LLMEngine.CompactBatch | worker/server/model.py:242-253 | the batch, updated in place, is what `Compact` computes |
| Engine.LLMEngine.EvictFinished | worker/server/model.py:221-240 | survivors and finished sequences, as objects and as values, in order; the batch is what `Evict` computes |
| Engine.LLMEngine.AdmitBatch | worker/server/model.py:256-274 | running sequences and newcomers, in order; the batch is what `Admit` computes |
| Engine.LLMEngine.GenerateWithKvCache | worker/server/model.py:280-293 | terminates with the solo generation of its clamped request |
| Engine.LLMEngine.GenerateBatch | worker/server/model.py:295-321 | terminates, and every prompt gets exactly what it would get alone |
| Engine.LLMEngine.GenerateWithoutCache | worker/server/model.py:324-341 | the loop computes `Uncached`, whose properties `UncachedIsNaive` states |
| Engine.StaticPositions | worker/server/model.py:316-320 | in a static batch every decode position follows all its row has been fed and is below the context window; `RunStatic` asserts it before each of its decode steps |
| Engine.StaticPrefill | worker/server/model.py:304-315 | the prompts are prefilled at positions 0, 1, 2, ... below the context window; `GenerateBatch` asserts it before its prefill |
| Order.NobodyOvertakes | worker/server/batcher.py:282-288 | ids of the rows, then of those being admitted, then of the queue are strictly increasing |
| Order.SubmitPlaces | worker/server/batcher.py:128-136 | accepting or rejecting a request keeps order, conservation and the queue limit |
| Order.AbandonPlaces | worker/server/batcher.py:196-203 | abandoning keeps order and conservation: a queued request moves from the queue to left, and nothing else moves |
| Order.LaunchPlaces | worker/server/batcher.py:235-243 | admission keeps order, conservation and the batch limit |
| Order.EvictPlaces | worker/server/model.py:225-235 | splitting the rows in two loses nobody and keeps order |
| Order.CompleteEach | worker/server/batcher.py:249-250 | completing a list delivers each of its sequences exactly once and touches nobody else |
| Order.FailPlaces | worker/server/batcher.py:346-354 | after a failed step everybody in flight has left and the queue is as it was |
| Order.StopPlaces | worker/server/batcher.py:109-122 | after shutdown everybody queued or in flight has left |
| Service.EngineWork | worker/server/batcher.py:235-243 | an engine call keeps the batch sound and gives each unfinished sequence that takes part exactly one token |
| Service.EvictWork | worker/server/batcher.py:246-248 | after eviction the rows are sound and unfinished, and the departing sequences lawful and finished |
| Delivery.GrowingReassembles | worker/server/batcher.py:294-344 | if the text of an output only ever grew, what its stream has been sent, and receives in all, is that text |
| Delivery.ReassemblyNeedsGrowth | worker/server/batcher.py:294-344 | an output's stream adds up to the text at every point exactly when its text only ever grew |
| Delivery.ReassemblyNeedsExtension | worker/server/batcher.py:294-344 | a completed stream adds up to the final text for every output exactly when the decoder only ever extends its text |
| Delivery.PartialCharacterBreaksStream | worker/server/batcher.py:303-306 | a decoder showing U+FFFD for the first bytes of the euro sign does not extend its text, and its stream ends as U+FFFD |
| Delivery.PublishEach | worker/server/batcher.py:294-308 | publishing updates exactly the clients of the rows, each once |
| Delivery.PublishCatchesUp | worker/server/batcher.py:294-308 | after publishing, a stream has been sent all its sequence has generated |
| Delivery.DeliverOk | worker/server/batcher.py:310-344 | delivery gives a stream the rest of its text and its one sentinel, and settles the future unless the caller cancelled |
| Runs.StepSound | worker/server/batcher.py:109-354 | every step of the loop and of its callers keeps the whole invariant |
| Runs.FifoAndConservation | worker/server/batcher.py:128-288 | in every run: first come first served, every accepted request in exactly one of queue, running and left, `running` equal to the batch's ids between ticks, both limits kept |
| Runs.SchedulingIsInvisible | worker/server/batcher.py:218-250 | at every moment of every run each sequence is a prefix of its solo generation, exactly that once ruled, and stops by the rules |
| Runs.AnswersAreSolo | worker/server/batcher.py:310-338 | every completed request not abandoned is answered with its solo generation; an abandoned one's output is a prefix of it |
| Runs.StreamsReassemble | worker/server/batcher.py:294-344 | a completed stream whose text only ever grew has received exactly the text of its result |
| Runs.DeliveredExactly | worker/server/batcher.py:310-354 | a result exactly for completed requests not cancelled, an error exactly for failed ones, a sentinel exactly for streams that completed or failed, after all their text |
| History.StepOnward | worker/server/batcher.py:109-354 | no step unsettles a future, shortens a stream, writes behind a sentinel, or changes who has left |
| History.DeliveredOnce | worker/server/batcher.py:310-354 | nor does any continuation of a run |
| History.PositionsBelowContext | worker/server/batcher.py:235-243 | in every run, all positions of real tokens given to the model are right and below the context window |
| Liveness.StepLoad | worker/server/batcher.py:218-250 | for every request id k handed out so far or next, no step adds to the work of everybody before k, and each completed tick does some of it unless nobody before k took part |
| Progress.WaitingIsBounded | worker/server/batcher.py:282-288 | while a request stays queued, completed ticks and remaining work ahead never exceed the work that was ahead, whatever arrives later |
| Progress.NobodyStarves | worker/server/batcher.py:282-288 | after more ticks than the remaining budgets ahead of it, a request is no longer queued |
| Progress.DrainBound | worker/server/batcher.py:218-250 | with no arrivals, completed ticks and remaining work never exceed the work there was |
| Progress.TickCompletes | worker/server/batcher.py:218-250 | unless there is nothing to do, a tick of the loop completes |
| Progress.Drains | worker/server/batcher.py:218-250 | in any run without arrivals, whatever callers and engine errors do meanwhile, once as many ticks have completed as there was work nobody is queued or running |
| Progress.RoundsDrain | worker/server/batcher.py:209-250 | that many uninterrupted ticks of the loop make it idle |
| Turnaround.TurnaroundIsBounded | worker/server/batcher.py:235-243 | while a request has not left, whatever arrives later, completed ticks and remaining work up to it never exceed the work there was and the number of admissions that passed over it |
| Turnaround.LeavesInTime | worker/server/batcher.py:235-243 | a request has left once as many ticks have completed as there was work up to it, not counting admissions of later requests only |
| Turnaround.StormHoldsUp | worker/server/batcher.py:235-243 | with room in the batch, n one-token arrivals in n ticks complete n ticks and leave the batch, cache and outputs included, exactly as it was, for every n |
| Turnaround.TimelyExactly | worker/server/batcher.py:218-250 | whatever the weights, every accepted request leaves within as many completed ticks as there is work up to it, and equally within any bound at all, if and only if one request runs at a time, every request is for one token, or none is accepted |
| Closing.StepClosed | worker/server/batcher.py:196-203 | no step changes a finished sequence, and each engine step it takes part in is its last |
| Closing.FinishedIsFinal | worker/server/model.py:203-204 | once finished, a sequence never changes, takes part in at most one further engine step, and is delivered as it was |
| Closing.AbandonedIsFinished | worker/server/batcher.py:200-203 | a running sequence that is abandoned is finished at once |
| Accounting.StepNet | worker/server/batcher.py:252-268 | what a step adds to attended minus reused is what the engine computed |
| Accounting.BooksBalance | worker/server/batcher.py:252-268 | over a run, attended minus reused is the admitted prompt lengths plus the sizes of the decoded batches |
| Lone.RecomputedIsTriangle | worker/server/model.py:331-338 | within the context window the uncached loop recomputes P + (P + 1) + ... positions |
| Lone.LoneRequestCost | worker/server/batcher.py:252-268 | a lone request ends with its solo generation after as many ticks as tokens, having attended n*P + n(n-1)/2 positions and computed P + n - 1 |
| Lone.UncachedSpends | worker/server/model.py:331-341 | the positions the uncached loop computes on its way, one window per iteration, are those its output accounts for |
| Lone.LoneCostIsUncached | worker/server/batcher.py:252-268 | for greedy parameters, a lone request attends to exactly as many positions as the uncached loop computes when asked for as many tokens as the limits allow |
| Batcher.DynamicBatcher.Add | worker/server/batcher.py:128-136 | the new state is `DoSubmit`, and the request is refused exactly when the queue is full |
| Batcher.DynamicBatcher.AbandonRequest | worker/server/batcher.py:196-203 | the new state is `Abandon`: out of the queue by a search, finished in the batch |
| Batcher.DynamicBatcher.TimeoutRequest | worker/server/batcher.py:165-170 | the new state is `DoGone` |
| Batcher.DynamicBatcher.TakeAdmissions | worker/server/batcher.py:282-288 | the oldest requests, as many as there is room for, leave the queue in order |
| Batcher.DynamicBatcher.ObserveStep | worker/server/batcher.py:252-268 | the counters become `Observe`, whose meaning `BooksBalance` states |
| Batcher.DynamicBatcher.PublishDeltas | worker/server/batcher.py:294-308 | the clients become `PublishAll`, whose meaning `PublishEach` states |
| Batcher.DynamicBatcher.CompleteRequest | worker/server/batcher.py:310-344 | the new state is `CompleteOne`, whose meaning `DeliverOk` states |
| Batcher.DynamicBatcher.Tick | worker/server/batcher.py:218-250 | an uninterrupted tick is a tick of the state machine |
| Batcher.DynamicBatcher.FailAll | worker/server/batcher.py:346-354 | the new state is `DoFail` |
| Batcher.DynamicBatcher.StopAll | worker/server/batcher.py:109-122 | the new state is `DoStop` |
| Batcher.FailEach | worker/server/batcher.py:348-352 | exactly the clients in flight are failed, a settled future is kept, a stream gets its sentinel |
| Batcher.CancelEach | worker/server/batcher.py:117-119 | exactly the pending futures of queued and running requests are cancelled |
| Gateway.StepCounted | gateway/internal/scheduler/pool.go:104-143 | every atomic step keeps the counting invariant |
| Gateway.CountsAreExact | gateway/cmd/server/main.go:170-186 | in every interleaving each worker's count is its outstanding picks, all counts together are at most the slots used, these at most the capacity, and giving a slot back never blocks, however often closures are called |
| Gateway.NothingLeaks | gateway/internal/scheduler/pool_test.go:152-159 | when all handlers have given back what they took, all counts and slots are zero |
| Balance.StepLevel | gateway/internal/scheduler/pool.go:121-136 | loads and adds keep the balance invariant while at most k picks are in flight |
| Balance.SpreadIsBounded | gateway/internal/scheduler/pool.go:121-143 | from equal loads, all healthy and no completions, no two workers ever differ by more than the number of picks in flight at once |
| Balance.SpreadIsExact | gateway/internal/scheduler/pool_test.go:144-150 | for any number of workers, slots and picks in flight, a spread is guaranteed in all such runs exactly when it is at least the picks in flight or the slots, whichever is fewer, or there is at most one worker |
| WorkerPool.ChosenIsLeast | gateway/internal/scheduler/pool.go:117-134 | the scan finds a worker exactly when it is the first of the least loaded healthy ones, and nobody exactly when none is healthy |
| WorkerPool.ScanChooses | gateway/internal/scheduler/pool.go:121-131 | a scan of the protocol that nobody interferes with has in hand what `Pick` chooses |
| WorkerPool.Pool.Acquire | gateway/internal/scheduler/pool.go:104-116 | takes a slot and returns a lease, or refuses exactly when the gateway is full |
| WorkerPool.Pool.Pick | gateway/internal/scheduler/pool.go:121-143 | counts one more request on the chosen worker and on no other, or fails exactly when none is healthy |
| WorkerPool.SlotLease.Release | gateway/internal/scheduler/pool.go:107-112 | gives the slot back the first time and never again |
| WorkerPool.PickLease.Done | gateway/internal/scheduler/pool.go:137-142 | takes the request off its worker the first time and never again |

## Left out

- The internals of torch, transformers and the tokenizer: functions of their inputs. Heads are folded into one vector per
  layer, and key and value of a slot are kept together.
- Floating-point rounding and the shared random generator: arithmetic is over reals, and drawing a token is a function of
  one row's filtered scores. Nothing is claimed about batches that share random numbers.
- Memory layout of caches and masks: caches and masks are values that a batch object replaces, as the tensors they model are rebuilt.
- `trim_left`, `cache_bytes`, `cache_stats`, `stats` and the metrics exporter: the engine never calls the first, and the rest only report.
- The wall clock: the gathering window is any number of arrivals before a launch, a timeout is an event at any time, and
  latencies in results are not kept.
- Request and sequence objects shared between callers and the loop: in the scheduler they are values found by id, so marking a
  sequence is an update of every list that holds it. Sharing is modelled in the engine's objects.
- Threads inside one engine call: each call is atomic. In particular the two reads of `finished` in `evict_finished` see the
  same value, and a call whose task was cancelled has no later effect.
- Exceptions of the tokenizer or of the metrics calls during delivery: those calls are total.
- A sentinel for streams on shutdown: the code sends none, and none is claimed.
- `generate_with_kv_cache` overwriting the caller's `max_tokens`: the model works on a copy.
- The gateway's HTTP, SSE and gRPC handlers, health probing over the network (a probe's outcome is an event), dialling, the
  configuration, Docker files and benchmarks.
- An empty list of worker addresses and failures to dial, which make the pool's constructor fail.
