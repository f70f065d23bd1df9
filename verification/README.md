# A model of the nano-vLLM engine, and what is proved about it

nano-vLLM serves many text-generation requests at once. Their attention keys and values live in a shared pool of fixed
size pages; a page that is full is *published* under a chained hash and may be reused by every request with the same
prefix. In each step a scheduler picks a batch, preempts requests when pages run out, resumes a prompt that did not fit
into the last step, admits waiting requests in the order of their cached prefix, and decodes one token for everybody
who is running. This project models that engine and proves that all of it is invisible: each request gets the tokens
it would get if it were alone.

## The question it answers

Does page sharing, eviction, preemption, chunked prefill, prefix ranking, and the choice of the attention route ever
change what a request is given? The answer is proved for every hash function, collisions included, every network,
every configuration and every order of arrivals, in four layers.

- *Pages and their meaning* (`Pages`, `CacheInvariant`, `Growth`, `Matching`, `Claims`, `FreeDeque`,
  `Republication`): a published page stands for one token prefix, and no operation changes what it stands for.
- *Keys and values* (`KvMemory`, `Boundary`, `Addressing`, `WriteSafety`, `Store`, `KvStore`, `Forward`): the slots that
  a request reads hold its own prefix, and the writes of a step disturb no page published and no token computed before.
- *One step* (`Scheduling`, `SchedulerState`, `Prefill`, `Frozen`, `Steps`, `CutFails`, `Policy`, `Maximal`, `Reuse`,
  `Delivery`, `Postprocessing`, `ModelInput`, `Metadata`, `Plans`, `Kernel`, `Engine`): no assertion fails from a state at
  rest, the batch keeps its budgets, everybody in it comes in the order of the ranking and the next one would not fit, and
  the arrays that are built for it mean what the batch means.
- *Runs* (`Runs`, `Completions`, `Liveness`, `Termination`, `Roomy`, `CutResume`, `FailingRun`, `Ownership`, `Refill`,
  `Drops`, `Cycles`, `LoneRun`): safety over whole runs, and when the `generate` loop ends, each with its exact condition.

The objects that the program updates in place are classes: `Sequences.Sequence`, `BlockManagement.Block` and
`BlockManager`, `Schedulers.Scheduler`, `ModelRunners.ModelRunner`, `LLMEngines.LLMEngine`. Each of their methods is
proved equal to a function on values (in `Pages`, `Scheduling`, `ModelInput`, `Kernel`, `Engine`), and the theorems are
about those functions.

## What stands for what

- The block hash is an arbitrary function into the natural numbers.
- The network is an arbitrary function of a layer, a query vector and the keys and values it reads; its head picks the
  next token deterministically.
- An exception or a failed assertion is a value, `Err`, and errors come in the order in which the program meets them.
  Nothing is said about the state after one.
- A `seq_id` is the index of the request in the order of arrival.
- `Start(i, B)` is `i * B`, written as a sum (`Arith.StartIsProduct`).
- *At rest*: the invariant between steps; every running request has exactly one token left to compute. *Nearly* at rest:
  the same, but the last running request may be *cut*, that is, have more than one token left. *Safe tick*: there is no
  cut request, or not all running requests fit and preemption will take it. All three are defined in
  `SchedulerState` and `Runs`; the last one is a check that a caller can make before a step.
- *Ample*: the pool holds one request of maximal length, at least one request may run and one token be computed per
  step, and without chunked prefill a prompt of maximal length fits into a step (`Liveness.Ample`).

## Where the code does not do what it is for

A prefill that ends at or behind the end of its prompt joins the running queue (nanovllm/engine/scheduler.py:371-374),
and `schedule` asserts that every running request has exactly one token left to compute
(nanovllm/engine/scheduler.py:291). With chunked prefill the two disagree: a preempted request that comes back has
completions to compute again, and the token budget may end inside them. The repository's README recommends chunked
prefill for prompts beyond the token budget (README.md:69-70) without a restriction. The model keeps the code as it is.

- `FailingRun.FailingInput` is such a run from the empty engine: pages of 4, a pool of 2 pages, two tokens per step, two
  requests with one prompt token each. It fails for every hash function, every network, both admission modes, with and
  without ranking.
- `Runs.EveryRun` gives the exact condition over runs: a run fails an assertion if and only if some tick of it was not
  safe. `CutResume.UnsafeNext` gives it for one step: the next `schedule` fails if and only if the batch cut a prefill
  inside its completions before the last token but one, and everybody running fits. If they do not fit, preemption takes
  the cut request out again and the run goes on correctly.
- `Termination.UnchunkedUncut`, `Termination.NoCutIsSafe` and `Roomy.RoomyRun` give conditions on the configuration under
  which that never happens: no chunked prefill, no cut of a request that has completions, or room for every live request.

The `generate` loop (nanovllm/engine/llm_engine.py:83-84) need not end. A request that has filled the whole pool and
needs one more page is preempted, comes first again, and finds its old pages through the hash map, but only up to the
first page whose hash comes again in a later one of them: the map names the later page
(nanovllm/engine/block_manager.py:132). If the token budget then leads it back to exactly the last slot, without a stop
between the end of its prompt and there, nothing has changed.

- `LoneRun.EndlessInput` is such an input for every page size: a pool of two pages, a token budget of two pages, and a
  prompt that fills both and whose two block hashes are equal. `LoneRun.LoneExactly` gives the exact condition for any
  request that is alone in the engine.
- `Cycles.DropExactly` gives it for any state in which preemption throws out everybody: a condition on that state, namely
  one lookup, the hashes of the request's own blocks, and the sizes. `Cycles.EndsExactly` gives it for any state of any
  configuration: the first such state, if one comes within the measure, decides; every other successful step makes
  progress (`Termination.StepDecreases`).
- It cannot happen without a repeated hash among the first pages of one request (`Cycles.DistinctEnds`), nor for sizes
  that do not divide (`Cycles.SizesEnd`, a check before the call), nor in an ample pool, nor if no resumed request is
  cut (`LLMEngines.EndsInTime`). `LLMEngines.LLMEngine.GenerateAll` assumes only that its loop ends.

## Model

| member | source | states |
|---|---|---|
| Runs.EveryRun | nanovllm/engine/llm_engine.py:43-84 | From the empty engine, for any hash function, network and configuration, and any interleaving of acceptable requests and steps: the run fails an assertion if and only if some tick was not safe (a cut request was due to be decoded and fitted); otherwise it raises one of the two errors about missing budget, or every request holds a prefix of (when finished, all of) the tokens it would get alone and the pool partition holds |
| Runs.RunTransparent | nanovllm/engine/scheduler.py:152-380 | The same from any state of the invariant, cut request included; the meaning of a published lineage never changes |
| Runs.StepOk | nanovllm/engine/llm_engine.py:53-63 | One step from a state at rest, or with a cut request that does not fit: it raises only for lack of budget; otherwise every request keeps its tokens or gets exactly its next reference token, and the state is at rest exactly when no prefill was cut inside its completions |
| LLMEngines.LLMEngine.GenerateAll | nanovllm/engine/llm_engine.py:68-100 | Whenever the loop ends: each request gets exactly its reference tokens, in request order, and each completion is what the network says after the prompt, token by token, up to the first end token (unless ignored), `max_tokens` or `max_model_len`; it raises a failed assertion if and only if a tick was not safe, and otherwise only an error about missing budget, which an ample pool rules out |
| Completions.DecodeWhole | nanovllm/engine/scheduler.py:347-360 | The reference run of a request within its limits: every token is the network's choice, none but the last is the end token unless that is ignored, both length limits hold, and it ends at a limit or at the end token |
| Completions.WholeUnique | nanovllm/engine/scheduler.py:347-360 | No other run from the same tokens has these properties |
| LLMEngines.EndsInTime | nanovllm/engine/llm_engine.py:83-84 | The loop ends within an explicit number of steps if the pool is ample, or no unfinished request is overfull, or no resumed request is cut, in particular without chunked prefill and with room for every live request; and in any configuration a loop that does not end within that number of steps never ends |
| LLMEngines.LLMEngine.TakeStep | nanovllm/engine/llm_engine.py:53-63 | One step of the objects keeps the invariant and returns exactly the requests it finished; it raises a failed assertion exactly when the tick was not safe, and otherwise only for lack of budget |
| LLMEngines.LLMEngine.AddPrompt | nanovllm/engine/llm_engine.py:43-51 | A valid request is queued last; an invalid one is refused and changes nothing |
| LLMEngines.LLMEngine.RunToEnd | nanovllm/engine/llm_engine.py:83-96 | Whenever the loop ends, its outcome is that of the specification, and it returns exactly the requests finished meanwhile with their completions |
| LLMEngines.ScheduledAddressable | nanovllm/engine/model_runner.py:361-425 | All slots of a scheduled batch lie in the cache and no slot is named twice |
| Termination.StepDecreases | nanovllm/engine/scheduler.py:152-380 | In any configuration, a step that succeeds strictly decreases (tokens still to come; phase), unless preemption threw out every running request while there was no chunk; cut requests included |
| Cycles.EndsExactly | nanovllm/engine/llm_engine.py:83-84 | In any configuration the loop ends if and only if it is not doomed: doomed means that within the measure there is a step whose preemption throws out every running request while there is no chunk, and that at the first such step the request that was running first goes on for ever, by a check of that state alone. Otherwise it ends within the measure and two fillings of the pool |
| Cycles.DropExactly | nanovllm/engine/scheduler.py:43-55 | The decision at such a step, for both admission modes, ranked or not, whoever else waits: with P prompt tokens, S slots in the pool, F tokens that the request finds again now and G that it will find again from then on, the loop goes on for ever, all ticks safe, if and only if prefill is chunked and for both k = F and k = G: k < S, P <= S, the budget divides S - k, and either equals it or S - budget < P. Otherwise it ends within 2 S + 3 steps |
| Cycles.RefillsExactly | nanovllm/engine/scheduler.py:166-194 | That arithmetic condition is exactly what the steps do: whole budgets from k on, inside the prompt until the last slot of the pool |
| Cycles.FittingEnds | nanovllm/engine/llm_engine.py:83-84 | In any configuration, cuts and preemption included, the loop ends within an explicit bound if no unfinished request is overfull: its whole reference run exceeds the pool by two tokens or more, and the condition holds with the first of its pages whose hash comes again |
| Cycles.DistinctEnds | nanovllm/engine/llm_engine.py:83-84 | So it ends if no unfinished request hashes two of the first `numBlocks` full blocks of its tokens alike |
| Cycles.SizesEnd | nanovllm/engine/llm_engine.py:83-84 | And it ends, for every hash and network, if prompt lengths, token budget and pool size admit no such k that is a whole number of pages |
| LoneRun.LoneExactly | nanovllm/engine/llm_engine.py:68-84 | For one request, alone from the empty engine on: the loop has no end, all ticks safe, if and only if a request may run at all and this one is overfull; otherwise it ends within an explicit bound |
| LoneRun.EndlessInput | nanovllm/engine/llm_engine.py:68-84 | A loop that never ends, for any page size: two pages, a budget of two pages, and a prompt of two pages whose second block hash equals the first; nothing else is asked of the hash |
| Drops.DropNext | nanovllm/engine/scheduler.py:43-55 | When preemption throws out everybody while there is no chunk, the step raises, or computes exactly one part of the request that was running first, which then has all the pages in use and owns their hashes as far as they do not repeat |
| Drops.DropFills | nanovllm/engine/scheduler.py:43-55 | That happens only if the first running request has every page of the pool, full, and needs one more |
| Drops.RanksFirst | nanovllm/engine/scheduler.py:65-78 | That request is then the first to be admitted, ranked or not |
| Drops.NobodyFindsMore | nanovllm/engine/block_manager.py:211-256 | No other request finds more pages in a pool full of one request than that request does |
| Drops.FindsUpToRepeat | nanovllm/engine/block_manager.py:211-256 | A request that owns its hashes as far as they do not repeat finds exactly its pages up to the first whose hash comes again |
| Drops.NextFound | nanovllm/engine/block_manager.py:211-256 | From the second time on, that is what the dropped request finds |
| Ownership.GrowOwns | nanovllm/engine/block_manager.py:87-132 | Filling and publishing pages: of a request's pages with the same hash, the last published one has the entry in the hash map |
| Ownership.AdmitOwns | nanovllm/engine/scheduler.py:136-145 | An admission, prefix and new pages together, leaves the request with those entries |
| Refill.FillChunk | nanovllm/engine/scheduler.py:166-194 | The chunk of a request that needs more than the pool: it takes the whole budget, or the step raises because its pages are not there |
| Refill.FillStuck | nanovllm/engine/scheduler.py:290-291 | Behind its prompt but short of the last slot, the next step fails its assertion |
| CutResume.FirstBatch | nanovllm/engine/scheduler.py:152-319 | The batch of a step without a chunk whose first ranked request is refused, or taken with nobody behind it, in both admission modes: that request, if its part fits, then everybody running |
| Termination.AmpleDecreases | nanovllm/engine/scheduler.py:152-380 | With an ample pool every safe tick of an unfinished engine succeeds and strictly decreases that measure |
| Termination.UncutDecreases | nanovllm/engine/scheduler.py:152-380 | In any configuration, a step that succeeds and cuts no resumed request strictly decreases (tokens still to come; tokens left of the chunk) and ends at rest |
| Termination.UncutGenerateEnds | nanovllm/engine/llm_engine.py:83-84 | In any configuration, if no resumed request is cut, the loop ends within the measure: every request finished with its reference tokens, or one of the two errors about missing budget |
| Termination.AmpleEnds | nanovllm/engine/llm_engine.py:83-84 | With an ample pool the loop ends within the measure, whatever is cut and preempted |
| Termination.GenerateExact | nanovllm/engine/llm_engine.py:83-84 | How a loop that ends ends: all requests hold their reference tokens; or a failed assertion, if and only if a tick was not safe; or an error about missing budget, and not with an ample pool |
| Termination.GenerateCorrect | nanovllm/engine/llm_engine.py:83-84 | With an ample pool and safe ticks the loop ends without an error, every request holding its reference tokens |
| Termination.SilentEnd | nanovllm/engine/scheduler.py:366-380 | A step that delivers no token has computed part of exactly one prefill, which is then the chunk, further on, or runs |
| Termination.UnchunkedUncut | nanovllm/engine/scheduler.py:115-116 | Without chunked prefill no prefill is ever cut |
| Termination.NoCutIsSafe | nanovllm/engine/scheduler.py:366-374 | If no prefill that has completions is cut, the batch is safe |
| Liveness.NoDeadlock | nanovllm/engine/scheduler.py:152-315 | In an ample pool `schedule` returns a non-empty batch from every unfinished state at rest, or with a cut request that does not fit |
| Liveness.FreeCount | nanovllm/engine/block_manager.py:139-163 | Free pages and the table of the only holder add up to the pool |
| Liveness.FirstFits | nanovllm/engine/block_manager.py:171-186 | In an ample pool with nobody running and no chunk, any candidate fits, whatever its plan |
| Liveness.FirstRunningStays | nanovllm/engine/scheduler.py:43-55 | In an ample pool without a chunk, preemption never throws out the first running request |
| Roomy.RoomyRun | nanovllm/engine/scheduler.py:43-55 | With room for all live requests (each of maximal length) every run is safe, in both modes |
| Roomy.RoomyGenerate | nanovllm/engine/scheduler.py:43-55 | With that room no step of the loop cuts a resumed request |
| Roomy.NobodyPreempted | nanovllm/engine/scheduler.py:43-55 | With that room the decode reservation fits and preemption does nothing |
| FailingRun.FailingInput | nanovllm/engine/scheduler.py:290-291 | A run from the empty engine that fails the assertion on one uncomputed token: two requests of one token each and seven steps, in an ample pool, for every hash, network, admission mode and any prompts |
| CutResume.UnsafeNext | nanovllm/engine/scheduler.py:290-293 | After any computed batch, the next `schedule` fails its assertion if and only if the batch cut a prefill inside its completions and everybody running fits; otherwise it raises only for lack of budget |
| CutResume.LoneSafe | nanovllm/engine/scheduler.py:366-374 | For a request that waits alone, in both admission modes and an ample pool: its step is unsafe exactly if cached prefix and token budget end inside its completions before the last token but one |
| CutFails.CutIsFatal | nanovllm/engine/scheduler.py:290-293 | With a cut request that fits, everything before decode succeeds and `schedule` fails exactly the assertion |
| CutFails.TwoTokensFail | nanovllm/engine/scheduler.py:290-293 | Whatever else the state is: a running request, neither waiting nor the chunk, in queues without duplicates, with other than one token to compute makes the step after preemption fail, with an internal error and not one about budget |
| Postprocessing.PostprocessNearly | nanovllm/engine/scheduler.py:334-380 | On every computed batch `postprocess` succeeds and leaves the invariant, with a cut request at the end of the running queue exactly if the batch was not chunk-safe |
| Postprocessing.PostprocessAtRest | nanovllm/engine/scheduler.py:334-380 | It ends at rest if and only if the batch was chunk-safe |
| Postprocessing.PostprocessPosted | nanovllm/engine/scheduler.py:334-380 | The state it leaves, request by request and queue by queue: `running` is the surviving running requests in their order, then the promoted prefills in theirs |
| Postprocessing.OneChunk | nanovllm/engine/scheduler.py:366-376 | From any batch whatever, `postprocess` gets through only if at most one of its prefills is left short of its prompt |
| Postprocessing.FinalCases | nanovllm/engine/scheduler.py:347-364 | The four ways a request comes out of a step: untouched, advanced, given a token, given its last token |
| Delivery.DeliverOk | nanovllm/engine/scheduler.py:347-360 | After a delivery the request is finished if and only if it was, or the token is the end token and that is not ignored, or the completion has `max_tokens` tokens, or the sequence `max_model_len`; a finished one has given its pages back |
| Steps.ScheduleFromOk | nanovllm/engine/scheduler.py:152-319 | No assertion of `schedule` fails at rest: the batch is chunk, ranked prefix, all running requests, within token, sequence and page budgets, all prefills but possibly the last complete, the others still waiting in order; or it raises for lack of budget with nobody running |
| Policy.EmptySays | nanovllm/engine/scheduler.py:294-314 | Which exception a step raises that can schedule nobody: the one about too long a prompt if and only if prefills may not be cut and the first waiting request in rank order has more tokens behind its cached prefix than a step may compute; otherwise the one about no progress |
| Policy.RankingIs | nanovllm/engine/scheduler.py:65-78 | The ranking of a step, whenever somebody may be admitted: all waiting requests, with LPM by the number of pages that a lookup finds for each, equal ones in queue order; without LPM the queue as it is |
| Policy.AdmittedInOrder | nanovllm/engine/scheduler.py:65-78 | In the batch, whoever is admitted goes in that order before whoever is admitted behind him and before everybody left waiting |
| Maximal.ChunkInBatch | nanovllm/engine/scheduler.py:166-194 | The chunk is in the batch exactly if its share (what it lacks, or what the running requests leave of the token budget) is not empty and fits beside the pages decode will take, and gets exactly that share; waiting requests are admitted only beside a chunk that gets all it lacks |
| Maximal.ChunkShare | nanovllm/engine/scheduler.py:166-200 | A chunk that gets all it lacks does let the waiting requests in: they are ranked exactly if there is no chunk or it does, somebody waits, and tokens are left |
| Maximal.DecodePages | nanovllm/engine/scheduler.py:43-55 | Decode takes one page for each running request whose cached tokens fill its pages, and preemption stops exactly when there are as many free pages and tokens for everybody |
| Maximal.FrozenMaximal | nanovllm/engine/scheduler.py:226-262 | The frozen plan of a step gives every admitted request all its snapshot prefix, and stops only if everybody is in it, no more may run, its last request used up the tokens, or the next one is refused: too long to be whole where it must be, no tokens left, or more pages than are left, those counted once that others have claimed |
| Maximal.SameStepMaximal | nanovllm/engine/scheduler.py:95-150 | The same of same-step admission, with lookups and free pages of the state it leaves |
| Reuse.SameStepSees | nanovllm/engine/scheduler.py:106-145 | With same-step reuse: of two requests admitted one behind the other, the second starts behind all shared blocks that the first publishes in that step, as far as their hashes do not repeat |
| Reuse.FrozenSees | nanovllm/engine/scheduler.py:222-265 | Without it: every admitted request starts exactly behind the pages that a lookup finds before the step |
| Steps.PrefillSameStepOk | nanovllm/engine/scheduler.py:202-221 | The same-step half succeeds, admits a prefix of the ranking, and leaves the decode reservation untouched |
| Steps.PrefillFrozenOk | nanovllm/engine/scheduler.py:222-286 | So does the frozen-plan half: plan, claim, append the chunk, allocate |
| Steps.FrozenClaimsOk | nanovllm/engine/scheduler.py:264-265 | Every snapshot plan is still claimable when its turn comes; the claims take exactly the protected pages |
| Steps.DecodeAllOk | nanovllm/engine/scheduler.py:290-293 | The decode reservation is exact: every running request gets its one token and its page |
| Steps.RankedWaitingOk | nanovllm/engine/scheduler.py:195-198 | Looking up and ranking the waiting queue succeeds and yields sound plans for distinct idle requests |
| Steps.RemoveAllKeepsOrder | nanovllm/engine/scheduler.py:144-145 | Removing the admitted requests leaves the others in their original order |
| Prefill.CommitOk | nanovllm/engine/scheduler.py:95-150 | The admission loop never fails, admits the first m ranked requests, all complete but possibly the last, within the token budget and above the reserved pages |
| Prefill.AdmitOk | nanovllm/engine/scheduler.py:136-145 | One admission succeeds, takes exactly the required pages, and fills exactly that request |
| Prefill.AppendChunkOk | nanovllm/engine/scheduler.py:207-212 | The resumed chunk gets exactly its planned tokens and pages |
| Frozen.PlanFrozenOk | nanovllm/engine/scheduler.py:226-262 | The plan is a prefix of the ranking within both budgets, shared cached-free pages counted once |
| Frozen.ClaimAdmittedOk | nanovllm/engine/scheduler.py:264-265 | All planned prefixes can be claimed one after the other; free pages drop by exactly the protected set |
| Frozen.AllocateAdmittedOk | nanovllm/engine/scheduler.py:275-286 | All planned allocations succeed and end where they were planned to end |
| SchedulerState.PreemptTailLongest | nanovllm/engine/scheduler.py:43-55 | Preemption keeps `running ++ waiting`, the chunk and everybody else's pages, keeps the longest running prefix that fits once freed pages are counted, and restores rest if the cut request does not fit |
| SchedulerState.PreemptOk | nanovllm/engine/scheduler.py:321-324 | One preemption moves the last running request to the front of the waiting queue and leaves a state at rest, a cut request included |
| SchedulerState.PoolInvariant | nanovllm/engine/block_manager.py:139-163 | Free deque and used set partition the pages without duplicates, reference counts are the numbers of live tables, zero exactly when free, and hash-map entries name pages carrying the hash |
| SchedulerState.PartialPageOwner | nanovllm/engine/block_manager.py:405-449 | Tables have no repeats and an unpublished page has exactly one owner |
| SchedulerState.RequestPartition | nanovllm/engine/scheduler.py:26-35 | An unfinished request is in exactly one of the three places; a running one has one uncached token, a table of ceil(cached / B) pages, and exactly its full pages published |
| Ranking.SortStable | nanovllm/engine/scheduler.py:65-78 | The ranking is a permutation, ordered by hits, that keeps the order of requests with equal hits |
| Ranking.StableSortUnique | nanovllm/engine/scheduler.py:65-78 | Those properties determine the ranking |
| Matching.MatchPrefixSound | nanovllm/engine/block_manager.py:211-256 | For any hash function `match_prefix` never fails, and the page it returns for block i stands for exactly the request's first i + 1 blocks |
| Matching.MatchPrefixLongest | nanovllm/engine/block_manager.py:232-255 | Every plan that the cache supports is a prefix of the plan that `match_prefix` returns |
| Matching.ClaimPrefixOk | nanovllm/engine/block_manager.py:258-314 | A sound plan is claimed without raising "stale", taking exactly the distinct cached-free pages |
| Matching.PlanSurvivesClaims | nanovllm/engine/block_manager.py:258-314 | Claims by other requests do not invalidate a plan |
| Claims.ClaimExact | nanovllm/engine/block_manager.py:258-314 | In every consistent state `claim_prefix` accepts a plan if and only if the cache supports it now; a plan without repetitions whose first unsupported entry is within reach is called stale, any other fails an assertion |
| Claims.NothingUnchecked | nanovllm/engine/block_manager.py:188-314 | In any pool, consistent or not: a lookup, a claim or an allocation gets through only for a table of used pages that carry the request's own blocks, and a lookup finds, and a claim takes, only resident pages that are named by their hash and carry on from it |
| CacheInvariant.PublishMeaning | nanovllm/engine/block_manager.py:87-132 | A published page's canonical lineage stands for exactly the publisher's prefix, and no recorded meaning changes |
| CacheInvariant.PublishWorld | nanovllm/engine/block_manager.py:87-132 | Publishing keeps the whole pool invariant |
| CacheInvariant.ClaimWorld | nanovllm/engine/block_manager.py:149-158 | So does claiming a page, free or used |
| CacheInvariant.ReleaseWorld | nanovllm/engine/block_manager.py:373-385 | So does giving one page back |
| CacheInvariant.TakeWorld | nanovllm/engine/block_manager.py:139-147 | So does evicting and reusing a free page under a new generation |
| Republication.RepublishTransparent | nanovllm/engine/block_manager.py:104-132 | Publishing a block again under the same parent leaves every lookup as long as it was, and changes at most the page it names for that block |
| Growth.AllocateNewOk | nanovllm/engine/block_manager.py:331-365 | `allocate_new` never fails when its pages are free, and takes exactly ceil(n / B) |
| Growth.MayAppendOk | nanovllm/engine/block_manager.py:405-449 | `may_append` never fails when its pages are free, and takes exactly `num_blocks_to_append` |
| Claims.AllocateExact | nanovllm/engine/block_manager.py:331-365 | `allocate_new` succeeds if and only if the new tokens exist and there are pages for them |
| Claims.AppendExact | nanovllm/engine/block_manager.py:405-449 | `may_append` succeeds if and only if there are as many free pages as `num_blocks_to_append` says |
| Claims.AppendStarted | nanovllm/engine/block_manager.py:405-449 | Even with nothing to append, a started page that the table lacks is taken |
| Claims.StartedUnpublished | nanovllm/engine/block_manager.py:405-449 | In any pool, `may_append` writes on into a started page only if that page has not been published |
| Claims.ReleasedWereUsed | nanovllm/engine/block_manager.py:373-385 | In any pool, `deallocate` gets through only if every page that loses its last reference was among the used ones |
| FreeDeque.AllFree | nanovllm/engine/block_manager.py:64-69 | At first every page is free, in the order of their numbers, and nothing is named |
| FreeDeque.GrowTakesFront | nanovllm/engine/block_manager.py:331-449 | Pages are taken from the front of the free deque, in order |
| FreeDeque.TakeForgets | nanovllm/engine/block_manager.py:139-147 | Taking a page forgets the hashes that name it, and no others |
| FreeDeque.ClaimKeepsOrder | nanovllm/engine/block_manager.py:149-158 | A claim takes its pages out of the deque and leaves the others in order |
| FreeDeque.DeallocateOrder | nanovllm/engine/block_manager.py:373-385 | The deque after `deallocate` is the old one and then the pages that lost their last owner, the end of the table first |
| Growth.GrowOk | nanovllm/engine/block_manager.py:347-365 | Both loops end with a table of ceil(context / B) pages, exactly the full ones published |
| Growth.ClaimedPrefixHolds | nanovllm/engine/block_manager.py:188-209 | The validation before every lookup, claim and allocation holds |
| Boundary.DeallocateOk | nanovllm/engine/block_manager.py:373-385 | Giving a table back succeeds and keeps every published page findable with its content |
| Boundary.WritesComplete | nanovllm/layers/attention.py:12-31 | Once the step's writes have happened, pages published before their content was computed hold what they stand for |
| Boundary.ContextInMemory | nanovllm/engine/model_runner.py:414-425 | For every position p of a context, slot `block_table[p // B] * B + p % B` holds exactly that request's prefix up to p |
| WriteSafety.OldPagesKept | nanovllm/engine/model_runner.py:414-425 | No write of a step goes to a page that was published before the step, unless the step itself evicted the page and opened a new generation |
| WriteSafety.ComputedTokensKept | nanovllm/engine/model_runner.py:414-425 | No write of a step goes to the slot of a token computed before it, of any request that keeps its pages, and the slot of that token stays the same |
| WriteSafety.ScheduleSince | nanovllm/engine/block_manager.py:331-449 | What scheduling does to the pool: generations only go up, pages in use keep theirs, nothing is unpublished within a generation, and whoever holds a page published before has it completely cached |
| Addressing.SlotOfIsProduct | nanovllm/engine/model_runner.py:414-425 | The slot of a position is `block_table[p // B] * B + p % B` |
| Addressing.NewSlotsDistinct | nanovllm/engine/model_runner.py:414-425 | New tokens of one or of two requests have different slots |
| Addressing.NewSlotRight | nanovllm/engine/model_runner.py:414-425 | A written slot is in range, and on a published page it is given exactly what the page stands for |
| Addressing.CachedSlotAgrees | nanovllm/engine/model_runner.py:414-425 | A slot written in a step that another request counts as cached (a page published and claimed in that step) gets the very prefix that request has there |
| Addressing.BatchStored | nanovllm/layers/attention.py:34-41 | Storing a batch through its slot mapping writes every new token's slot and touches nothing else |
| Forward.RunLayersRight | nanovllm/layers/attention.py:131-142 | The layered pass of a batch over shared memory equals, for each token, the private pass over its request's own prefix |
| BatchForward.RunBatchRight | nanovllm/engine/model_runner.py:656-670 | Running a batch leaves memory right and samples for each request the token it would get alone |
| Engine.StepIsBatch | nanovllm/engine/llm_engine.py:53-63 | The step on arrays equals the step on requests, on every attention route; none of the checks objects |
| Kernel.KernelIsBatch | nanovllm/layers/attention_backend.py:939-1026 | Every attention route gives the batch's memory and tokens |
| Kernel.PlaceEntries | nanovllm/engine/model_runner.py:391-425 | Entry n of the prepared arrays describes query token n |
| Kernel.HeadAgrees | nanovllm/layers/embed_head.py:63-66 | The head reads the last row of exactly the requests that need logits |
| ModelInput.PrepareModelInput | nanovllm/engine/model_runner.py:361-484 | The loops build exactly the specified arrays, or raise as the code does; `Metadata.NumbersMean`, `Metadata.LengthsAttained` and `Kernel.PlaceEntries` say what the arrays mean |
| ModelInput.IntervalsArePointwise | nanovllm/engine/model_runner.py:414-425 | The interval loop is the token-by-token slot translation, for every alignment |
| ModelInput.PrepareBlockTables | nanovllm/engine/model_runner.py:354-358 | Rows are padded with -1 to the widest table |
| ModelInput.EmitSlots | nanovllm/engine/model_runner.py:410-425 | The page loop emits the intervals of one request, or -1 per token without a table |
| Metadata.LengthsAttained | nanovllm/engine/model_runner.py:405-408 | `max_q_len` and `max_kv_len` are exceeded by no request of the batch and attained by one |
| Metadata.NumbersMean | nanovllm/engine/model_runner.py:361-484 | The other numbers of the batch: sequence and token counts of both halves, query starts, context lengths, page counts and their sums; nothing about pages in a batch without any |
| Metadata.PreparedObjects | nanovllm/engine/model_runner.py:366-393 | What `prepare_model_input` objects to, and with which exception: exactly the assertion on the decode suffix, and the errors on an empty batch, a bad prefill count and a mix of paged and cacheless requests |
| Metadata.CheckedMeans | nanovllm/layers/attention_backend.py:1384-1481 | What the checked path guarantees about any metadata that it accepts |
| Metadata.TrustedMeans | nanovllm/layers/attention_backend.py:1384-1481 | What the fast path asks of metadata the engine vouches for, and that it asks no more |
| Metadata.TrustedAgrees | nanovllm/layers/attention_backend.py:666-767 | Trusted and checked metadata coincide on every scheduled batch |
| Metadata.ArraysValid | nanovllm/layers/attention_backend.py:1384-1481 | The engine's metadata passes every validation |
| Metadata.RowDecodes | nanovllm/layers/attention_backend.py:681-757 | Each row decodes to its block table and sequence length |
| Metadata.CountsAgree | nanovllm/engine/model_runner.py:431-435 | Block counts are the rounded-up quotients of the lengths |
| Metadata.Offsets | nanovllm/layers/attention_backend.py:701-703 | The offsets loop computes the prefix sums |
| Plans.PlanReadsContext | nanovllm/layers/attention_backend.py:769-894 | Whichever route is taken, each query row reads exactly its own context |
| Plans.PlanObjects | nanovllm/layers/attention_backend.py:769-894 | A plan is built exactly for accepted metadata whose offsets end at its last page, or that has no pages |
| Plans.SplitReads | nanovllm/layers/attention_backend.py:858-890 | The two slices tile the batch and read what the unified plan reads |
| Plans.UnifiedReads | nanovllm/layers/attention_backend.py:839-857 | Rows of the unified plan read their own contexts |
| Plans.PlanOfBatch | nanovllm/layers/attention_backend.py:776-894 | Which route and slices a batch gets |
| KvStore.StoreKvCache | nanovllm/layers/attention.py:34-41 | With distinct slots the result is the sequential one, in whatever order the programs run |
| KvStore.StoreProgram | nanovllm/layers/attention.py:12-31 | One program writes its own slot only, and none for -1 |
| KvStore.ForwardNative | nanovllm/layers/attention.py:69-85 | The masked store gives the same cache, or refuses a wrong length |
| Store.StoreAnyOrder | nanovllm/layers/attention.py:12-31 | Writes to distinct slots commute under every permutation |
| ModelRunners.ModelRunner.Run | nanovllm/engine/model_runner.py:656-670 | Preparing, planning and the layers over the arrays in place compute the kernel function |
| Sequences.AppendedIsRebuild | nanovllm/engine/sequence.py:113-131 | After any run of `append_token` the block hashes are those of a rebuild, one per full block |
| Sequences.Sequence.AppendToken | nanovllm/engine/sequence.py:113-131 | Appends one token, keeps the hashes those of a rebuild, and reaches none of its assertions |
| Sequences.Sequence.BuildBlockHashes | nanovllm/engine/sequence.py:61-70 | The loop computes the chained hash of every full block |
| BlockManagement.Block.Reset | nanovllm/engine/block_manager.py:36-44 | A new generation starts unpublished with its own lineage and one reference |
| BlockManagement.BlockManager.PublishFullBlock | nanovllm/engine/block_manager.py:87-132 | Page and hash map change as specified, canonical lineage included |
| BlockManagement.BlockManager.AllocateBlock | nanovllm/engine/block_manager.py:139-147 | A free page is evicted and taken; a page that is not free is an error |
| BlockManagement.BlockManager.NumBlocksRequiredForAdmission | nanovllm/engine/block_manager.py:171-186 | Counts the cached-free pages of the plan and the new pages |
| BlockManagement.BlockManager.ValidateClaimedPrefix | nanovllm/engine/block_manager.py:188-209 | The loop decides whether every claimed page is valid |
| BlockManagement.BlockManager.FindPrefix | nanovllm/engine/block_manager.py:211-256 | The lookup loop returns the specified match or error |
| BlockManagement.BlockManager.CheckPlan | nanovllm/engine/block_manager.py:258-306 | The checks of a plan, in order, with their error kinds |
| BlockManagement.BlockManager.ClaimPlan | nanovllm/engine/block_manager.py:258-314 | All checks precede the first change; then the pages are claimed |
| BlockManagement.BlockManager.AllocateNewBlocks | nanovllm/engine/block_manager.py:331-365 | The loop leaves the specified pool and table, or its error |
| BlockManagement.BlockManager.AppendBlocks | nanovllm/engine/block_manager.py:405-449 | The loop leaves the specified pool and table, or its error |
| BlockManagement.BlockManager.DeallocateSequence | nanovllm/engine/block_manager.py:373-385 | Pages are released from the end of the table |
| Schedulers.Scheduler.PreemptDecodeTail | nanovllm/engine/scheduler.py:43-55 | The loop reaches the state of the preemption function |
| Schedulers.Scheduler.RankWaiting | nanovllm/engine/scheduler.py:65-78 | The waiting requests come back in the order of the ranking function, which `Policy.RankingIs` describes |
| Schedulers.Scheduler.CommitWaitingSameStep | nanovllm/engine/scheduler.py:95-150 | The loop reaches the state and list of the admission function |
| Schedulers.Scheduler.PlanAdmissions | nanovllm/engine/scheduler.py:222-262 | The planning loop yields the list of the planning function, which `Maximal.FrozenMaximal` describes |
| Schedulers.Scheduler.ScheduleBatch | nanovllm/engine/scheduler.py:152-319 | State, ordered batch, prefill count and exception are those of the schedule function, in both modes; `Policy.EmptySays` says which exception |
| Schedulers.Scheduler.FinishSequence | nanovllm/engine/scheduler.py:326-332 | A finished request gives its pages back and leaves its queue |
| Schedulers.Scheduler.PostprocessBatch | nanovllm/engine/scheduler.py:334-380 | Deliveries, commits and final queues in place are those of the postprocess function; `Delivery.DeliverOk` says who is finished |

## Left out

- Numerics and random sampling: attention, the layers and the head are uninterpreted, and the next token is a function of its prefix.
- Tensor parallelism, the tokenizer, and loading weights.
- CUDA graphs, warm-up and the choice of the cache size; a batch without pages is prepared but its kernel is not modelled.
- Integer widths of the arrays: all numbers are unbounded.
- Statistics: hit counters, `num_scheduled_prefill_tokens`, route counters, reusable buffers, progress bars.
- The `max_blocks` argument and the compatibility wrappers `allocate`, `can_allocate`, `can_append`, `get_token_layout`, `compute_hash`, and pickling.
- The assertion that request and pool agree on the page size; both take it from one configuration here.
- The metadata of the other attention backend (nanovllm/layers/attention_backend.py:353-405), and checks of dtypes and devices.
- Republication.RepublishTransparent: a publication in general may redirect the hash map and so shorten a later match; only publishing an equal block again under the same parent is shown to leave every match as long as it was.
- The state after an exception.
