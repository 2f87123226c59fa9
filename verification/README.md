# A verified model of Aeon's run-time core

Aeon runs agent graphs, routes model calls, keeps evidence and assembles prompts. This Dafny project models the parts
of it whose correctness is hardest to see from the code, and proves what they promise over every input, every history
and every interleaving. `dafny verify dfyconfig.toml` checks the whole project.

| modules | part of Aeon |
|---|---|
| `Json`, `GraphRun`, `GraphBudget`, `GraphSafety`, `GraphOverlap`, `GraphOrder`, `GraphCollision`, `GraphOverrun`, `GraphMeaning`, `GraphConfluence`, `GraphTheorems`, `GraphEntry`, `GraphConditions`, `GraphAccount`, `Idempotency` | the graph runtime and the effects ledger |
| `EvidenceLedger`, `EvidenceHistory`, `ContradictionGroups` | the evidence ledger: what it accepts, stores and answers, and its contradiction groups |
| `StableSort`, `Retrieval` | the retrieval gateway: cache, access filter, two-level top-k |
| `ModelRouting`, `StreamRouting`, `CostCeiling` | model routing, its streaming variant, the cost ledger and ceiling |
| `ToolCatalog` | the live MCP tool catalogue |
| `Chunker` | the document chunker |
| `RunJournal` | the state indexed from a run's journal |
| `CircuitBreaker` | the rolling-window breaker |
| `ContextLanes`, `Compaction`, `RecallPointers`, `ContextBudget`, `ContextPointers` | the context pipeline: rendering, compaction, budgeting, integrity gate |

## How each part is modelled

**Graph runtime.** The coroutines of a run share counters, a step sequence and a context. `GraphRun.Task` is a suspended
coroutine, `GraphRun.Run` the shared state, and `GraphRun.Step` resumes one coroutine up to its next suspension;
`GraphRun.Execute` carries out an arbitrary schedule. Nothing is assumed about the order in which a `gather`'s children
move, and what they await (tool output, policy, approval, time, pause) comes with each move. `GraphMeaning.Eval` defines,
without any scheduler, what a graph computes; the two are connected by a simulation in `GraphConfluence`.

Where the order matters, `GraphOrder.InOrder` says which schedules the event loop can make: `gather` queues its children in
list order, the loop runs what was queued first, and no answer overtakes, inside a gather, a child that is only queued.
Several answers may arrive at once. `GraphOrder.AllPrompt` are the schedules in which answers come one at a time, each when
nothing else can run, and none is a failure. Bounds are proved over all interleavings or over all schedules in order;
overruns are shown by prompt schedules.

**Objects updated in place** (evidence store, retrieval gateway, effects ledger, tool catalogue, breaker, run state,
model gateway, cost handlers) are classes whose methods are proved against functions from old state to new; what the
program promises is then proved about those functions over whole histories. Loops of the source (chunking, compaction,
budgeting, the cascades, sorting) are methods with loops.

**What the functions mean** is stated apart from them: conditions and labels over values (`GraphConditions`), entry checks,
limits and the way of a call over steps and runs (`GraphEntry`), the ledger over the calls made to it (`EvidenceHistory`),
routing over the fields of answers, money and rows over slots and rates, the prompt over the entries given. A completed run's
result tree is shown to be a full account of the calls the run made (`GraphAccount.ResultAccountsForEveryCall`).

**Outside parties are oracles.** Providers, tools, policies, quality gates, callers of a stream and connectors may answer
anything; a streaming adapter is an arbitrary strategy (`ModelRouting.Script`). SHA-256 is taken as injective, UUIDs as
numbers that do not repeat, floats as reals, JSON documents as values.

## What the proofs found

- A comment at python/aeon_worker/graph.py:264-268 says the executed count never exceeds `max_tool_calls`, and
  python/aeon_worker/graph.py:61-63 promises the same of every budget. A gated tool call waits for its approval, and every
  external activity for its policy answer, between the limit check and the increment. A graph keeps its limit under the
  event loop exactly when nothing collides (`GraphOverrun.LimitKeptIff`): in no gather is a call held before another one is
  made in the same opening wave, or held at any time while another child makes one after it awaited something. Both halves
  are proved for graphs whose nodes all await something; they meet when there are no conditionals and loops run all their
  iterations, and otherwise speak of collisions that may happen and that surely happen outside conditionals. The order of
  a gather's list decides: an ungated call listed before a gated one keeps every limit, listed after it does not
  (`GraphOverrun.OrderOfTheListMatters`). Other witnesses: `GraphSafety.GatedCallsOverrun`,
  `GraphSafety.MixedGraphOverruns`, `GraphOverrun.ActivityPairOverruns`.
- Reusing a claim id in the evidence ledger can forget an accepted contradiction
  (`ContradictionGroups.ReusedClaimIdLosesItsGroup`). An accepted packet keeps the groups right exactly when it reuses no id,
  or the replaced claim had no group, or the packet contradicts something and takes that group along or was alone in it
  (`ContradictionGroups.ReuseKeepsComponentsIff`, for histories `ContradictionGroups.AlwaysComponentsIff`).
- Registering a retrieval connector again leaves its cached lists (`Retrieval.ReplacedConnectorIsStale`). Every later search
  is right, whatever else is registered, exactly when the new connector agrees with each list cached under its name
  (`Retrieval.RegisteringHarmlessIff`). Access control holds in any case (`Retrieval.NothingHiddenIsReturned`).
- A comment at go/internal/mcp/catalog.go:234-235 says the fingerprint of an unhashable descriptor never matches. It is built
  from version and update time, so it matches when these repeat, and the tool then stays stale
  (`ToolCatalog.UnmarshallableToolGoesStale`, exactly when: `ToolCatalog.RefreshIsColdStartIff`).
- `recordCost` returns after writing a replay's zero row (go/internal/api/model_gateway_handlers.go:237-265), so attempts
  discarded before a replay leave no row (`CostCeiling.ReplayHidesDiscardedTokens`), and a discarded answer that is itself a
  replay is charged again (`CostCeiling.DiscardedReplayIsChargedAgain`). Exactly when the ledger is right is
  `CostCeiling.TokensConservedIff` for the tokens reported and `CostCeiling.TokensSpentIff` for those spent.
- `DecideStream` is documented to route exactly like `Decide` (go/internal/modelgateway/streaming.go:66), but inspects no
  answer, so it serves the empty answers `Decide` discards (`StreamRouting.StreamServesAnEmptyAnswer`). Where a candidate's
  stream fails before its first chunk exactly when its whole answer would be an error, both stop at the same candidate
  exactly when `Decide` discards no answer on the way (`StreamRouting.RoutesLikeDecideIff`).
- A comment at go/internal/api/model_gateway_handlers.go:556-559 bounds the overshoot of a ceiling by one call's cost. That
  holds of requests that come one at a time; overlapping ones exceed it (`CostCeiling.OverlappingOvershoot`), and the bound
  is then what was in flight after the latest admission (`CostCeiling.CeilingOverEveryRun`).
- python/aeon_context/budgeter.py:50-53 says the most volatile lanes are dropped first, and lines 5-10 that the prefix of a
  prompt stays as it is. A large lane can be dropped while a more volatile one is kept
  (`ContextBudget.LessVolatileLaneDropped`, exactly when: `ContextBudget.MostVolatileFirstIff`), and a task state that grows
  can evict a lane before it (`ContextBudget.GrowingStateBreaksThePrefix`, exactly when: `ContextBudget.PrefixIsStableIff`).
- A text cut inside a recall pointer swallows the pointer on the next line into an id that resolves to nothing
  (`ContextPointers.CutPointerDangles`). A prompt finds exactly the pointers of its lines when no line leaves one open that a
  later line closes, and only then (`ContextPointers.PromptFindsItsOwnIff`).

## Model

| member | source | states |
|---|---|---|
| GraphBudget.StepCost | python/aeon_worker/graph.py:219-260 | one atomic block of any coroutine pays for the activities it schedules, and for itself, out of the bound left for the graph |
| GraphBudget.StepFits | python/aeon_worker/graph.py:219-260 | a coroutine keeps the shape of its graph (all calls gated, none gated, or nothing concurrent) |
| GraphBudget.StepCounter | python/aeon_worker/graph.py:263-283 | the only ways one block moves a counter and the calls suspended between check and increment |
| GraphBudget.StepFaithful | python/aeon_worker/graph.py:214-260 | every block keeps: counters equal activities scheduled, step numbers are 1, 2, 3, ..., depth and deadline respected |
| GraphSafety.EveryRunFaithful | python/aeon_worker/graph.py:225-260 | in every reachable state of every schedule the counters equal the work scheduled, `depth` is the greatest depth reached and within `max_depth`, and no node starts at or after the deadline |
| GraphSafety.StepNumbersDistinct | python/aeon_worker/graph.py:214-216 | no two tool calls of a run share a step number, even with the same id and arguments |
| GraphSafety.EveryRunBounded | python/aeon_worker/graph.py:410-475 | every schedule ends within a number of steps, and of activities, computed from the graph alone: sums over children, the larger branch, `max_iterations` times a body |
| GraphOverlap.UngatedLimitExact | python/aeon_worker/graph.py:269-299 | with no approval-gated call, no interleaving schedules more tool activities than `max_tool_calls` |
| GraphSafety.HeldCallBound | python/aeon_worker/graph.py:269-283 | all-gated tool calls overrun a positive limit by at most P - 1, P the peak held between check and increment |
| GraphSafety.MixedCallBound | python/aeon_worker/graph.py:269-283 | gated and ungated calls together overrun a positive limit by at most P |
| GraphSafety.ZeroLimitAdmitsNothing | python/aeon_worker/graph.py:336-340 | a limit of zero admits nothing, gated or not, tool or external |
| GraphOverlap.StraightLimitExact | python/aeon_worker/graph.py:336-366 | a graph that runs nothing concurrently keeps both limits exactly |
| GraphOverlap.StepSeparate | python/aeon_worker/graph.py:417-428 | a graph whose gathers cannot hold one call while making another stays so as it runs |
| GraphOverlap.HeldStepAdmitsNothing | python/aeon_worker/graph.py:269-283 | in such a graph, while a call is held, whatever moves admits no other |
| GraphOverlap.SeparateLimitExact | python/aeon_worker/graph.py:61-63 | such a graph keeps every limit in every interleaving whatever, whether or not the event loop can make it |
| GraphOrder.StepMoves | python/aeon_worker/graph.py:417-428 | a step changes what is queued and what is held only at the coroutine that moves |
| GraphOrder.WaveMovers | python/aeon_worker/graph.py:417-428 | in the wave a gather sets off, what moves is queued or is answered |
| GraphOrder.PromptIsInOrder | python/aeon_worker/graph.py:417-428 | prompt schedules are among those the event loop can make |
| GraphCollision.StepKeepsWaves | python/aeon_worker/graph.py:417-428 | under the event loop, while a child of a gather is only queued nothing in the gather was answered, and each held call precedes each queued child |
| GraphCollision.AdmittedWhere | python/aeon_worker/graph.py:263-366 | a call is admitted where its graph makes one: in front by a queued coroutine, late by any other |
| GraphCollision.HeldAdmitsNothing | python/aeon_worker/graph.py:269-283 | where nothing collides, whatever moves while a call is held admits no other |
| GraphCollision.NoCollisionLimitExact | python/aeon_worker/graph.py:61-63 | a graph in which nothing collides keeps every limit in every schedule of the event loop, with any branches, failures and pauses |
| GraphOverrun.Completes | python/aeon_worker/graph.py:219-260 | a runnable node can always be run promptly to completion, from any state of the run |
| GraphOverrun.OwedIsAdmitted | python/aeon_worker/graph.py:263-366 | a coroutine that completes owing a call admits one on the way |
| GraphOverrun.WaveMeets | python/aeon_worker/graph.py:417-428 | a wave that has a held call queued before another call makes the second while the first is held |
| GraphOverrun.LatePairMeets | python/aeon_worker/graph.py:417-428 | so do two children when one holds a call and the other makes one after it awaited something |
| GraphOverrun.StartMeets | python/aeon_worker/graph.py:219-260 | a graph that surely collides can be run promptly to a call made while another is held |
| GraphOverrun.RunsUnderLimit | python/aeon_worker/graph.py:269-283 | a run that admits every call below a limit runs the same under it |
| GraphOverrun.RunsOnPast | python/aeon_worker/graph.py:269-283 | after such a call the run goes on until everything waits, with more admitted than the last admission needed as a limit |
| GraphOverrun.CollisionOverruns | python/aeon_worker/graph.py:264-283 | a graph that surely collides exceeds some positive limit under a prompt schedule in which nothing fails |
| GraphOverrun.LimitKeptIff | python/aeon_worker/graph.py:61-63 | under the event loop a graph keeps its limit iff nothing in it collides (an iff without conditionals and with loops that run through; otherwise both halves, for what may and what surely collides) |
| GraphOverrun.OrderOfTheListMatters | python/aeon_worker/graph.py:417-428 | an ungated call listed before a gated one keeps every limit, listed after it does not |
| GraphOverrun.LateHoldIsSafe | python/aeon_worker/graph.py:417-428 | an ungated call made at the start of a gather is counted before a later gated one of another child is checked |
| GraphOverrun.ActivityPairOverruns | python/aeon_worker/graph.py:336-366 | two ungated external activities in parallel exceed `max_activity_calls` = 1 |
| GraphSafety.MixedGraphOverruns | python/aeon_worker/graph.py:264-283 | a two-call graph and a schedule that exceed `max_tool_calls` = 1 with only one call ever held |
| GraphSafety.GatedCallsOverrun | python/aeon_worker/graph.py:275-283 | for every p, p gated calls in parallel under a limit of one can all run |
| GraphMeaning.EvalFrame | python/aeon_worker/graph.py:431-435 | what a node computes depends only on the context entries its conditionals name |
| GraphMeaning.EvalWrites | python/aeon_worker/graph.py:259-260 | a node writes only its own id and its descendants' |
| GraphConfluence.TakesErased | python/aeon_worker/graph.py:161-167 | a condition without key literals cannot tell apart contexts equal up to idempotency keys |
| GraphConfluence.StepMeaning | python/aeon_worker/graph.py:417-428 | one block of any coroutine leaves the meaning of what remains unchanged, siblings included |
| GraphTheorems.ExecuteMeaning | python/aeon_worker/graph.py:219-260 | a whole schedule does the same |
| GraphTheorems.CompletedRunComputesMeaning | python/aeon_worker/graph.py:219-260 | a completed run of any schedule has the result tree and context of the scheduler-free evaluation, up to idempotency keys |
| GraphTheorems.ScheduleIndependence | python/aeon_worker/graph.py:417-428 | two completed runs of one graph agree on result tree and context, up to idempotency keys, however interleaved |
| GraphTheorems.EveryCalmRunCompletes | python/aeon_worker/graph.py:219-260 | with no limit and nothing failing, no schedule gets stuck or runs forever, and it ends with the graph's meaning |
| GraphEntry.EntryTells | python/aeon_worker/graph.py:219-237 | a node without an id, below `max_depth`, or at or past the deadline is refused in that order and starts nothing; a paused run holds it; otherwise it is dispatched |
| GraphEntry.StructureTells | python/aeon_worker/graph.py:410-475 | what each composite node starts: which children, under which ids, a subgraph one deeper, an invalid loop or an unknown kind refused |
| GraphEntry.SequenceGoesOn | python/aeon_worker/graph.py:410-414 | a sequence starts its next child after each result, and closes with all results in order |
| GraphEntry.IterationIdTells | python/aeon_worker/graph.py:457-459 | iteration i of a loop runs under the body id followed by i in decimal, without leading zeros, in square brackets |
| GraphEntry.ToolCallRuns | python/aeon_worker/graph.py:263-306 | a tool call that completes was below its limit, was granted if it asks for approval, and made exactly one dispatch of its own tool and arguments, whose step number and digest its result carries with the output |
| GraphEntry.ToolRefusedIff | python/aeon_worker/graph.py:264-283 | a tool call is refused for its limit iff one more would pass it, before anything is asked or done |
| GraphEntry.ActivityRuns | python/aeon_worker/graph.py:309-407 | an external activity that completes was below its limit, then let through by the policy its result names, then granted if it asks for approval, and only then scheduled, once |
| GraphEntry.ActivityRefusedIff | python/aeon_worker/graph.py:324-340 | refused as invalid iff it lacks a name or a queue, for its limit iff one more would pass it, and then without asking the policy |
| GraphEntry.FailureTells | python/aeon_worker/graph.py:342-366 | a refused approval, a refused policy and a failed activity end a call with their own errors and schedule nothing |
| GraphConditions.PyEqualIsSame | python/aeon_worker/graph.py:161-164 | the comparison is equality of values at every depth, with True equal to 1 and False to 0 |
| GraphConditions.ResolveFinds | python/aeon_worker/graph.py:147-158 | a dotted path resolves to x iff a chain of nested objects leads along its names to x |
| GraphConditions.MatchesIffSatisfies | python/aeon_worker/graph.py:161-167 | a condition matches iff something equal to the literal lies at the path, or iff something lies there as `exists` says; it fails iff it has no comparator |
| GraphConditions.ConditionalStep | python/aeon_worker/graph.py:431-438 | a conditional enters `if_true` iff the entry it names is there and satisfies its condition, otherwise `if_false`, or closes with "none" when there is none |
| GraphConditions.EqualsChosenIff | python/aeon_worker/graph.py:431-434 | under `equals` an entry holding x at the path is chosen iff x equals the literal; a missing entry or a missing path never is |
| GraphConditions.ExistsChosenIff | python/aeon_worker/graph.py:165-166 | `exists: true` and `exists: false` choose opposite branches of an entry that is there, and neither chooses a missing one |
| GraphConditions.BranchStep | python/aeon_worker/graph.py:440-446 | a finished branch is labelled "if_true" or "if_false" after the branch that ran, with its result |
| GraphConditions.LoopStep | python/aeon_worker/graph.py:449-466 | a loop stops with "condition_met" iff the iteration just finished satisfies the stop condition, with "max_iterations" iff it does not and was the last, and otherwise goes on |
| GraphConditions.SequenceMeaning | python/aeon_worker/graph.py:410-414 | a sequence whose children ran one after another, each in the context the earlier ones left, lists their results in order |
| GraphConditions.SequenceTrace | python/aeon_worker/graph.py:410-414 | and every meaning of a sequence arises so |
| GraphConditions.LoopMeaning | python/aeon_worker/graph.py:449-466 | a loop lists the iterations up to the first whose result satisfies the stop condition, at most `max_iterations`, and says which of the two ended it |
| GraphConditions.LoopTrace | python/aeon_worker/graph.py:449-466 | and every meaning of a loop arises so |
| GraphConditions.GatherMeaning | python/aeon_worker/graph.py:417-428 | a gather lists its children's results in the order of the spec; a fan-in also each child's "result" entry, or the whole result where it has none |
| GraphConditions.GatherTrace | python/aeon_worker/graph.py:417-428 | and every meaning of a gather arises so |
| GraphConditions.ConditionalMeaning | python/aeon_worker/graph.py:431-446 | a conditional means its `if_true` iff the entry satisfies the condition, and is labelled with what ran |
| GraphConditions.ToolMeaning | python/aeon_worker/graph.py:300-306 | a tool call's result holds what the tool answered next to the call's id |
| GraphConditions.ActivityMeaning | python/aeon_worker/graph.py:324-407 | an external activity's result names the activity, its queue and the permitting policy; without a name or a queue there is none |
| GraphConditions.SubgraphMeaning | python/aeon_worker/graph.py:469-475 | a subgraph wraps its graph's result under its own id |
| GraphAccount.StepBalanced | python/aeon_worker/graph.py:219-260 | under any limits and answers, a step makes exactly the calls its coroutine comes to carry, unless something in it raised |
| GraphAccount.BrokenStays | python/aeon_worker/graph.py:417-428 | a run in which a coroutine raised never completes |
| GraphAccount.ResultAccountsForEveryCall | python/aeon_worker/graph.py:293-306 | whatever the schedule, the calls recorded in a completed run's result tree, read by the shape of the graph, are exactly the tool calls and external activities the run scheduled, each tool call with the digest it was dispatched under |
| Idempotency.EffectsLedger.RecordOnce | python/aeon_worker/idempotency.py:42-56 | writes a key at most once and always returns its recorded result; a missing or undecodable file reads as empty |
| Idempotency.CountIsWrites | python/aeon_worker/idempotency.py:58-61 | the count is the number of attempts that wrote under a key: none before an attempt at it, one ever after |
| Idempotency.FirstAttemptWins | python/aeon_worker/idempotency.py:48-56 | after any series of attempts a key holds the result of its first attempt |
| Idempotency.ExactlyOnce | python/aeon_worker/graph.py:285-299 | whatever the schedule and the retries, an attempt writes iff it is the first at its call, and every attempt is told the first one's result |
| EvidenceLedger.Store.Add | python/aeon_evidence/ledger.py:26-45 | the whole new ledger and the answer, as functions of the old one; what these mean is stated by EvidenceHistory and ContradictionGroups |
| EvidenceLedger.Store.ResolveOrCreateGroup | python/aeon_evidence/ledger.py:47-64 | relabels every group the named claims belong to, and nothing else, to the least of them or a new one |
| EvidenceLedger.Store.FirstUnknown | python/aeon_evidence/ledger.py:32-35 | the first named claim that is not stored, none iff all are |
| EvidenceHistory.OneClaimPerQuote | python/aeon_evidence/ledger.py:26-45 | after any history, claim ids reused or not, two different stored claims never have the same source and quote |
| EvidenceHistory.DuplicateIff | python/aeon_evidence/ledger.py:32-34 | a call is answered as a duplicate iff an earlier accepted call had its source and quote, and then it changes nothing |
| EvidenceHistory.DuplicateReturnsTheQuoteIff | python/aeon_evidence/ledger.py:32-34 | the packet it is answered with is the one stored for that call's claim, and has the repeated source and quote iff no later call for that claim was accepted |
| EvidenceHistory.NewQuote | python/aeon_evidence/ledger.py:32-45 | two accepted calls never have the same source and quote |
| EvidenceHistory.StoredAsLatest | python/aeon_evidence/ledger.py:43-45 | a claim is stored once a call for it was accepted, with the source and quote of the latest such call |
| EvidenceHistory.StoredIff | python/aeon_evidence/ledger.py:36-50 | a call that repeats no quote is stored iff every claim it contradicts had an accepted call; otherwise it changes nothing and names the first that had none |
| ContradictionGroups.ReuseKeepsComponentsIff | python/aeon_evidence/ledger.py:37-64 | an accepted packet keeps groups equal to connected components iff it reuses no claim id or reuses one without harm |
| ContradictionGroups.AlwaysComponentsIff | python/aeon_evidence/ledger.py:26-64 | groups are components after every add of a history iff no add of it reuses an id harmfully |
| ContradictionGroups.AlwaysAtEveryAdd | python/aeon_evidence/ledger.py:26-64 | always means after every prefix of the history |
| ContradictionGroups.GroupsAreComponents | python/aeon_evidence/ledger.py:26-64 | after any history without a harmful reuse two claims share a group iff connected by accepted contradictions, and a claim has a group iff it is in some contradiction |
| ContradictionGroups.ReusedClaimIdLosesItsGroup | python/aeon_evidence/ledger.py:26-45 | a history with a harmful reuse: two connected claims in no common group |
| StableSort.SortIsStableDescending | python/aeon_evidence/retrieval.py:92-114 | sorting is a stable descending permutation |
| StableSort.StableOrderUnique | python/aeon_evidence/retrieval.py:92-114 | which determines the result |
| StableSort.TwoLevelTopK | python/aeon_evidence/retrieval.py:92-114 | cutting each list to its k best before the final sort and cut loses nothing, ties included |
| Retrieval.Gateway.RegisterConnector | python/aeon_evidence/retrieval.py:89-90 | replaces or appends a connector, and leaves the cache |
| Retrieval.Gateway.Search | python/aeon_evidence/retrieval.py:92-114 | the result and the cache left behind, as functions of the earlier cache |
| Retrieval.Gateway.FilterVisible | python/aeon_evidence/retrieval.py:92-114 | the visible documents in the connector's order with their scores; which these are is Retrieval.ScoredWhich |
| Retrieval.ScoredWhich | python/aeon_evidence/retrieval.py:101-108 | kept and scored are exactly the documents without an acl or with a scope of the caller's in it |
| Retrieval.SearchIsPlain | python/aeon_evidence/retrieval.py:92-114 | from a sound cache, search equals the first k of all visible scored documents in stable descending order |
| Retrieval.EverySearchIsPlain | python/aeon_evidence/retrieval.py:84-114 | and so it does after any history of searches and registrations that agree with the cache they meet |
| Retrieval.RegisteringSoundIff | python/aeon_evidence/retrieval.py:89-90 | registering keeps every cached list what its connector would answer iff the new connector agrees with the lists under its name |
| Retrieval.RegisteringHarmlessIff | python/aeon_evidence/retrieval.py:89-114 | every later search equals the plain one, whatever connectors stand before and after it and whatever else is registered and searched, iff the new connector agrees with each list cached under its name |
| Retrieval.NothingHiddenIsReturned | python/aeon_evidence/retrieval.py:3-8 | after any history, connectors replaced over cached lists included, every returned document has an empty acl or names one of the caller's scopes |
| Retrieval.SearchReturnsWhatMayBeRead | python/aeon_evidence/retrieval.py:92-114 | with room for every candidate, a search from a sound cache returns exactly the candidates with an empty acl or a shared scope, with their scores |
| Retrieval.ScopesOnlyReveal | python/aeon_evidence/retrieval.py:101-103 | a caller without scopes gets exactly the public documents, and more scopes hide nothing |
| Retrieval.ReplacedConnectorIsStale | python/aeon_evidence/retrieval.py:89-90 | a replaced connector's documents are still served |
| ModelRouting.RestrictPool | go/internal/modelgateway/gateway.go:288-302 | the in-network candidates for restricted data, an error iff there are none |
| ModelRouting.SortByPriority | go/internal/modelgateway/gateway.go:182-184 | some permutation by nondecreasing priority, nothing about ties |
| ModelRouting.Gateway.RegisterProvider | go/internal/modelgateway/gateway.go:166-168 | adds or replaces one provider |
| ModelRouting.Gateway.Decide | go/internal/modelgateway/gateway.go:174-280 | result, attempt log and provider calls are those of the first serving candidate of a priority order (which candidate that is, and what the log says, is stated below); when the pool is empty for restricted data no provider is called |
| ModelRouting.Gateway.Cascade | go/internal/modelgateway/gateway.go:186-280 | one attempt per candidate up to the first usable one, invoking exactly the tried ones that are registered and not degraded |
| ModelRouting.Gateway.Try | go/internal/modelgateway/gateway.go:187-276 | one candidate: its logged attempt, whether its provider was called, and its answer iff it serves |
| ModelRouting.ServedIsBest | go/internal/modelgateway/gateway.go:170-184 | a call is served iff some allowed candidate is usable, and by one of least priority among them |
| ModelRouting.RestrictedStaysInside | go/internal/modelgateway/gateway.go:171-173 | a restricted call invokes in-network providers only |
| ModelRouting.OrderIsForced | go/internal/modelgateway/gateway.go:182-184 | with distinct priorities the route does not depend on how candidates are listed |
| ModelRouting.DiscardedAttempts | go/internal/modelgateway/gateway.go:116-124 | the attempts that carry a discarded answer, in order |
| ModelRouting.DiscardedAreWasted | go/internal/modelgateway/gateway.go:252-262 | those are exactly the candidates that answered unusably, each with its whole answer |
| ModelRouting.ServesIffUseful | go/internal/modelgateway/gateway.go:309-329 | a candidate serves iff its provider is called and answers with a first choice that was cut by length, calls a tool, or has content that is not white space |
| ModelRouting.EndsAtFirstUsefulAnswer | go/internal/modelgateway/gateway.go:186-279 | the cascade is served iff some candidate's provider gives a useful answer, and by the first one, with that answer |
| ModelRouting.AttemptTells | go/internal/modelgateway/gateway.go:187-242 | each attempt names its candidate and says whether it was skipped, not registered or failed, with the provider's own error as the cause |
| ModelRouting.AnswerTells | go/internal/modelgateway/gateway.go:243-276 | an answered attempt is discarded, with its whole answer, iff the answer is no use, under a reason that tells apart no choices, reasoning only and nothing |
| ModelRouting.InvokedTells | go/internal/modelgateway/gateway.go:186-222 | the providers called are those of the tried candidates that are registered and not degraded |
| ModelRouting.SpaceCodes | go/internal/modelgateway/gateway.go:321-326 | white space is exactly the code points `strings.TrimSpace` removes |
| StreamRouting.DecideStream | go/internal/modelgateway/streaming.go:68-195 | result, log and event trace are those of the first candidate that delivers a chunk or ends without error |
| StreamRouting.StreamCascade | go/internal/modelgateway/streaming.go:81-194 | the same for a given order, with the error of a broken stream passed on |
| StreamRouting.Invoke | go/internal/modelgateway/streaming.go:162-167 | a streaming adapter plays its script; any other answers in one chunk whose fate is the caller's |
| StreamRouting.RunAdapter | go/internal/modelgateway/streaming.go:146-164 | the chunks delivered, and the error returned, by any adapter against any caller |
| StreamRouting.StreamedIsARun | go/internal/modelgateway/streaming.go:136-170 | a streaming adapter that ends the cascade is run from start to end: its chunks in order, each after the caller's answer to the one before, its error the call's |
| StreamRouting.SingleChunkTells | go/internal/modelgateway/streaming.go:201-228 | without streaming the caller gets one chunk with the content and finish reason of the answer's first choice and the model and usage it reported |
| StreamRouting.StreamTells | go/internal/modelgateway/streaming.go:81-194 | exactly the tried candidates that are registered and not degraded are invoked, and announced iff asked, and each attempt says what became of its candidate |
| StreamRouting.TraceIsWellFormed | go/internal/modelgateway/streaming.go:125-178 | every trace obeys the local ordering rules of announcements, invocations and chunks |
| StreamRouting.NoSplicing | go/internal/modelgateway/streaming.go:40-54 | all chunks come from one candidate, nothing is invoked or announced after the first, and the last announcement before it named that candidate |
| StreamRouting.RoutedIsUnspliced | go/internal/modelgateway/streaming.go:81-195 | so it is in every trace of the streaming cascade, and `DecideStream` promises it of its own |
| StreamRouting.StopsIffAnswered | go/internal/modelgateway/streaming.go:163-191 | a candidate whose stream and answer fail alike ends the streaming cascade iff it answers, usably or not |
| StreamRouting.RoutesLikeDecideIff | go/internal/modelgateway/streaming.go:66-67 | over such candidates both cascades stop at the same one iff `Decide` discards no answer before it |
| StreamRouting.StreamServesAnEmptyAnswer | go/internal/modelgateway/streaming.go:163-191 | an empty first answer: `Decide` serves the second candidate, the stream the first |
| CostCeiling.Exceeded | go/internal/api/model_gateway_handlers.go:607-619 | a refusal names the first ceiling reached, in the order cost, tokens, calls; none iff none is reached |
| CostCeiling.Refusal | go/internal/api/model_gateway_handlers.go:573-605 | a call is refused iff it names a run with a declared ceiling on a readable ledger and some ceiling is reached |
| CostCeiling.ModelGatewayHandlers.OverBudget | go/internal/api/model_gateway_handlers.go:568-622 | refuses exactly then, and never without a run, a ceiling or a readable ledger |
| CostCeiling.ModelGatewayHandlers.RecordCost | go/internal/api/model_gateway_handlers.go:198-315 | the rows of a served call, appended; what they hold is CostCeiling.RowTells, what they add up to TokensConservedIff, MoneyIsConserved and CallsAreCounted |
| CostCeiling.ModelGatewayHandlers.RecordFailure | go/internal/api/model_gateway_handlers.go:444-450 | the rows of a call nobody served, appended; what they hold is CostCeiling.RowTells |
| CostCeiling.ModelGatewayHandlers.RecordDiscardedAttempts | go/internal/api/model_gateway_handlers.go:331-379 | the rows of the discarded attempts that reported usage, appended; what they hold is CostCeiling.RowTells |
| CostCeiling.TokensConservedIff | go/internal/api/model_gateway_handlers.go:198-315 | recorded tokens equal those the answering models reported iff the call was not served by a replay or discarded no tokens before it |
| CostCeiling.MoneyIsConserved | go/internal/api/model_gateway_handlers.go:198-379 | the recorded cost of a call is the rate of each tried candidate's model for the counters its answer reported, served and discarded alike, and nothing when a replay served it |
| CostCeiling.CallsAreCounted | go/internal/api/model_gateway_handlers.go:198-379 | a call counts once for what it serves and, unless that is a replay, once for each discarded answer that reported a counter |
| CostCeiling.RowTells | go/internal/api/model_gateway_handlers.go:271-374 | every row tells of one answer: its candidate, counters, price when both counters were reported, and whether it was discarded; a replay leaves one row of nothing |
| CostCeiling.ReplayHidesDiscardedTokens | go/internal/api/model_gateway_handlers.go:237-265 | a replay after a discarded answer: ten tokens spent, none recorded |
| CostCeiling.TokensSpentIff | go/internal/api/model_gateway_handlers.go:198-379 | recorded tokens equal those spent, replays spending none, iff no unserved answer before a replay spent any, or, when no replay serves, no unserved answer was itself a replay that reports tokens |
| CostCeiling.DiscardedReplayIsChargedAgain | go/internal/api/model_gateway_handlers.go:340-374 | a discarded replay spends nothing and is charged ten tokens |
| CostCeiling.RowsAreSensible | go/internal/api/model_gateway_handlers.go:271-307 | with no negative rate a call writes only rows of its own run and of no negative cost |
| CostCeiling.CeilingOverEveryRun | go/internal/api/model_gateway_handlers.go:593-622 | for cost, tokens and calls alike, however requests of a named run overlap and whatever rows are lost, recorded plus owed spend stays below the ceiling plus what was in flight right after the latest admission |
| CostCeiling.SequentialOvershoot | go/internal/api/model_gateway_handlers.go:556-563 | one request at a time, a run stays below the ceiling plus its last admitted request |
| CostCeiling.OverlappingOvershoot | go/internal/api/model_gateway_handlers.go:556-563 | two overlapping requests pass a ceiling by more than one call's cost |
| CostCeiling.ReachedIsFinal | go/internal/api/model_gateway_handlers.go:607-622 | a ceiling once reached stays reached, admits nothing more, and bounds what the run can still record |
| ToolCatalog.CurrentVersions | go/internal/mcp/catalog.go:91-107 | the newest row of each named tool |
| ToolCatalog.NewestIsCurrent | go/internal/mcp/catalog.go:80-90 | a tool is current with exactly its newest row, the earliest row winning a tie, in any listing order |
| ToolCatalog.Catalog.Apply | go/internal/mcp/catalog.go:111-156 | the whole new state, and a report that lists exactly the added, updated and removed names |
| ToolCatalog.Catalog.Watch | go/internal/mcp/catalog.go:202-224 | a run of polls: each read applied, each failed read changing nothing |
| ToolCatalog.RefreshIsColdStartIff | go/internal/mcp/catalog.go:46-49 | a refresh shows what a cold start would iff no current tool is unmarshallable, already known under its version and update time, and shown differently |
| ToolCatalog.HistoryDoesNotMatter | go/internal/mcp/catalog.go:109-156 | after any history the table is a cold start from the last list read, when its descriptors marshal |
| ToolCatalog.ServerShowsNewestRows | go/internal/mcp/catalog.go:111-143 | after any history the server has a tool for each listed name, with the description and input schema of its newest row, or the schema of any object |
| ToolCatalog.UpdatedIffTheRowChanged | go/internal/mcp/catalog.go:226-240 | a tool is reported updated iff its newest row changed in version or descriptor, or, where that cannot be encoded, in version or update time |
| ToolCatalog.UnmarshallableToolGoesStale | go/internal/mcp/catalog.go:231-237 | an unmarshallable descriptor can stay stale |
| ToolCatalog.ChangeIsTheDifference | go/internal/mcp/catalog.go:117-155 | added, updated and removed are disjoint and account for the whole difference |
| ToolCatalog.ReapplyIsSilent | go/internal/mcp/catalog.go:36-42 | applying the same rows again calls the server not once and changes nothing |
| ToolCatalog.ListMerged | go/internal/mcp/catalog.go:178-188 | all sources' rows in order, or the first failure, never a part |
| Chunker.CutsTile | go/internal/rag/rag.go:37-72 | paragraphs tile the text; separators end them and none is inside |
| Chunker.TrimCutsSpace | go/internal/rag/rag.go:37-72 | trimming cuts Unicode white space off both ends, none is left there, and nothing else is cut |
| Chunker.FlushKeepsGood | go/internal/rag/rag.go:37-72 | flushing a run of paragraphs keeps the chunk invariants |
| Chunker.ChunkDocument | go/internal/rag/rag.go:37-72 | chunks are in bounds, ordered, disjoint, hold the trimmed text of exactly their range, miss only white space, exceed the limit only as a single paragraph, and stop only when the next paragraph would not fit |
| Chunker.SpaceIsEncoded | go/internal/rag/rag.go:43-46 | white space is found exactly where the UTF-8 encoding of a white-space code point stands |
| Chunker.ChunksTell | go/internal/rag/rag.go:37-72 | every chunk starts at a paragraph, holds at most 1200 bytes unless it is one paragraph, and ends with the document or where one more paragraph would have passed 1200 |
| RunJournal.RunState.FromRecords | go/internal/checkpoint/checkpoint.go:168-185 | an ordered permutation of the records, its index and its next position |
| RunJournal.RunState.ForSubRun | go/internal/checkpoint/checkpoint.go:158-164 | the same for one sub-run, continued at the run-wide position |
| RunJournal.RunState.CompletedRecord | go/internal/checkpoint/checkpoint.go:191-201 | looks up the latest completion |
| RunJournal.RunState.WasAttempted | go/internal/checkpoint/checkpoint.go:204-212 | intent recorded and no completion |
| RunJournal.RunState.StepOutcome | go/internal/checkpoint/checkpoint.go:359-382 | how a completed step concluded, as a function of its completion (which says what RunJournal.AnswersTell states) |
| RunJournal.RunState.ComputeDurability | go/internal/checkpoint/checkpoint.go:258-285 | counts steps and steps with intent; the level says whether all, some or none recorded intent |
| RunJournal.LookupIsLatest | go/internal/checkpoint/checkpoint.go:168-201 | a lookup gives the latest record of the step and phase, none iff there is none |
| RunJournal.AnswersTell | go/internal/checkpoint/checkpoint.go:191-382 | read off the records: the completion found is the latest, a step was merely attempted iff intent and no completion is noted, and a completion says what its envelope says, "result" when it has none or names no outcome |
| RunJournal.NextSeqIsAbove | go/internal/checkpoint/checkpoint.go:168-185 | the journal continues above every sequence number, right after the greatest |
| RunJournal.StateIgnoresArrivalOrder | go/internal/checkpoint/checkpoint.go:168-185 | records with distinct numbers build one state in whatever order they arrive |
| RunJournal.ExactlyOneAnswer | go/internal/checkpoint/checkpoint.go:191-212 | a step with known phases is exactly one of completed, attempted, unseen |
| RunJournal.SubRunAnswersAgree | go/internal/checkpoint/checkpoint.go:145-164 | a sub-run's own records answer about its steps as the whole journal does |
| RunJournal.FilteredNextSeqCollides | go/internal/checkpoint/checkpoint.go:145-164 | deriving the position from a sub-run's records alone would reuse a number |
| CircuitBreaker.Breaker.RecordOutcome | go/internal/circuitbreaker/breaker.go:93-156 | the whole new state and the verdict, which is latched |
| CircuitBreaker.Breaker.Evaluate | go/internal/circuitbreaker/breaker.go:110-150 | the verdict on a window, as a function of it (exactly when it trips is CircuitBreaker.JudgeIff) |
| CircuitBreaker.Breaker.Reset | go/internal/circuitbreaker/breaker.go:166-172 | clears one version's window and latch |
| CircuitBreaker.WindowIsLastObservations | go/internal/circuitbreaker/breaker.go:93-172 | for any history a version's window is the last `WindowSize` observations taken in since its reset, it is quarantined iff some window on the way tripped, and other versions do not matter |
| CircuitBreaker.UnpricedRunsDoNotCount | go/internal/circuitbreaker/breaker.go:110-150 | deleting unpriced runs changes neither the sum nor the divisor of the average |
| CircuitBreaker.JudgeIff | go/internal/circuitbreaker/breaker.go:110-150 | with enough samples a window trips on failures iff more than the rate of its runs failed, else on cost iff its priced runs cost more in sum than the limit times their number |
| CircuitBreaker.QuarantinedIff | go/internal/circuitbreaker/breaker.go:93-172 | a version is quarantined iff at some moment since its reset its last `WindowSize` runs had enough samples and too many failures or too high a priced average |
| CircuitBreaker.DefaultsQuarantineIff | go/internal/circuitbreaker/breaker.go:36-79 | with the default thresholds a version is quarantined iff at some moment since its reset more than half of its last ten runs, of at least five, failed |
| CircuitBreaker.UnpricedRunsHideNothing | go/internal/circuitbreaker/breaker.go:41-50 | deleting the unpriced runs of a window keeps its cost verdict |
| ContextLanes.Render | python/aeon_context/lanes.py:104-141 | a lane's text, or its first entry that violates its fidelity |
| ContextLanes.Assemble | python/aeon_context/lanes.py:155-165 | the blocks of all present lanes in lane order, a violation iff some lane has one |
| ContextLanes.RenderTells | python/aeon_context/lanes.py:104-141 | a lane renders iff each entry has the line its lane asks for: a policy its text, a claim its id, wording, source and locator, an episode its recall pointer and summary or its text, others their text or printed form |
| ContextLanes.EveryEntryIsInThePrompt | python/aeon_context/lanes.py:155-165 | every entry of every lane given is in the assembled prompt as that line |
| ContextLanes.BlocksAreInLaneOrder | python/aeon_context/lanes.py:155-165 | the blocks stand in lane order, one per lane given |
| ContextLanes.EstimateTells | python/aeon_context/lanes.py:98-101 | the estimate is a quarter of the characters rounded down, at least one unless the text is empty |
| Compaction.CompactLane | python/aeon_context/compaction.py:73-78 | dispatch by the lane's fixed fidelity |
| Compaction.CompactEvidenceAtomic | python/aeon_context/compaction.py:30-38 | drops whole claims from the end |
| Compaction.CompactTexts | python/aeon_context/compaction.py:41-63 | truncates each text to its share, recall pointers left alone |
| Compaction.DropFromEnd | python/aeon_context/compaction.py:30-38 | a prefix that fits or is a single claim, with the next claim not fitting |
| Compaction.CompactLanes | python/aeon_context/compaction.py:81-83 | every lane of the mapping |
| Compaction.TruncateTells | python/aeon_context/compaction.py:48-52 | a cut text is its longest beginning within the budget that ends in no white space, and an ellipsis |
| Compaction.PerEntryTells | python/aeon_context/compaction.py:43-45 | each entry's budget is an equal share of the target rounded down, never less than fifty |
| Compaction.CompactedEntryTells | python/aeon_context/compaction.py:26-63 | pinned entries, recall pointers and entries without text stay as they are; any other loses only the end of its text |
| Compaction.CompactedClaimsTell | python/aeon_context/compaction.py:30-38 | of the claims the longest beginning that prints within the target is kept, or the first |
| Compaction.PrintedLengthIsSum | python/aeon_context/compaction.py:30-38 | what claims print to is the sum of what each prints to |
| Compaction.TruncateTwice | python/aeon_context/compaction.py:46-52 | truncating twice is truncating once to the smaller budget, although a cut text may exceed its budget by one |
| Compaction.CompactTwice | python/aeon_context/compaction.py:73-78 | compacting any lane twice is compacting it once to the smaller target |
| Compaction.HistoryIsLeastTarget | python/aeon_context/compaction.py:81-83 | any history of compactions equals one compaction to its least target |
| Compaction.CompactionIsFaithful | python/aeon_context/compaction.py:8-13 | a pinned lane is untouched, a surviving claim unedited, and some claim survives |
| Compaction.CompactionNeverGrows | python/aeon_context/compaction.py:73-83 | a lane that renders still renders after compaction, to no more text |
| ContextBudget.Budget | python/aeon_context/budgeter.py:56-91 | a violation iff some lane has one, a refusal iff the pinned lanes alone exceed the budget, else the greedy choice |
| ContextBudget.BudgetIsGreedy | python/aeon_context/budgeter.py:55-91 | tokens within the limit, pinned lanes kept, no dropped lane would have fitted, every lane kept or dropped |
| ContextBudget.PrefixIsStableIff | python/aeon_context/budgeter.py:5-10 | turns that agree on the first lanes keep the same ones among them, and begin with the same blocks, iff the room left decides each of these lanes alike; an unchanged pinned total is one way |
| ContextBudget.GrowingStateBreaksThePrefix | python/aeon_context/budgeter.py:67-73 | a growing task state evicts a lane before it |
| ContextBudget.MostVolatileFirstIff | python/aeon_context/budgeter.py:50-53 | after the first dropped lane everything more volatile is dropped iff none of it fits in the room left there |
| ContextBudget.LessVolatileLaneDropped | python/aeon_context/budgeter.py:78-88 | a large lane is dropped and a more volatile one kept |
| RecallPointers.FindIds | python/aeon_context/integrity.py:16-50 | the ids the recall pattern finds, leftmost first and without overlap |
| RecallPointers.OpensAtIff | python/aeon_context/integrity.py:16 | a pointer starts where the text reads `[recall:` |
| RecallPointers.FoundLeftmost | python/aeon_context/integrity.py:16-51 | the ids found stand in the text as pointers, nonempty and without a closing bracket, left to right and apart, and any other occurrence of the pattern begins inside one of them |
| RecallPointers.PrefixFindsAPrefix | python/aeon_context/integrity.py:46-51 | cutting a text loses its last pointers and finds no new ones |
| RecallPointers.LinesFindTheirOwnIff | python/aeon_context/integrity.py:46-51 | joined lines find exactly their own pointers iff the first leaves none open or the second closes nothing |
| ContextBudget.Check | python/aeon_context/integrity.py:35-62 | reports exactly the missing constraints, the dangling pointers found in the text and the overrun, and is ok iff there are none |
| ContextPointers.TruncateFindsAPrefix | python/aeon_context/compaction.py:48-52 | a truncated text finds the pointers that were not cut, in order, and no other |
| ContextPointers.HistoryMentionsNothingNew | python/aeon_context/compaction.py:73-83 | after any compactions the lines of the lanes mention no new pointer |
| ContextPointers.JoinFindsItsOwnIff | python/aeon_context/integrity.py:46-51 | joined lines find exactly their own pointers iff no pointer one leaves open is closed by a later one |
| ContextPointers.PromptFindsItsOwnIff | python/aeon_context/integrity.py:46-51 | the same of a whole prompt, whose lines are those of the kept lanes |
| ContextPointers.NothingDangles | python/aeon_context/integrity.py:46-51 | so if the pointers the lanes mentioned resolve, no pointer of the compacted prompt dangles |
| ContextPointers.CutPointerDangles | python/aeon_context/compaction.py:48-52 | a text cut inside a pointer makes the compacted lane hold an id no line mentioned |
| ContextBudget.CompactionNeverBreaksTheBudget | python/aeon_context/budgeter.py:57-65 | compaction never turns a prompt that fits into one that is refused |
| ContextBudget.PinnedContentSurvives | python/aeon_context/integrity.py:41-53 | after any compactions and a met budget every piece of every policy entry is in the prompt, within its tokens |
| ContextPointers.GatePasses | python/aeon_context/integrity.py:41-63 | lanes that met the budget meet it after any compactions, and the gate finds no policy constraint missing, no overrun, and no dangling pointer unless a line of the prompt closes one an earlier line left open |

## Left out

- Temporal, asyncio internals, tracing, HTTP and SSE framing, log lines, the database: only suspension points and data are
  modelled. The journal and the ledgers are sequences of records.
- The graph runtime is a state machine on values: its shared dictionaries are updated by steps, not in place, so aliasing
  between a stored result and the returned one is not captured. Its steps are at most as long as the program's atomic
  blocks, so the model has every interleaving of the program and possibly more.
- Which of several failures a `gather` reports: a failed coroutine stays failed and its siblings go on.
- GraphTheorems.ScheduleIndependence: `deduplicated` is taken as a function of the call, and conditions compare with
  literals free of the run's own idempotency keys; independence of siblings is stated on the ids they read and write,
  loop iterations `body[i]` included.
- Idempotency.EffectsLedger.RecordOnce: the file is replaced atomically.
- Idempotency.ExactlyOnce: the file stays readable between attempts; one that becomes undecodable forgets its writes.
- Tenants, retry policies, timeouts and heartbeats of scheduled activities; the approval record itself.
- ContradictionGroups.GroupsAreComponents: accepted packets arrive without a group of their own. Evidence packets' remaining
  fields, the readers and source quality are left out.
- GraphOverrun.LimitKeptIff: which branches a conditional takes and when a stop condition holds is not decided, so with them the
  two halves speak of collisions that may happen and of those that surely do: outside conditionals and, in loops with a
  stop condition, in the first iteration. Graphs with a
  node that completes without awaiting anything (an empty sequence or gather, a conditional without an else) are covered
  by GraphOverlap.SeparateLimitExact only.
- GraphSafety.GatedCallsOverrun: `await_approval` is a callback that grants each call it is asked about; the one the graph
  workflow passes keeps a single pending approval at a time.
- Retrieval scoring is an arbitrary function; `top_k` is nonnegative.
- ModelRouting.Gateway.Decide: dropping of unsendable assistant turns, spans and rate-limit classification are left out;
  a provider's answer is what it would give when asked, the request not being modelled.
- StreamRouting.DecideStream: usage and served-model telemetry of a stream.
- CostCeiling.CeilingOverEveryRun: the ledger is readable whenever a request is checked; when it is not, the program
  admits the request unchecked, and no bound holds.
- CostCeiling.ModelGatewayHandlers.RecordCost: response fields, cache and reasoning counters and manifest attribution.
- ToolCatalog.Catalog.Apply: the mutex, tool handlers and notifications; a server call is counted, not performed.
- CircuitBreaker: the mutex; averages are over reals.
- ContextBudget.PinnedContentSurvives: every lane state is filed under its own lane; a mapping that files one under
  another lane's key is excluded.
- ContextLanes.Render: entry fields are strings; how other values print is a parameter.
- Policy evaluation, sandboxing, SDK adapters, the CLI, release gates, secret resolution and the schema files.
