# Tokamak, modelled and verified

Tokamak is a deterministic continuous-batching inference runtime. This project models its core in Dafny and proves
what the parts promise together: the FIFO scheduler, the request lifecycle, the mock backend, the engine thread with
its token channels, the simulation driver and the post-hoc analysis.

`dafny verify dfyconfig.toml` checks everything.

## How the model is laid out

| file | what it holds |
|---|---|
| `Lifecycle.dfy` | the clock, the request state machine with its timestamps, the request object |
| `Scheduling.dfy` | the backend contract and the scheduler without queues: each operation acts on each request by itself; its invariant |
| `SchedulingTheorems.dfy` | what holds over every run of submits, cancels and ticks, for any backend that meets the contract |
| `Reporting.dfy` | tick reports and conservation |
| `MockBackend.dfy` | the mock backend as a class, with 32-bit token counters and a ledger of releases |
| `Queues.dfy`, `Layout.dfy`, `Phases.dfy` | how queues, handle map and backend table fit the requests, and how each loop step changes them |
| `FifoScheduler.dfy` | the scheduler as it runs, as a class; every public method refines its counterpart in `Scheduling.dfy` |
| `TokenChannel.dfy` | the bounded channel, as a value and as a class |
| `Engine.dfy`, `EngineProofs.dfy` | the engine, its clients and its consumers as one state machine, and its invariant |
| `EngineTraces.dfy` | putting traces together, and counting ticks and iterations in them |
| `EngineTheorems.dfy` | what clients and consumers can rely on over every interleaving |
| `EngineMarks.dfy` | what a Stop mark means, over every interleaving |
| `EngineProgress.dfy` | streams only grow, backpressure dates from the first refusal, stalled consumers are evicted, no entry leaks |
| `EngineClients.dfy` | submissions are admitted, cancels carried out, and consumers are handed the stream |
| `EngineWitness.dfy` | runs of the engine with one request, built step by step: exactly which settings allow a misleading Stop mark |
| `EngineThread.dfy` | the engine thread's passes as a class over the running scheduler, each shown to be a sequence of steps of that machine |
| `Analysis.dfy`, `Latency.dfy` | the checker and the latency statistics over real numbers |
| `Workloads.dfy` | arrivals, the two time conversions, the measure of the driver loop, costs and books, as values |
| `Simulation.dfy` | the discrete-event driver: termination and end-to-end results |

The main line of argument:

1. `Scheduling.Tick` says what a tick does to one request at a time, given the outcomes the backend dealt it. Runs of
   `Submit`, `Cancel` and `Tick` are studied on this form.
2. `Fifo.FifoScheduler` has the queues, snapshots and batch calls of the original. Its `Tick` is proved equal to the
   simple form, with an outcome assignment that meets the backend contract. Every process abort of the original is
   a precondition in the model (illegal transition, emitting over budget, decoding or releasing an unknown handle), so
   verification shows that no abort is reachable from these methods.
3. The engine state machine uses the simple form. `EngineThreads.EngineThread` runs the real scheduler and is shown to
   take only steps of that machine, so theorems about all traces apply to it with client and consumer steps between.

Assumptions the code makes silently are preconditions here: ids are distinct among live or still-tracked requests,
`max_tokens` is at least 1, submitted requests are fresh, each channel belongs to one request and only the engine
closes it, and the clock never goes back. `SchedulingTheorems.HandleIsKept` and
`SchedulingTheorems.FirstTokenNeedsBudget` say what the first two are needed for.

Two places where the code does not do what its words say:

- `kStop` is documented as the backend's end-of-sequence mark (`include/tokamak/http/token_channel.h:13`). The engine
  also puts it on the last token of a request that failed after its channel had refused that token. Whether this can
  happen depends on the channel's capacity, the budget and the backpressure timeout: `EngineWitness.StopMisleadsExactly`
  shows that it can, in some run from the start, if and only if the capacity is at least 1 and at most `max_tokens - 2`
  and the timeout is positive. For all other settings `EngineMarks.StopIsTruthful` shows over every interleaving that a
  Stop mark means completion.
- The simulation loop does not end on every workload. The idle jump casts the next arrival to whole clock ticks
  (`apps/tokamak/simulation.cpp:59-63`) while the arrival test compares it uncast (line 40). Both conversions are
  parameters of the model, so the results hold with their rounding; an arrival is reachable if it is due at the time it
  casts to. Without rounding these are the arrivals on a whole tick (`Workloads.ExactlyReachable`); in double precision
  they are others, since for instance 4.1 times one million is slightly less than 4100000 there.
  `Simulation.Iterate` shows that a turn makes progress if and only if the loop is not stuck, that is idle, at the time
  the next arrival casts to, with that arrival still ahead; and that an idle loop whose next arrival is ahead and
  unreachable stays so. `Simulation.RunSimulation` therefore either ends or reaches such a state, from which no number of
  turns ends it. It ends if every arrival is reachable or at most one decode behind its predecessor, and it does not if
  some unreachable arrival is later than all work before it can last. `Simulation.HalfTickNeverEnds` is an instance.

## Model

| member | source | states |
|---|---|---|
| `Lifecycle.EnterOk` | src/request/state.cpp:75-94 | a legal transition enters a state never entered before, overwrites no recorded time and keeps the timeline coherent: ordered entry times, milestones agreeing with the map |
| `Lifecycle.HistoryIsKept` | src/request/state.cpp:44-111 | over every legal run with a monotone clock the timeline stays coherent and nothing recorded earlier, first token included, changes |
| `Lifecycle.TransitionIsRecorded` | src/request/state.cpp:80-82 | each transition of any run is the first entry into its state and ends up recorded under its own time |
| `Lifecycle.NoStateTwice` | src/request/state.cpp:44-70 | no legal run enters a state twice |
| `Lifecycle.TransitionsAreExactly` | src/request/state.cpp:32-70 | the legal transitions, told by depth: cancel from any non-terminal state, one step at a time down the main line, completion from its end, failure while being worked on, rejection at the door; terminal states are those with no way out |
| `Lifecycle.PathIsComplete` | src/request/state.cpp:44-94 | over every legal run, the states entered are exactly those on the way to the present one |
| `Lifecycle.EntriesComeFromTransitions` | src/request/state.cpp:82-118 | every recorded entry was there before the run or is one of its transitions, with its time |
| `Lifecycle.TerminalIsFrozen` | src/request/state.cpp:62-67 | only the empty run is legal from a terminal state, and cancelling there changes nothing |
| `Lifecycle.RequestLifecycle.TransitionTo` | src/request/state.cpp:75-94 | the new state, entry time, map and milestones; coherence is kept |
| `Lifecycle.RequestLifecycle.Cancel` | src/request/state.cpp:96-101 | terminal afterwards, and unchanged if it already was |
| `Lifecycle.RequestLifecycle.RecordFirstToken` | src/request/state.cpp:103-111 | the first token time is set once |
| `Lifecycle.RequestLifecycle.EnteredAt` | src/request/state.cpp:113-118 | the recorded time, or nothing if the state was never entered |
| `Requests.Request.constructor` | src/request/request.cpp:14-20 | a fresh received request whose deadline is fixed from the clock |
| `Requests.Request.EmitToken` | src/request/request.cpp:22-30 | appends exactly the token, counts it, stamps the first one only, and stays within budget |
| `Scheduling.ServeOk` | src/scheduler/fifo_scheduler.cpp:39-144 | expiry, prefill and decode take a well-formed request to a well-formed one, keep its identity and only extend its output |
| `Scheduling.TickKeepsInv` | src/scheduler/fifo_scheduler.cpp:146-163 | a tick against any backend meeting the contract keeps the invariant (placement, order, distinct ids, injective handle map with exactly the decoding ids) and leaves nothing waiting |
| `Scheduling.CancelKeepsInv` | src/scheduler/fifo_scheduler.cpp:165-178 | a cancel keeps the invariant and leaves no live request of that id |
| `Scheduling.SubmitKeepsInv` | src/scheduler/fifo_scheduler.cpp:10-17 | a submission of a fresh request with an unused id keeps the invariant |
| `Scheduling.HandleOrigin` | src/scheduler/fifo_scheduler.cpp:91-92 | a handle held after a tick was held before it by the same request or was minted for it in that tick |
| `SchedulingTheorems.RunKeepsInv` | src/scheduler/fifo_scheduler.cpp:10-178 | the scheduler invariant holds after every run of submits, cancels and ticks |
| `SchedulingTheorems.RunQueuesAreLiveInOrder` | src/scheduler/fifo_scheduler.cpp:10-178 | after every run, decoding requests followed by waiting ones are exactly the live requests in submission order |
| `SchedulingTheorems.TickTable` | src/scheduler/fifo_scheduler.cpp:39-144 | a tick by deadline and outcomes alone: overdue requests fail at its start, failed prefills and decodes fail at their time, a decoded request gets exactly its token, and completes if and only if the backend says finished or the budget is used up |
| `SchedulingTheorems.DecodedAre` | src/scheduler/fifo_scheduler.cpp:46-121 | a live request is decoded if and only if it is not overdue and, if waiting, its prefill succeeded |
| `SchedulingTheorems.CancelTable` | src/scheduler/fifo_scheduler.cpp:165-178 | a cancel ends exactly the live requests of its id, with the output they have, and changes no other |
| `SchedulingTheorems.HandleIsKept` | src/scheduler/fifo_scheduler.cpp:87-92 | after storing a batch of minted handles by insert-if-absent, a handle is in the map if and only if its id was not held and not earlier in the batch; any other is lost |
| `SchedulingTheorems.FirstTokenNeedsBudget` | src/request/request.cpp:25-27 | a note on the abort's guard: the first token of a promoted request is emitted if and only if its budget is positive |
| `SchedulingTheorems.BoundedService` | src/scheduler/fifo_scheduler.cpp:74-142 | a live request has one token per tick run since, so after as many ticks as its budget it is terminal under any arrivals and outcomes; terminal requests never change |
| `SchedulingTheorems.FailuresAreIsolated` | include/tokamak/backend/backend.h:58-63 | two ticks that differ only in one request's outcomes leave all others identical, tokens and timestamps included, and in the same queue order |
| `SchedulingTheorems.DeadlineBound` | src/scheduler/fifo_scheduler.cpp:39-68 | per request and for any prefill and decode cost: a tick's token or completion comes at most that cost after the deadline; an expired request fails strictly after its deadline without a token. `Fifo.FifoScheduler.Tick` and `Simulation.RunSimulation` state it with the mock's costs |
| `SchedulingTheorems.TickOnTime` | src/scheduler/fifo_scheduler.cpp:39-163 | over all requests of a tick, first tokens and completions recorded in it are at most the duration of the tick after the deadline |
| `SchedulingTheorems.RunIsTimely` | src/scheduler/fifo_scheduler.cpp:39-144 | if no tick of a run takes longer than some slack, no first token and no completion is later than deadline plus slack |
| `Reporting.TickConserves` | src/scheduler/fifo_scheduler.cpp:146-163 | a tick's report accounts for every new failure, completion and token; attempted prefills are successes plus failures |
| `Reporting.RunConserves` | src/scheduler/fifo_scheduler.cpp:146-163 | the same summed over all ticks of any run with submits and cancels in between |
| `Reporting.TickSpendsBudget` | src/scheduler/fifo_scheduler.cpp:123-142 | the remaining budget of live requests never grows in a tick and shrinks if anything is live |
| `Queues.QueueIsPositions` | src/scheduler/fifo_scheduler.cpp:74 | a queue holding exactly the requests of a state in increasing order is the filtered ownership list |
| `Queues.EraseFirst` | src/scheduler/fifo_scheduler.cpp:25-36 | the erase loop removes the first occurrence only |
| `Mock.DecodeAll` | src/backend/mock_backend.cpp:48-80 | one outcome per sequence, the same live sequences, and the injected errors left over |
| `Mock.DecodeAllAt` | src/backend/mock_backend.cpp:54-78 | in a batch without repeats the first sequences meet the injected errors and do not advance; every other counter goes up by one and is the token, finished if and only if an end mark is set and reached |
| `Mock.MockBackend.Prefill` | src/backend/mock_backend.cpp:26-46 | errors hit the first prompts, the rest get consecutive fresh handles and blank sequences, and the clock pays for every prompt token |
| `Mock.MockBackend.Decode` | src/backend/mock_backend.cpp:48-80 | refines `DecodeAll` and advances the clock once, also for an empty batch |
| `Mock.MockBackend.Release` | src/backend/mock_backend.cpp:82-88 | the sequence is gone and its release is entered in the ledger |
| `Mock.MockBackend.ReleasedExactlyOnce` | src/backend/mock_backend.cpp:82-88 | with no live sequence, every handle ever minted has been released exactly once |
| `Mock.MockBackend.ConfigureEos` | src/backend/mock_backend.cpp:90-98 | only the sequence's end mark changes |
| `Layout.RetiringKeepsAgree` | src/scheduler/fifo_scheduler.cpp:19-37 | retiring requests and releasing their sequences leaves every other decoding request in agreement with its backend counter |
| `Layout.EosKeepsLayout` | src/backend/mock_backend.cpp:90-98 | setting an end mark disturbs neither the layout nor the agreement of token counts |
| `Layout.CountingIsExact` | include/tokamak/backend/mock_backend.h:38-42 | outputs are literally 1, 2, ..., n if and only if the 32-bit counter has not wrapped |
| `Phases.TickRefines` | src/scheduler/fifo_scheduler.cpp:146-163 | the three phases composed are one tick of the simple scheduler, under outcomes that meet the backend contract |
| `Phases.ReportMatches` | src/scheduler/fifo_scheduler.cpp:39-163 | what the loops count is what the outcomes dealt |
| `Phases.DecodeKeepsAgree` | src/scheduler/fifo_scheduler.cpp:123-142 | after a decode phase each request still decoding has as many tokens as its backend counter |
| `Phases.PrefillFacts` | src/scheduler/fifo_scheduler.cpp:74-104 | in queue order, the i-th waiting request meets the i-th injected error or else gets the next handle, and is promoted or failed accordingly |
| `Phases.DecodeFacts` | src/scheduler/fifo_scheduler.cpp:111-142 | in queue order, the i-th decoding request meets the i-th injected error or else the next token of its own sequence, finished if and only if its end mark is reached |
| `Phases.DecodeLeavesNoneOverrun` | src/scheduler/fifo_scheduler.cpp:130-136 | after a decode phase no request still decoding has reached the end mark of its sequence |
| `Fifo.FifoScheduler.QueuesRefineRequests` | src/scheduler/fifo_scheduler.cpp:70-106 | at any point, also inside a phase, the queues are the filtered lists and together the live requests in submission order |
| `Fifo.FifoScheduler.NothingLive` | src/scheduler/fifo_scheduler.cpp:19-37 | with every request terminal both queues and the backend table are empty |
| `Fifo.FifoScheduler.Submit` | src/scheduler/fifo_scheduler.cpp:10-17 | refines the simple submit and returns the request's place |
| `Fifo.FifoScheduler.Retire` | src/scheduler/fifo_scheduler.cpp:19-37 | the request is terminal, gone from both queues and from the handle map, and its sequence is released |
| `Fifo.FifoScheduler.ExpireDeadlines` | src/scheduler/fifo_scheduler.cpp:39-68 | exactly the overdue requests of both queues fail, and are counted |
| `Fifo.FifoScheduler.PrefillPhase` | src/scheduler/fifo_scheduler.cpp:70-106 | every waiting request is promoted or failed by its own outcome, errors hitting the oldest first, with consistent queues and handles, and the counts agree |
| `Fifo.FifoScheduler.DecodePhase` | src/scheduler/fifo_scheduler.cpp:108-144 | every decoding request gets its own outcome, errors hitting the oldest first; none is left decoding past its end mark; tokens and backend counters keep agreeing |
| `Fifo.FifoScheduler.Tick` | src/scheduler/fifo_scheduler.cpp:146-163 | equals the simple tick under an outcome assignment meeting the contract, with the clock cost and the report spelled out; no request is left decoding past its end mark; first tokens and completions at most per-token cost times its prefill tokens plus one decode cost after the deadline |
| `Fifo.FifoScheduler.Cancel` | src/scheduler/fifo_scheduler.cpp:165-178 | equals the simple cancel, whether the id is waiting, decoding or unknown |
| `TokenChannels.TokenChannel.TryPush` | src/http/token_channel.cpp:7-15 | accepted iff open and below capacity; the event goes to the end of the buffer, which otherwise stays as it was |
| `TokenChannels.TokenChannel.Pop` | src/http/token_channel.cpp:17-26 | hands out the oldest buffered event, or nothing once closed and empty; takes that event and no other off the buffer and records it as popped |
| `TokenChannels.TokenChannel.Close` | src/http/token_channel.cpp:28-32 | closed, nothing lost |
| `TokenChannels.PopKeepsStream` | src/http/token_channel.cpp:17-26 | popped followed by buffered is the same before and after a pop |
| `TokenChannels.PopTakesOldest` | src/http/token_channel.cpp:23-25 | the buffer before a pop is the event handed out followed by the buffer after it, and that event is what is recorded |
| `EngineProofs.StepKeepsInv` | src/http/engine.cpp:35-171 | every lock region and loop turn of engine, client or consumer keeps the engine invariant |
| `EngineProofs.StartIsOk` | src/http/engine.cpp:8-11 | the engine starts in a state that satisfies the invariant |
| `EngineProofs.TraceKeepsInv` | src/http/engine.cpp:35-171 | so does every interleaving |
| `EngineProofs.RoomyNeverRefuses` | src/http/token_channel.cpp:7-15 | a channel with capacity for the whole output has room for every undelivered token |
| `EngineTheorems.StreamCorrectness` | src/http/engine.cpp:113-171 | over every interleaving, popped plus buffered is a prefix of the output, its first `last_seen_tokens` while open, and all of it if closed by reaping |
| `EngineTheorems.FinishReasons` | src/http/engine.cpp:118-126 | at most the last output token of a finished request is marked, Length iff the budget was used up; a completed request delivered in full is marked |
| `EngineTheorems.StopMark` | src/http/engine.cpp:121-125 | an uncompleted request gets a Stop mark exactly on the last token of a failed one |
| `EngineMarks.StopIsTruthful` | src/http/engine.cpp:113-156 | over every interleaving from the start, on a channel of capacity 0 or at least `max_tokens - 1`, and on any channel if the timeout is 0, a Stop mark implies the request completed with budget left |
| `EngineMarks.StepKeepsPrompt` | src/http/engine.cpp:113-156 | with timeout 0 no backpressure outlives the check of the iteration that noted it |
| `EngineWitness.FailureGetsStopMark` | src/http/engine.cpp:57-138 | for every capacity from 1 to `max_tokens - 2` and every positive timeout there is a run from the start that puts a Stop mark in the stream of a failed request |
| `EngineWitness.StopMisleadsExactly` | src/http/engine.cpp:113-156 | for each capacity, budget and timeout: some run marks a failed request Stop if and only if the capacity is from 1 to `max_tokens - 2` and the timeout is positive |
| `EngineTheorems.EngineTracksScheduler` | src/http/engine.cpp:83-171 | each live request has exactly one entry, pointing to it; with no entries nothing is live and no handle is held |
| `EngineTheorems.EngineNeverStuck` | src/http/engine.cpp:113-171 | every lookup the passes rely on succeeds |
| `EngineTheorems.PushPassIsComplete` | src/http/engine.cpp:113-138 | after a push pass an entry is under backpressure iff it has undelivered tokens |
| `EngineTheorems.EvictionIsJustified` | src/http/engine.cpp:140-156 | an evicted entry has undelivered tokens, backpressure that has lasted at least the timeout, and no successful push for at least that long |
| `EngineTheorems.CancelIsEffective` | src/http/engine.cpp:98-111 | the turn of a drained cancel leaves the request terminal, its handle gone, its channel closed with the stream as it was, its entry forgotten |
| `EngineTheorems.CancelTakesEffect` | src/http/engine.cpp:48-111 | over every interleaving an accepted cancel of an admitted request stays pending, and once in the drained batch the channel is closed and the request terminal when the drain is over |
| `EngineTheorems.EarlyCancelHasNoEffect` | src/http/engine.cpp:71-72 | a cancel drained before its submission changes nothing |
| `EngineTheorems.TracePersists` | src/http/engine.cpp:57-171 | over every interleaving a channel keeps its request and capacity; while open its entry ages by exactly the ticks run |
| `EngineTheorems.ClosedIsFrozen` | src/http/engine.cpp:98-171 | once closed, stream and request are frozen forever |
| `EngineTheorems.BoundedDelivery` | src/http/engine.cpp:57-138 | a channel with capacity for the whole output is never evicted, and within as many ticks as the budget it is closed with the full output delivered or buffered, unless cancelled, however slow the consumer |
| `EngineTheorems.DeliveryWithinIterations` | src/http/engine.cpp:57-81 | the same in iterations: no iteration skips its tick while the channel is open, so after as many returns to the top of the loop as the budget, counted from the admission, it is closed |
| `EngineProgress.StreamsOnlyGrow` | src/http/engine.cpp:57-171 | over every interleaving a stream is only extended and a terminal request never changes |
| `EngineProgress.TraceKeepsCondemned` | src/http/engine.cpp:140-156 | over every interleaving an entry found overdue stays among those being evicted until its channel is closed |
| `EngineProgress.NoEntryLeaks` | src/http/engine.cpp:140-171 | for any capacity: once the budget's ticks have run since the admission, a channel still open at the next top of the loop has undelivered tokens of a terminal request, under backpressure for less than the timeout when last checked |
| `EngineProgress.RefusalIsNoted` | src/http/engine.cpp:130-135 | a refusal is noted with the time of the first one and delivers nothing |
| `EngineProgress.PressureKeepsItsDate` | src/http/engine.cpp:127-135 | over every interleaving, as long as nothing more is delivered, backpressure keeps the date of the first refusal |
| `EngineProgress.StalledIsEvicted` | src/http/engine.cpp:127-156 | if nothing is taken from a full channel first refused at t, and a check reads t plus the timeout or later, the channel is closed and its request terminal at the next top of the loop |
| `EngineClients.TraceTakes` | src/http/token_channel.cpp:17-26 | over every interleaving, what counts as popped is exactly what the consumer was handed, in order |
| `EngineClients.ConsumersSeeTheOutput` | src/http/engine.cpp:113-138 | from the start, what the consumer was handed and then what is buffered is the beginning of the request's output |
| `EngineClients.BuffersAreBounded` | src/http/token_channel.cpp:7-15 | no buffer ever exceeds its capacity |
| `EngineClients.SubmissionsAreKept` | src/http/engine.cpp:83-96 | over every interleaving an accepted submission is still waiting, or its channel belongs to a request with its id, prompt and budget and its deadline counted from the admission |
| `EngineClients.SubmissionIsAdmitted` | src/http/engine.cpp:57-96 | an accepted submission is admitted by the time the loop has been back at its top twice |
| `EngineClients.ClientIsServed` | src/http/engine.cpp:35-96 | the same from the client's submit |
| `EngineClients.ClientGetsItsAnswer` | src/http/engine.cpp:35-171 | from submit to answer on a channel with capacity for the whole output: within a number of iterations bounded by the budget it is closed, not evicted, and unless cancelled has every token of the output |
| `EngineClients.CancelIsCarriedOut` | src/http/engine.cpp:57-111 | a pending cancel of an admitted request has ended it by the time the loop has been back at its top twice |
| `EngineClients.ClientCancelTakesEffect` | src/http/engine.cpp:48-111 | the same from the client's cancel |
| `EngineClients.DrainOneMore` | src/http/engine.cpp:89-95 | each turn of the admission loop admits the next submission of the batch at the next position |
| `EngineThreads.EngineThread.Submit` | src/http/engine.cpp:37-46 | the client step of the state machine |
| `EngineThreads.EngineThread.Cancel` | src/http/engine.cpp:48-55 | the client step of the state machine |
| `EngineThreads.EngineThread.DrainSubmissions` | src/http/engine.cpp:83-96 | a sequence of steps after which every pending submission has been admitted as submitted, in order |
| `EngineThreads.EngineThread.DrainCancels` | src/http/engine.cpp:98-111 | a sequence of steps that leaves no cancel pending |
| `EngineThreads.EngineThread.PushTokens` | src/http/engine.cpp:113-138 | terminates, as a sequence of steps covering every entry, with refusals stamped by the clock as read during the pass |
| `EngineThreads.EngineThread.CheckBackpressures` | src/http/engine.cpp:140-156 | a sequence of steps that removes exactly the entries whose backpressure has lasted the timeout at the time read |
| `EngineThreads.EngineThread.ReapTerminal` | src/http/engine.cpp:158-171 | a sequence of steps that removes exactly the entries whose request is terminal and fully delivered |
| `EngineThreads.EngineThread.Iterate` | src/http/engine.cpp:57-81 | one turn of the loop over the running scheduler is a trace of the state machine with one tick, or none if nothing is tracked |
| `EngineThreads.EngineThread.IdleHoldsNothing` | src/http/engine.cpp:57-81 | with no active entry the queues and the backend table are empty |
| `Analysis.RulesAre` | apps/tokamak/analysis.cpp:38-68 | the five rules, each as a condition on the summary's fields |
| `Analysis.CheckOne` | apps/tokamak/analysis.cpp:37-69 | one violation for each of the five rules broken, and no other |
| `Analysis.CheckInvariants` | apps/tokamak/analysis.cpp:33-72 | reports exactly the broken rules, so nothing iff the results are clean |
| `Latency.SortSorts` | apps/tokamak/analysis.cpp:92-93 | sorted, with the same contents |
| `Latency.PercentileMonotone` | apps/tokamak/analysis.cpp:15-25 | indices stay in range, percentiles grow with p and stay within the data |
| `Latency.PercentileIs` | apps/tokamak/analysis.cpp:19-24 | at an exact rank the percentile is that value; between two ranks it divides the step between the neighbours in proportion |
| `Latency.PercentilesOrdered` | apps/tokamak/analysis.cpp:97-115 | min <= p50 <= p90 <= p99 <= max |
| `Latency.MeanBetween` | apps/tokamak/analysis.cpp:101-104 | min <= mean <= max |
| `Latency.PercentilesOf101` | apps/tokamak/analysis.cpp:98-100 | among 101 values p50, p90 and p99 are the values at ranks 50, 90 and 99 |
| `Latency.MedianOfTwo` | apps/tokamak/analysis.cpp:98 | the p50 of two values is their midpoint |
| `Latency.MeanIgnoresOrder` | apps/tokamak/analysis.cpp:103-104 | the reported mean is that of the values as they came |
| `Latency.MeanTimesCount` | apps/tokamak/analysis.cpp:103-104 | the mean times the number of values is their sum |
| `Latency.SampleIs` | apps/tokamak/analysis.cpp:84-89 | a request contributes the milliseconds from admission to milestone if it reached it, and nothing otherwise |
| `Latency.ExtremesAreData` | apps/tokamak/analysis.cpp:101-102 | min and max are data points and bound all others |
| `Latency.ComputeLatencyStats` | apps/tokamak/analysis.cpp:74-118 | the statistics of exactly the requests that reached each milestone |
| `Latency.StatisticsIgnoreRequestOrder` | apps/tokamak/analysis.cpp:74-118 | no statistic depends on the order of the requests |
| `Workloads.ExactIsSound` | apps/tokamak/simulation.cpp:36-38 | the conversions without rounding are monotone and cast nothing that is ahead into the past |
| `Workloads.ExactlyReachable` | apps/tokamak/simulation.cpp:59-63 | without rounding, an arrival is reachable if and only if it is on a whole tick or before the epoch |
| `Workloads.JumpGoesForward` | apps/tokamak/simulation.cpp:59-63 | the idle jump never goes back, and is by nothing only if the arrival is out of reach |
| `Simulation.HalfTickNeverEnds` | apps/tokamak/simulation.cpp:33-65 | with one request due half a tick after the start, the loop is still running after any number of turns |
| `Simulation.SubmitArrivals` | apps/tokamak/simulation.cpp:35-47 | submits in order, each record when due and with its own deadline, until the next arrival is ahead of the clock |
| `Workloads.JumpLowers` | apps/tokamak/simulation.cpp:57-64 | an idle jump lowers the measure if and only if the loop is not stuck, and neither blocks nor unblocks it |
| `Workloads.TurnKeepsSchedule` | apps/tokamak/simulation.cpp:33-65 | a turn never gets the clock, plus all work left before a stranded request, beyond the latest earlier arrival plus all earlier work |
| `Workloads.UnhinderedIsNotBlocked` | apps/tokamak/simulation.cpp:39-64 | if every arrival is reachable or trails its predecessor by at most a decode, the loop is never blocked |
| `Simulation.Iterate` | apps/tokamak/simulation.cpp:33-65 | for any arrivals and conversions: one turn lowers the measure (unsubmitted, remaining budget, length of the idle jump) if and only if the loop is not stuck; a blocked turn changes no request, queue or handle and the arrival stays ahead; the turn accounts for its report and pays the clock |
| `Simulation.RunTurns` | apps/tokamak/simulation.cpp:33-65 | a blocked loop is still running, and blocked with the same requests, after any number of turns |
| `Simulation.Drive` | apps/tokamak/simulation.cpp:33-65 | from the start, the loop either ends with everything submitted and both queues empty or reaches a blocked state |
| `Workloads.MaxCost` | apps/tokamak/simulation.cpp:22 | the cost of the costliest tick: bounds every tick of the run and is one of them |
| `Simulation.QuietMeansDone` | apps/tokamak/simulation.cpp:33-34 | both queues are empty if and only if every request is terminal, and then no sequence is left |
| `Simulation.Snapshot` | apps/tokamak/simulation.cpp:67-79 | one summary per request, in order |
| `Workloads.SummaryShows` | apps/tokamak/simulation.cpp:70-78 | a summary has the token count of the output, the deadline, and the entry times of the main line in order as far as the request got; a completed one has all its milestones in order |
| `Simulation.RunSimulation` | apps/tokamak/simulation.cpp:18-81 | on any arrivals it ends, or is blocked and still running after any number of further turns; it ends if every arrival is reachable or trails its predecessor by at most a decode, and does not if some unreachable arrival is later than all earlier arrivals and work. When it ends: every summary is terminal, admitted once due and with its record's deadline counted from the admission; outputs are 1, 2, ...; reports account for everything; every handle released exactly once; the clock is idle time plus 1 ms per prefilled token and 5 ms per tick; no first token or completion later than deadline plus the costliest tick |
| `Simulation.SimulateAndCheck` | apps/tokamak/main.cpp:85-150 | any simulation that ends reports each record with its own id, budget and deadline, and checking it finds no violation |

## Left out

- `src/http/server.cpp`: networking and fixed routes.
- `apps/tokamak/workload.cpp`: parsing and sorting; the workload is an input. Sortedness turned out not to be needed for the results above.
- `src/telemetry/`, and `apps/tokamak/main.cpp` beyond simulating and checking: field copying, JSON output and printing.
- Threads, condition variables and `start`/`stop`: lock regions are atomic steps. `stop()` leaves entries and channels open, so delivery guarantees are for runs without it.
- `EngineThread` passes run without client steps in between; interleaving is covered on the state machine, whose push steps may even alternate between entries, which allows more behaviours than the code.
- In the engine, channels are values in a map keyed by channel; the mutable channel is the class `TokenChannel`. `Entry.ticks` and `Entry.lastPushAt` are history the engine does not store.
- Request pointers are positions in the ownership list, and the scheduler stores request values rather than `Request` objects; requests are never removed, so positions stay valid.
- The clock is read once per operation where the original may read it several times with nothing happening in between.
- `std::sort` is the insertion sort `Latency.Sort`; by `Latency.SortedIsUnique` any sorting gives the same sequence.
- Floating-point rounding: statistics are over real numbers and times are whole clock ticks. The two conversions of the simulation may round; they are only required to be monotone and not to cast an arrival that is ahead into the past, which the clock asserts (`src/common/clock.cpp:11-15`).
- The 64-bit sequence counter is unbounded; the 32-bit token counter wraps.
- `compute_throughput_stats`, request priority, `to_string`, `tokenize`, `capabilities` and error message texts.
- Fifo.FifoScheduler.Submit: requires an id unlike every live one and a positive budget. The source accepts others, and then loses a handle (the map of line 92 ignores the second) or aborts on the first token; these runs are not modelled further.
- EngineThreads.EngineThread.Submit: requires the same, and a channel not given to any other request, because a shared channel mixes two streams; the source accepts such submissions.
- Simulation.SubmitArrivals: requires distinct ids and positive budgets in the workload, as above.
- Simulation.Iterate: requires the same, and sound conversions.
- Simulation.RunTurns: requires the same.
- Simulation.Drive: requires the same.
- Simulation.RunSimulation: requires the same. Between the two conditions it decides, whether a workload with unreachable arrivals gets blocked is settled by the run.
- Simulation.SimulateAndCheck: requires the same.
- `Request`, `RequestLifecycle` and `TokenChannel` objects are proved against the values `RequestData`, `Timeline` and `Channel`; the scheduler and the engine use the values.
