/** The scheduler as it runs: queues, a handle map and batch calls (src/scheduler/fifo_scheduler.cpp). */
module Fifo {
  import opened Clocks
  import opened Lifecycle
  import opened Requests
  import opened Backend
  import opened Scheduling
  import opened SchedulingTheorems
  import opened Reporting
  import opened Queues
  import opened Mock
  import opened Layout
  import opened Phases

  class FifoScheduler {
    const backend: MockBackend
    const clock: FakeClock
    // Ownership list: requests are never removed, so a request pointer is a position in it.
    var requests: seq<RequestData>
    var waiting: seq<nat>
    var decoding: seq<nat>
    var handles: map<RequestId, Handle>

    constructor (backend: MockBackend, clock: FakeClock)
      requires backend.clock == clock && backend.Valid() && backend.sequences == map[]
      ensures this.backend == backend && this.clock == clock
      ensures Valid() && View() == Core([], map[], clock.now)
    {
      this.backend, this.clock := backend, clock;
      requests, waiting, decoding, handles := [], [], [], map[];
    }

    ghost function View(): Core
      reads this, clock
    {
      Core(requests, handles, clock.now)
    }

    /** Holds between any two steps, also in the middle of a phase. */
    ghost predicate Structured(extra: set<Handle>)
      reads this, backend, clock
    {
      backend.clock == clock && backend.Valid() && Laid(View(), waiting, decoding, backend.sequences, extra)
    }

    /** Holds between any two calls. */
    ghost predicate Valid()
      reads this, backend, clock
    {
      && Structured({})
      && TokensAgree(requests, handles, backend.sequences)
      && AllCounting(requests)
    }

    /** The queues are exactly the filtered lists, and together they are the live requests in submission order. */
    lemma QueuesRefineRequests()
      requires exists extra :: Structured(extra)
      ensures waiting == Positions(requests, WaitingPrefill) && decoding == Positions(requests, Decoding)
      ensures decoding + waiting == LivePositions(requests)
    {
      QueueIsPositions(waiting, requests, WaitingPrefill);
      QueueIsPositions(decoding, requests, Decoding);
      QueuesAreLiveInOrder(requests);
    }

    /** With every request terminal the queues are empty and the backend holds no sequence. */
    lemma NothingLive()
      requires Valid() && forall i | 0 <= i < |requests| :: requests[i].Terminal()
      ensures waiting == [] && decoding == [] && backend.sequences == map[]
    {
      NoneQueued(waiting, requests, WaitingPrefill);
      NoneQueued(decoding, requests, Decoding);
      assert DecodingIds(requests) == {};
      assert backend.sequences.Keys == {};
    }

    method Submit(r: RequestData) returns (k: nat)
      requires Valid() && Submittable(View(), r, clock.now)
      modifies this`requests, this`waiting
      ensures Valid() && View() == Scheduling.Submit(old(View()), r, clock.now)
      ensures k == |old(requests)|
    {
      SubmitKeepsLaid(View(), waiting, decoding, backend.sequences, r);
      k := |requests|;
      requests := requests + [r.Go(Admitted, clock.now).Go(WaitingPrefill, clock.now)];
      waiting := waiting + [k];
    }

    method Retire(k: nat, terminal: State)
      requires k < |requests| && IsValidTransition(requests[k].life.state, terminal)
      requires backend.Valid() && (requests[k].id in handles ==> handles[requests[k].id] in backend.sequences)
      modifies this`requests, this`waiting, this`decoding, this`handles, backend`sequences, backend`releases
      ensures backend.Valid()
      ensures requests == old(requests)[k := old(requests)[k].Go(terminal, clock.now)]
      ensures waiting == RemoveFirst(old(waiting), k) && decoding == RemoveFirst(old(decoding), k)
      ensures handles == old(handles) - {old(requests)[k].id}
      ensures backend.sequences == Released(old(handles), old(requests)[k].id, old(backend.sequences))
    {
      var id := requests[k].id;
      requests := requests[k := requests[k].Go(terminal, clock.now)];
      if id in handles {
        backend.Release(handles[id]);
        handles := handles - {id};
      }
      assert old(handles) - {id} == handles;
      waiting := EraseFirst(waiting, k);
      decoding := EraseFirst(decoding, k);
    }

    /** A waiting request has no direct way to kFailed: it passes through kPrefilling. */
    method FailWaiting(k: nat, ghost extra: set<Handle>)
      requires Structured(extra) && k < |requests| && requests[k].Is(WaitingPrefill)
      modifies this`requests, this`waiting, this`decoding, this`handles, backend`sequences, backend`releases
      ensures Structured(extra)
      ensures requests == old(requests)[k := old(requests)[k].Go(Prefilling, clock.now).Go(Failed, clock.now)]
      ensures handles == old(handles) && backend.sequences == old(backend.sequences)
    {
      ghost var before, started := View(), requests[k].Go(Prefilling, clock.now);
      FailWaitingKeepsLaid(before, waiting, decoding, backend.sequences, extra, k);
      requests := requests[k := requests[k].Go(Prefilling, clock.now)];
      Retire(k, Failed);
      UpdateTwice(before.requests, k, started, started.Go(Failed, clock.now));
      assert old(handles) - {started.id} == old(handles);
    }

    /** Failing or cancelling a request straight from the queue it is in. */
    method RetireLive(k: nat, terminal: State, ghost extra: set<Handle>)
      requires Structured(extra) && k < |requests| && requests[k].Live()
      requires (terminal.Failed? && requests[k].Is(Decoding)) || terminal.Cancelled?
      modifies this`requests, this`waiting, this`decoding, this`handles, backend`sequences, backend`releases
      ensures Structured(extra)
      ensures requests == old(requests)[k := old(requests)[k].Go(terminal, clock.now)]
      ensures handles == old(handles) - {old(requests)[k].id}
      ensures backend.sequences == Released(old(handles), old(requests)[k].id, old(backend.sequences))
    {
      RetireLiveKeepsLaid(View(), waiting, decoding, backend.sequences, extra, k, terminal);
      Retire(k, terminal);
    }

    method Promote(k: nat, h: Handle, ghost extra: set<Handle>)
      requires Structured(extra) && k < |requests| && requests[k].Is(WaitingPrefill) && FirstWaiting(requests, k)
               && h in extra
      modifies this`requests, this`waiting, this`decoding, this`handles
      ensures Structured(extra - {h})
      ensures requests == old(requests)[k := PrefillWith(old(requests)[k], Minted(h), clock.now)]
      ensures handles == old(handles)[old(requests)[k].id := h]
    {
      ghost var r := PrefillWith(requests[k], Minted(h), clock.now);
      ghost var later := Core(requests[k := r], handles[r.id := h], clock.now);
      MintKeepsLaid(View(), waiting, decoding, backend.sequences, extra, k, h);
      handles := Emplace(handles, requests[k].id, h);
      var promoted := requests[k].Go(Prefilling, clock.now).Go(WaitingDecode, clock.now).Go(Decoding, clock.now);
      requests := requests[k := promoted];
      waiting := EraseFirst(waiting, k);
      decoding := decoding + [k];
      assert View() == later;
    }

    /** The body of the prefill loop: what one outcome does to the oldest waiting request. */
    method ApplyPrefill(k: nat, outcome: PrefillOutcome, ghost extra: set<Handle>)
      requires Structured(extra) && k < |requests| && requests[k].Is(WaitingPrefill) && FirstWaiting(requests, k)
      requires outcome.Minted? ==> outcome.handle in extra
      modifies this`requests, this`waiting, this`decoding, this`handles, backend`sequences, backend`releases
      ensures Structured(if outcome.Minted? then extra - {outcome.handle} else extra)
      ensures requests == old(requests)[k := PrefillWith(old(requests)[k], outcome, clock.now)]
      ensures handles == if outcome.Minted? then old(handles)[old(requests)[k].id := outcome.handle] else old(handles)
      ensures backend.sequences == old(backend.sequences)
    {
      if outcome.Minted? {
        Promote(k, outcome.handle, extra);
      } else {
        FailWaiting(k, extra);
      }
    }

    method EmitAndComplete(k: nat, token: nat)
      requires Structured({}) && k < |requests| && requests[k].Is(Decoding)
      modifies this`requests, this`waiting, this`decoding, this`handles, backend`sequences, backend`releases
      ensures Structured({})
      ensures requests == old(requests)[k := Emit(old(requests)[k], token, clock.now).Go(Completed, clock.now)]
      ensures handles == old(handles) - {old(requests)[k].id}
      ensures backend.sequences == Released(old(handles), old(requests)[k].id, old(backend.sequences))
    {
      ghost var before, emitted := View(), Emit(requests[k], token, clock.now);
      ghost var later := Retired(before, k, emitted.Go(Completed, clock.now));
      FinishKeepsLaid(before, waiting, decoding, backend.sequences, k, token);
      requests := requests[k := Emit(requests[k], token, clock.now)];
      Retire(k, Completed);
      UpdateTwice(before.requests, k, emitted, emitted.Go(Completed, clock.now));
      assert View() == later;
    }

    method EmitAndContinue(k: nat, token: nat)
      requires Structured({}) && k < |requests| && requests[k].Is(Decoding)
      requires requests[k].emitted + 1 < requests[k].maxTokens
      modifies this`requests
      ensures Structured({})
      ensures requests == old(requests)[k := Emit(old(requests)[k], token, clock.now)]
    {
      ContinueKeepsLaid(View(), waiting, decoding, backend.sequences, k, token);
      requests := requests[k := Emit(requests[k], token, clock.now)];
    }

    /** The body of the decode loop: what one outcome does to a decoding request. */
    method ApplyDecode(k: nat, outcome: DecodeOutcome)
      requires Structured({}) && k < |requests| && requests[k].Is(Decoding)
      modifies this`requests, this`waiting, this`decoding, this`handles, backend`sequences, backend`releases
      ensures Structured({})
      ensures requests == old(requests)[k := DecodeWith(old(requests)[k], outcome, clock.now)]
      ensures Within(handles, old(handles)) && Within(backend.sequences, old(backend.sequences))
    {
      assert requests[k].emitted < requests[k].maxTokens;
      ReleasingIsWithin(handles, requests[k].id, backend.sequences);
      if outcome.DecodeError? {
        RetireLive(k, Failed, {});
      } else if outcome.finished || requests[k].emitted + 1 >= requests[k].maxTokens {
        EmitAndComplete(k, outcome.token);
      } else {
        EmitAndContinue(k, outcome.token);
      }
    }

    /** Collects the members of a queue whose deadline has passed. */
    method Overdue(q: seq<nat>) returns (late: seq<nat>)
      requires Increasing(q) && forall i | 0 <= i < |q| :: q[i] < |requests|
      ensures Increasing(late)
      ensures forall k: nat :: k in late <==> k in q && clock.now > requests[k].deadlineAt
    {
      late := [];
      var i := 0;
      while i < |q|
        invariant 0 <= i <= |q| && Increasing(late)
        invariant forall j | 0 <= j < |late| :: late[j] in q[..i]
        invariant forall k: nat :: k in late <==> k in q[..i] && clock.now > requests[k].deadlineAt
      {
        assert forall k :: k in q[..i + 1] <==> k in q[..i] || k == q[i];
        if clock.now > requests[q[i]].deadlineAt {
          assert forall j | 0 <= j < |late| :: late[j] < q[i];
          late := late + [q[i]];
        }
        i := i + 1;
      }
      assert q[..|q|] == q;
    }

    method ExpireWaiting(late: seq<nat>)
      requires Structured({}) && Increasing(late)
      requires forall i | 0 <= i < |late| ::
                 late[i] < |requests| && requests[late[i]].Is(WaitingPrefill) && Expires(requests[late[i]], clock.now)
      modifies this`requests, this`waiting, this`decoding, this`handles, backend`sequences, backend`releases
      ensures Structured({}) && ExpiredIn(old(requests), requests, late, clock.now)
      ensures handles == old(handles) && backend.sequences == old(backend.sequences)
      ensures Tally(InState(Failed), requests) == Tally(InState(Failed), old(requests)) + |late|
    {
      var j := 0;
      while j < |late|
        invariant 0 <= j <= |late|
        invariant Structured({}) && ExpiredIn(old(requests), requests, late[..j], clock.now)
        invariant handles == old(handles) && backend.sequences == old(backend.sequences)
        invariant Tally(InState(Failed), requests) == Tally(InState(Failed), old(requests)) + j
      {
        ExpireOneMore(old(requests), requests, late, j, clock.now);
        FailWaiting(late[j], {});
        j := j + 1;
      }
      assert late[..|late|] == late;
    }

    method ExpireDecodingStep(late: seq<nat>, j: nat, ghost rs: seq<RequestData>)
      requires Structured({}) && Increasing(late) && j < |late| && late[j] < |rs|
               && ExpiredIn(rs, requests, late[..j], clock.now)
      requires rs[late[j]].Is(Decoding) && Expires(rs[late[j]], clock.now)
      modifies this`requests, this`waiting, this`decoding, this`handles, backend`sequences, backend`releases
      ensures Structured({}) && ExpiredIn(rs, requests, late[..j + 1], clock.now)
      ensures Within(handles, old(handles)) && Within(backend.sequences, old(backend.sequences))
      ensures Tally(InState(Failed), requests) == Tally(InState(Failed), old(requests)) + 1
    {
      ExpireOneMore(rs, requests, late, j, clock.now);
      RetireLive(late[j], Failed, {});
    }

    method ExpireDecoding(late: seq<nat>)
      requires Structured({}) && Increasing(late)
      requires forall i | 0 <= i < |late| ::
                 late[i] < |requests| && requests[late[i]].Is(Decoding) && Expires(requests[late[i]], clock.now)
      modifies this`requests, this`waiting, this`decoding, this`handles, backend`sequences, backend`releases
      ensures Structured({}) && ExpiredIn(old(requests), requests, late, clock.now)
      ensures Within(handles, old(handles)) && Within(backend.sequences, old(backend.sequences))
      ensures Tally(InState(Failed), requests) == Tally(InState(Failed), old(requests)) + |late|
    {
      ghost var rs, held, table := requests, handles, backend.sequences;
      var j := 0;
      while j < |late|
        invariant 0 <= j <= |late|
        invariant Structured({}) && ExpiredIn(rs, requests, late[..j], clock.now)
        invariant Within(handles, held) && Within(backend.sequences, table)
        invariant Tally(InState(Failed), requests) == Tally(InState(Failed), rs) + j
      {
        ExpireDecodingStep(late, j, rs);
        j := j + 1;
      }
      assert late[..|late|] == late;
    }

    method ExpireDeadlines() returns (expired: nat)
      requires Valid()
      modifies this`requests, this`waiting, this`decoding, this`handles, backend`sequences, backend`releases
      ensures Valid() && ExpiredAll(old(requests), requests, clock.now)
      ensures Within(handles, old(handles))
      ensures Tally(InState(Failed), requests) == Tally(InState(Failed), old(requests)) + expired
    {
      ghost var rs, w, d, h, table := requests, waiting, decoding, handles, backend.sequences;
      var lateWaiting := Overdue(waiting);
      var lateDecoding := Overdue(decoding);
      LateWaitingOnly(rs, w, lateWaiting, clock.now);
      ExpireWaiting(lateWaiting);
      ghost var mid := requests;
      LateDecodingUntouched(rs, w, d, lateWaiting, lateDecoding, mid, clock.now);
      ExpireDecoding(lateDecoding);
      ExpiredInBoth(rs, w, d, lateWaiting, lateDecoding, mid, requests, clock.now);
      ExpiringKeepsAgree(rs, h, table, requests, handles, backend.sequences, clock.now);
      expired := |lateWaiting| + |lateDecoding|;
    }

    method PrefillBatch(pending: seq<nat>) returns (batch: seq<seq<nat>>, tokens: nat)
      requires QueueOf(pending, requests, WaitingPrefill)
      ensures |batch| == |pending| && tokens == TokenCount(batch) == Tally(WaitingPrompt, requests)
      ensures forall i | 0 <= i < |batch| :: batch[i] == requests[pending[i]].prompt
    {
      batch, tokens := [], 0;
      ghost var ws := Weights(WaitingPrompt, requests);
      var i := 0;
      while i < |pending|
        invariant 0 <= i <= |pending| && |batch| == i
        invariant tokens == TokenCount(batch) == QueueSum(pending[..i], ws)
        invariant forall j | 0 <= j < i :: batch[j] == requests[pending[j]].prompt
      {
        var prompt := requests[pending[i]].prompt;
        assert (batch + [prompt])[..i] == batch;
        assert pending[..i + 1][..i] == pending[..i];
        batch := batch + [prompt];
        tokens := tokens + |prompt|;
        i := i + 1;
      }
      assert pending[..|pending|] == pending;
      QueueSumIsSum(pending, ws);
      TallyIsSum(WaitingPrompt, requests);
    }

    /** Where the prefill loop stands after j outcomes, having started from requests `rs` and handles `held`. */
    ghost predicate PrefillLoop(
      pending: seq<nat>, outcomes: seq<PrefillOutcome>, j: nat, rs: seq<RequestData>, held: map<RequestId, Handle>,
      succeeded: nat, failed: nat)
      reads this, backend, clock
    {
      && Structured(Unclaimed(outcomes, j))
      && PrefilledIn(rs, requests, pending, outcomes, j, clock.now)
      && StoredIn(rs, pending, outcomes, j, held, handles)
      && Tally(InState(Decoding), requests) == Tally(InState(Decoding), rs) + succeeded
      && Tally(InState(Failed), requests) == Tally(InState(Failed), rs) + failed
    }

    /** One turn of the prefill loop. */
    method PrefillStep(
      pending: seq<nat>, outcomes: seq<PrefillOutcome>, j: nat, succeeded: nat, failed: nat,
      ghost rs: seq<RequestData>, ghost held: map<RequestId, Handle>)
      returns (succeeded': nat, failed': nat)
      requires PrefillLoop(pending, outcomes, j, rs, held, succeeded, failed)
      requires DistinctMinted(outcomes) && QueueOf(pending, rs, WaitingPrefill) && j < |pending|
      modifies this`requests, this`waiting, this`decoding, this`handles, backend`sequences, backend`releases
      ensures PrefillLoop(pending, outcomes, j + 1, rs, held, succeeded', failed')
      ensures backend.sequences == old(backend.sequences)
    {
      PrefillOneMore(rs, requests, pending, outcomes, j, clock.now);
      NextIsFirstWaiting(rs, requests, pending, outcomes, j, clock.now);
      PrefillCounts(requests, pending[j], outcomes[j], clock.now);
      ClaimNext(outcomes, j);
      WaitingIsNotDecoding(requests, pending[j]);
      StoreOneMore(rs, pending, outcomes, j, held, handles);
      ApplyPrefill(pending[j], outcomes[j], Unclaimed(outcomes, j));
      succeeded' := if outcomes[j].Minted? then succeeded + 1 else succeeded;
      failed' := if outcomes[j].Minted? then failed else failed + 1;
    }

    method ApplyPrefills(pending: seq<nat>, outcomes: seq<PrefillOutcome>) returns (succeeded: nat, failed: nat)
      requires Structured(Unclaimed(outcomes, 0)) && pending == waiting
      requires |outcomes| == |pending| && DistinctMinted(outcomes)
      modifies this`requests, this`waiting, this`decoding, this`handles, backend`sequences, backend`releases
      ensures PrefillLoop(pending, outcomes, |pending|, old(requests), old(handles), succeeded, failed)
      ensures Unclaimed(outcomes, |pending|) == {} && backend.sequences == old(backend.sequences)
    {
      succeeded, failed := 0, 0;
      ghost var rs, held := requests, handles;
      var j := 0;
      while j < |pending|
        invariant 0 <= j <= |pending| && backend.sequences == old(backend.sequences)
        invariant PrefillLoop(pending, outcomes, j, rs, held, succeeded, failed)
      {
        succeeded, failed := PrefillStep(pending, outcomes, j, succeeded, failed, rs, held);
        j := j + 1;
      }
    }

    /** One batch call for everything waiting; the new sequences are not in the handle map yet. */
    method CallPrefill(pending: seq<nat>) returns (outcomes: seq<PrefillOutcome>, tokens: nat)
      requires Structured({}) && pending == waiting
      modifies backend`nextSequenceId, backend`sequences, backend`pendingPrefillErrors, clock
      ensures tokens == Tally(WaitingPrompt, requests)
      ensures clock.now == old(clock.now) + backend.perTokenPrefillCost * tokens
      ensures |outcomes| == |pending| && Mints(outcomes, old(backend.pendingPrefillErrors), old(backend.nextSequenceId))
      ensures backend.nextSequenceId
           == old(backend.nextSequenceId) + |outcomes| - Min(|old(backend.pendingPrefillErrors)|, |outcomes|)
      ensures OpenedRange(old(backend.sequences), backend.sequences, old(backend.nextSequenceId),
                          backend.nextSequenceId)
      ensures Structured(Unclaimed(outcomes, 0)) && DistinctMinted(outcomes)
    {
      ghost var c, table, lo, errors := View(), backend.sequences, backend.nextSequenceId, backend.pendingPrefillErrors;
      var batch;
      batch, tokens := PrefillBatch(pending);
      CostIsNatural(backend.perTokenPrefillCost, tokens);
      outcomes := backend.Prefill(batch);
      PrefillCallKeepsLaid(c, waiting, decoding, table, backend.sequences, outcomes, errors, lo, backend.nextSequenceId,
                           clock.now);
      assert View() == c.(now := clock.now);
    }

    method PrefillPhase()
      returns (attempted: nat, succeeded: nat, failed: nat, tokens: nat, ghost outs: map<RequestId, PrefillOutcome>)
      requires Valid()
      modifies this`requests, this`waiting, this`decoding, this`handles, backend, clock
      ensures Valid() && PrefilledAll(old(requests), requests, outs, clock.now)
      ensures clock.now == old(clock.now) + backend.perTokenPrefillCost * tokens
      ensures FreshIn(outs, old(backend.nextSequenceId)) && outs.Keys <= WaitingIds(old(requests))
      ensures StoredById(old(handles), handles, outs)
      ensures PrefillsInOrder(old(requests), old(waiting), old(backend.pendingPrefillErrors),
                              old(backend.nextSequenceId), outs)
      ensures attempted == |old(waiting)| && tokens == Tally(WaitingPrompt, old(requests))
      ensures Tally(InState(Decoding), requests) == Tally(InState(Decoding), old(requests)) + succeeded
      ensures Tally(InState(Failed), requests) == Tally(InState(Failed), old(requests)) + failed
    {
      ghost var rs, held, table, lo := requests, handles, backend.sequences, backend.nextSequenceId;
      ghost var errors, t := backend.pendingPrefillErrors, clock.now;
      var pending := waiting;
      attempted := |pending|;
      var outcomes;
      outcomes, tokens := CallPrefill(pending);
      ghost var minted, hi := backend.sequences, backend.nextSequenceId;
      succeeded, failed := ApplyPrefills(pending, outcomes);
      WaitingIsBlank(rs, t);
      outs := PrefillFacts(rs, held, table, requests, handles, minted, pending, outcomes, errors, lo, hi, clock.now);
    }

    lemma WaitingIsBlank(rs: seq<RequestData>, now: TimePoint)
      requires AllOk(rs, now)
      ensures forall i | 0 <= i < |rs| && rs[i].Is(WaitingPrefill) :: rs[i].emitted == 0
    {
      forall i | 0 <= i < |rs| && rs[i].Is(WaitingPrefill)
        ensures rs[i].emitted == 0
      {
        assert RequestOk(rs[i], now);
      }
    }

    method DecodeBatch(pending: seq<nat>) returns (batch: seq<Handle>)
      requires forall i | 0 <= i < |pending| :: pending[i] < |requests| && requests[pending[i]].id in handles
      ensures BatchOf(requests, pending, handles, batch)
    {
      batch := [];
      var i := 0;
      while i < |pending|
        invariant 0 <= i <= |pending| && |batch| == i
        invariant forall j | 0 <= j < i :: batch[j] == handles[requests[pending[j]].id]
      {
        batch := batch + [handles[requests[pending[i]].id]];
        i := i + 1;
      }
    }

    /** One turn of the decode loop. */
    method DecodeStep(
      pending: seq<nat>, outcomes: seq<DecodeOutcome>, j: nat,
      ghost rs: seq<RequestData>, ghost held: map<RequestId, Handle>, ghost table: Table)
      requires Structured({}) && QueueOf(pending, rs, Decoding) && j < |pending|
      requires DecodedIn(rs, requests, pending, outcomes, j, clock.now)
      requires Within(handles, held) && Within(backend.sequences, table)
      modifies this`requests, this`waiting, this`decoding, this`handles, backend`sequences, backend`releases
      ensures Structured({})
      ensures DecodedIn(rs, requests, pending, outcomes, j + 1, clock.now)
      ensures Within(handles, held) && Within(backend.sequences, table)
      ensures Tally(InState(Completed), requests)
              == Tally(InState(Completed), old(requests)) + One(requests[pending[j]].Is(Completed))
      ensures Tally(InState(Failed), requests)
              == Tally(InState(Failed), old(requests)) + One(requests[pending[j]].Is(Failed))
    {
      DecodeOneMore(rs, requests, pending, outcomes, j, clock.now);
      DecodeCounts(requests, pending[j], outcomes[j], clock.now);
      ApplyDecode(pending[j], outcomes[j]);
    }

    method ApplyDecodes(pending: seq<nat>, outcomes: seq<DecodeOutcome>) returns (completed: nat, failed: nat)
      requires Structured({}) && pending == decoding && |outcomes| == |pending|
      modifies this`requests, this`waiting, this`decoding, this`handles, backend`sequences, backend`releases
      ensures Structured({})
      ensures DecodedIn(old(requests), requests, pending, outcomes, |pending|, clock.now)
      ensures Within(handles, old(handles)) && Within(backend.sequences, old(backend.sequences))
      ensures Tally(InState(Completed), requests) == Tally(InState(Completed), old(requests)) + completed
      ensures Tally(InState(Failed), requests) == Tally(InState(Failed), old(requests)) + failed
    {
      completed, failed := 0, 0;
      ghost var rs, held, table := requests, handles, backend.sequences;
      var j := 0;
      while j < |pending|
        invariant 0 <= j <= |pending|
        invariant Structured({})
        invariant DecodedIn(rs, requests, pending, outcomes, j, clock.now)
        invariant Within(handles, held) && Within(backend.sequences, table)
        invariant Tally(InState(Completed), requests) == Tally(InState(Completed), rs) + completed
        invariant Tally(InState(Failed), requests) == Tally(InState(Failed), rs) + failed
      {
        DecodeStep(pending, outcomes, j, rs, held, table);
        completed := if requests[pending[j]].Is(Completed) then completed + 1 else completed;
        failed := if requests[pending[j]].Is(Failed) then failed + 1 else failed;
        j := j + 1;
      }
    }

    method CallDecode(pending: seq<nat>) returns (batch: seq<Handle>, outcomes: seq<DecodeOutcome>)
      requires Structured({}) && pending == decoding
      modifies backend`sequences, backend`pendingDecodeErrors, clock
      ensures Structured({}) && clock.now == old(clock.now) + backend.perDecodeCost
      ensures BatchOf(requests, pending, handles, batch) && AllDistinct(batch)
      ensures Decodable(old(backend.sequences), old(backend.pendingDecodeErrors), batch)
      ensures outcomes == DecodeAll(old(backend.sequences), old(backend.pendingDecodeErrors), batch).outcomes
      ensures backend.sequences == DecodeAll(old(backend.sequences), old(backend.pendingDecodeErrors), batch).table
    {
      DecodingHaveHandles(requests, handles, pending);
      batch := DecodeBatch(pending);
      BatchIsLiveAndDistinct(requests, pending, handles, batch, backend.sequences);
      ghost var later := View().(now := clock.now + backend.perDecodeCost);
      DecodeCallKeepsLaid(View(), waiting, decoding, backend.sequences, backend.pendingDecodeErrors, batch, later.now);
      outcomes := backend.Decode(batch);
      assert View() == later;
    }

    method DecodePhase()
      returns (attempted: nat, completed: nat, failed: nat, ghost outs: map<RequestId, DecodeOutcome>)
      requires Valid()
      modifies this`requests, this`waiting, this`decoding, this`handles
      modifies backend`sequences, backend`pendingDecodeErrors, backend`releases, clock
      ensures Valid() && DecodedAll(old(requests), requests, outs, clock.now)
      ensures clock.now == old(clock.now) + backend.perDecodeCost
      ensures Within(handles, old(handles)) && attempted == |old(decoding)|
      ensures DecodesInOrder(old(requests), old(decoding), old(handles), old(backend.sequences),
                             old(backend.pendingDecodeErrors), outs)
      ensures NoneOverrun(requests, handles, backend.sequences)
      ensures Tally(InState(Completed), requests) == Tally(InState(Completed), old(requests)) + completed
      ensures Tally(InState(Failed), requests) == Tally(InState(Failed), old(requests)) + failed
    {
      ghost var rs, held, table, errors := requests, handles, backend.sequences, backend.pendingDecodeErrors;
      ghost var t := clock.now;
      OutputsOk(rs, t);
      var pending := decoding;
      attempted := |pending|;
      var batch, outcomes := CallDecode(pending);
      ghost var decoded := backend.sequences;
      completed, failed := ApplyDecodes(pending, outcomes);
      outs := DecodeFacts(rs, held, table, errors, pending, batch, outcomes, clock.now, requests, handles, decoded,
                          backend.sequences);
    }

    lemma OutputsOk(rs: seq<RequestData>, now: TimePoint)
      requires AllOk(rs, now)
      ensures forall i | 0 <= i < |rs| :: OutputOk(rs[i])
    {
      forall i | 0 <= i < |rs|
        ensures OutputOk(rs[i])
      {
        assert RequestOk(rs[i], now);
      }
    }

    /** The three phases and the merged report. */
    method TickPhases() returns (report: TickReport, ghost env: Env)
      requires Valid()
      modifies this`requests, this`waiting, this`decoding, this`handles, backend, clock
      ensures Valid()
      ensures AllHaveRoom(old(requests)) && EnvOk(old(View()), env) && View() == Scheduling.Tick(old(View()), env)
      ensures env.t0 == old(clock.now)
      ensures env.t1 == env.t0 + backend.perTokenPrefillCost * report.prefillTokens
      ensures env.t2 == env.t1 + backend.perDecodeCost
      ensures report == ReportOf(old(requests), env)
      ensures NoneOverrun(requests, handles, backend.sequences)
    {
      ghost var core, lo := View(), backend.nextSequenceId;
      assert forall h | h in core.handles.Values :: h < lo;
      var expired := ExpireDeadlines();
      ghost var b, h1 := requests, handles;
      QueueLengths();
      var prefillAttempted, prefillSucceeded, prefillFailed, prefillTokens, prefillOuts := PrefillPhase();
      ghost var t1, c, h2 := clock.now, requests, handles;
      QueueLengths();
      var decodeAttempted, decodeCompleted, decodeFailed, decodeOuts := DecodePhase();
      env := Env(core.now, prefillOuts, t1, decodeOuts, clock.now);
      report := TickReport(clock.now, expired, prefillAttempted, prefillSucceeded, prefillFailed, prefillTokens,
                           decodeAttempted, decodeAttempted, decodeCompleted, decodeFailed);
      CostIsNatural(backend.perTokenPrefillCost, prefillTokens);
      TickRefines(core, b, c, requests, env, lo, h1, h2, handles);
      ReportMatches(core.requests, b, c, requests, env, report);
    }

    /**
     * One scheduling iteration.  Whatever the mock answered is an environment that meets the backend
     * contract, the new state is the specified one, the report counts the fates dealt, and nothing comes
     * later after its deadline than the tick costs.
     */
    method Tick() returns (report: TickReport, ghost env: Env)
      requires Valid()
      modifies this`requests, this`waiting, this`decoding, this`handles, backend, clock
      ensures Valid()
      ensures AllHaveRoom(old(requests)) && EnvOk(old(View()), env) && View() == Scheduling.Tick(old(View()), env)
      ensures env.t0 == old(clock.now)
      ensures env.t1 == env.t0 + backend.perTokenPrefillCost * report.prefillTokens
      ensures env.t2 == env.t1 + backend.perDecodeCost
              == env.t0 + TickCost(report, backend.perTokenPrefillCost, backend.perDecodeCost)
      ensures report == ReportOf(old(requests), env)
      ensures NoneOverrun(requests, handles, backend.sequences)
      ensures AllOnTime(old(requests), requests, TickCost(report, backend.perTokenPrefillCost, backend.perDecodeCost))
    {
      ghost var core := View();
      report, env := TickPhases();
      TickOnTime(core, env);
    }

    lemma QueueLengths()
      requires Valid()
      ensures |waiting| == Tally(InState(WaitingPrefill), requests) && |decoding| == Tally(InState(Decoding), requests)
    {
      QueueIsPositions(waiting, requests, WaitingPrefill);
      QueueIsPositions(decoding, requests, Decoding);
      QueueLength(requests, WaitingPrefill);
      QueueLength(requests, Decoding);
    }

    method Find(q: seq<nat>, id: RequestId) returns (i: nat)
      requires forall j | 0 <= j < |q| :: q[j] < |requests|
      ensures i <= |q| && (i < |q| ==> requests[q[i]].id == id) && forall j | 0 <= j < i :: requests[q[j]].id != id
    {
      i := 0;
      while i < |q| && requests[q[i]].id != id
        invariant 0 <= i <= |q| && forall j | 0 <= j < i :: requests[q[j]].id != id
      {
        i := i + 1;
      }
    }

    method CancelAt(k: nat, id: RequestId)
      requires Valid() && k < |requests| && requests[k].Live() && requests[k].id == id
      modifies this`requests, this`waiting, this`decoding, this`handles, backend`sequences, backend`releases
      ensures Valid() && View() == Scheduling.Cancel(old(View()), id, clock.now) && NoneLive(requests, id)
    {
      ghost var c, table := View(), backend.sequences;
      CancelHit(c, id, k);
      CancelOnlyRetires(c, id);
      RetireLive(k, Cancelled, {});
      RetiringKeepsAgree(c.requests, c.handles, table, requests, handles, backend.sequences);
    }

    /** Cancels the tracked request of that id, if there is one. */
    method Cancel(id: RequestId)
      requires Valid()
      modifies this`requests, this`waiting, this`decoding, this`handles, backend`sequences, backend`releases
      ensures Valid() && View() == Scheduling.Cancel(old(View()), id, clock.now)
    {
      var i := Find(waiting, id);
      if i < |waiting| {
        CancelAt(waiting[i], id);
      }
      var j := Find(decoding, id);
      if j < |decoding| {
        CancelAt(decoding[j], id);
      } else if i == |old(waiting)| {
        SearchedBoth(requests, waiting, decoding, id);
        CancelMiss(View(), id);
      }
    }
  }
}
