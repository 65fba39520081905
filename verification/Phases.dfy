/** The phases of a tick and the steps of a cancel, as relations between values. */
module Phases {
  import opened Clocks
  import opened Lifecycle
  import opened Requests
  import opened Backend
  import opened Scheduling
  import opened SchedulingTheorems
  import opened Reporting
  import opened Queues
  import opened Mock
  import opened Layout

  // ----- phases, request by request -----

  /** `ss` is `rs` with the overdue requests listed in `late` expired at time t. */
  ghost predicate ExpiredIn(rs: seq<RequestData>, ss: seq<RequestData>, late: seq<nat>, t: TimePoint) {
    && |ss| == |rs|
    && forall k | 0 <= k < |rs| :: ss[k] == if k in late then ExpireOne(rs[k], t) else rs[k]
  }

  lemma ExpireOneMore(rs: seq<RequestData>, ss: seq<RequestData>, late: seq<nat>, j: nat, t: TimePoint)
    requires Increasing(late) && j < |late| && late[j] < |rs| && ExpiredIn(rs, ss, late[..j], t)
    requires Expires(rs[late[j]], t)
    ensures ss[late[j]] == rs[late[j]]
    ensures var after := ss[late[j] := ExpireOne(rs[late[j]], t)];
            && ExpiredIn(rs, after, late[..j + 1], t)
            && Tally(InState(Failed), after) == Tally(InState(Failed), ss) + 1
  {
    assert late[..j + 1] == late[..j] + [late[j]];
    assert late[j] !in late[..j];
    TallyUpdate(InState(Failed), ss, late[j], ExpireOne(rs[late[j]], t));
  }

  lemma ExpiredInBoth(
    rs: seq<RequestData>, w: seq<nat>, d: seq<nat>, lateW: seq<nat>, lateD: seq<nat>,
    mid: seq<RequestData>, ss: seq<RequestData>, t: TimePoint)
    requires QueueOf(w, rs, WaitingPrefill) && QueueOf(d, rs, Decoding)
    requires forall k: nat :: k in lateW <==> k in w && t > rs[k].deadlineAt
    requires forall k: nat :: k in lateD <==> k in d && t > rs[k].deadlineAt
    requires ExpiredIn(rs, mid, lateW, t) && ExpiredIn(mid, ss, lateD, t)
    ensures ExpiredAll(rs, ss, t)
  {
    forall k | 0 <= k < |rs|
      ensures ss[k] == ExpireOne(rs[k], t)
    {
      assert k in w <==> rs[k].Is(WaitingPrefill);
      assert k in d <==> rs[k].Is(Decoding);
    }
  }

  lemma ExpiringKeepsAgree(
    rs: seq<RequestData>, handles: map<RequestId, Handle>, table: Table,
    ss: seq<RequestData>, handles': map<RequestId, Handle>, table': Table, t: TimePoint)
    requires TokensAgree(rs, handles, table) && AllCounting(rs) && ExpiredAll(rs, ss, t)
    requires Within(handles', handles) && Within(table', table)
    requires handles'.Keys == DecodingIds(ss) && Coupled(handles', table', {})
    ensures TokensAgree(ss, handles', table') && AllCounting(ss)
  {
    RetiringKeepsAgree(rs, handles, table, ss, handles', table');
  }

  lemma LateWaitingOnly(rs: seq<RequestData>, w: seq<nat>, late: seq<nat>, t: TimePoint)
    requires QueueOf(w, rs, WaitingPrefill) && forall k: nat :: k in late <==> k in w && t > rs[k].deadlineAt
    ensures forall i | 0 <= i < |late| :: late[i] < |rs| && rs[late[i]].Is(WaitingPrefill) && Expires(rs[late[i]], t)
  {
    forall i | 0 <= i < |late|
      ensures late[i] < |rs| && rs[late[i]].Is(WaitingPrefill) && Expires(rs[late[i]], t)
    {
      assert late[i] in w;
    }
  }

  lemma LateDecodingUntouched(
    rs: seq<RequestData>, w: seq<nat>, d: seq<nat>, lateW: seq<nat>, lateD: seq<nat>, mid: seq<RequestData>,
    t: TimePoint)
    requires QueueOf(w, rs, WaitingPrefill) && QueueOf(d, rs, Decoding)
    requires forall k: nat :: k in lateW <==> k in w && t > rs[k].deadlineAt
    requires forall k: nat :: k in lateD <==> k in d && t > rs[k].deadlineAt
    requires ExpiredIn(rs, mid, lateW, t)
    ensures forall i | 0 <= i < |lateD| :: lateD[i] < |mid| && mid[lateD[i]].Is(Decoding) && Expires(mid[lateD[i]], t)
  {
    forall i | 0 <= i < |lateD|
      ensures lateD[i] < |mid| && mid[lateD[i]].Is(Decoding) && Expires(mid[lateD[i]], t)
    {
      assert lateD[i] in d;
    }
  }

  /** The outcomes of a batch, keyed by the ids of the requests it was made of. */
  ghost function ById<T>(rs: seq<RequestData>, pending: seq<nat>, outcomes: seq<T>): map<RequestId, T>
    requires |outcomes| == |pending| && AllLiveIn(rs, pending) && Increasing(pending) && DistinctLiveIds(rs)
  {
    map i | 0 <= i < |pending| :: rs[pending[i]].id := outcomes[i]
  }

  ghost predicate AllLiveIn(rs: seq<RequestData>, pending: seq<nat>) {
    forall i | 0 <= i < |pending| :: pending[i] < |rs| && rs[pending[i]].Live()
  }

  lemma ByIdAt<T>(rs: seq<RequestData>, pending: seq<nat>, outcomes: seq<T>, i: nat)
    requires |outcomes| == |pending| && AllLiveIn(rs, pending) && Increasing(pending) && DistinctLiveIds(rs)
             && i < |pending|
    ensures rs[pending[i]].id in ById(rs, pending, outcomes)
            && ById(rs, pending, outcomes)[rs[pending[i]].id] == outcomes[i]
  {
  }

  /** `ss` is `rs` after the first j outcomes of a prefill batch. */
  ghost predicate PrefilledIn(
    rs: seq<RequestData>, ss: seq<RequestData>, pending: seq<nat>, outcomes: seq<PrefillOutcome>, j: nat, t: TimePoint)
  {
    && |ss| == |rs| && |outcomes| == |pending|
    && (forall i | 0 <= i < |pending| ::
          && pending[i] < |rs| && rs[pending[i]].Is(WaitingPrefill)
          && ss[pending[i]] == if i < j then PrefillWith(rs[pending[i]], outcomes[i], t) else rs[pending[i]])
    && (forall k | 0 <= k < |rs| && k !in pending :: ss[k] == rs[k])
  }

  lemma NextIsFirstWaiting(
    rs: seq<RequestData>, ss: seq<RequestData>, pending: seq<nat>, outcomes: seq<PrefillOutcome>, j: nat, t: TimePoint)
    requires QueueOf(pending, rs, WaitingPrefill) && PrefilledIn(rs, ss, pending, outcomes, j, t) && j < |pending|
    ensures FirstWaiting(ss, pending[j])
  {
    forall i | 0 <= i < |ss| && i < pending[j]
      ensures !ss[i].Is(WaitingPrefill)
    {
      if i in pending {
        var a :| 0 <= a < |pending| && pending[a] == i;
        assert a < j;
      }
    }
  }

  lemma PrefillCounts(ss: seq<RequestData>, k: nat, outcome: PrefillOutcome, t: TimePoint)
    requires k < |ss| && ss[k].Is(WaitingPrefill)
    ensures var after := ss[k := PrefillWith(ss[k], outcome, t)];
            && Tally(InState(Decoding), after) == Tally(InState(Decoding), ss) + One(outcome.Minted?)
            && Tally(InState(Failed), after) == Tally(InState(Failed), ss) + One(outcome.PrefillError?)
  {
    TallyUpdate(InState(Decoding), ss, k, PrefillWith(ss[k], outcome, t));
    TallyUpdate(InState(Failed), ss, k, PrefillWith(ss[k], outcome, t));
  }

  lemma PrefillOneMore(
    rs: seq<RequestData>, ss: seq<RequestData>, pending: seq<nat>, outcomes: seq<PrefillOutcome>, j: nat, t: TimePoint)
    requires Increasing(pending) && PrefilledIn(rs, ss, pending, outcomes, j, t) && j < |pending|
    ensures ss[pending[j]] == rs[pending[j]]
    ensures PrefilledIn(rs, ss[pending[j] := PrefillWith(rs[pending[j]], outcomes[j], t)], pending, outcomes, j + 1, t)
  {
  }

  /** The handle map after the first j outcomes: what it held before, and the handles minted so far. */
  ghost predicate StoredIn(
    rs: seq<RequestData>, pending: seq<nat>, outcomes: seq<PrefillOutcome>, j: nat,
    before: map<RequestId, Handle>, after: map<RequestId, Handle>)
  {
    && |outcomes| == |pending|
    && Within(before, after)
    && forall i | 0 <= i < |pending| && i < j && outcomes[i].Minted? ::
         && pending[i] < |rs| && rs[pending[i]].id in after && after[rs[pending[i]].id] == outcomes[i].handle
  }

  lemma StoreOneMore(
    rs: seq<RequestData>, pending: seq<nat>, outcomes: seq<PrefillOutcome>, j: nat,
    before: map<RequestId, Handle>, after: map<RequestId, Handle>)
    requires StoredIn(rs, pending, outcomes, j, before, after) && j < |pending| && pending[j] < |rs|
    requires rs[pending[j]].id !in after
    ensures StoredIn(rs, pending, outcomes, j + 1, before,
                     if outcomes[j].Minted? then after[rs[pending[j]].id := outcomes[j].handle] else after)
  {
  }

  /** Handles minted for outcomes from the j-th on. */
  ghost function Unclaimed(outcomes: seq<PrefillOutcome>, j: nat): set<Handle> {
    set i | j <= i < |outcomes| && outcomes[i].Minted? :: outcomes[i].handle
  }

  ghost predicate DistinctMinted(outcomes: seq<PrefillOutcome>) {
    forall i, j | 0 <= i < j < |outcomes| && outcomes[i].Minted? && outcomes[j].Minted? ::
        outcomes[i].handle != outcomes[j].handle
  }

  lemma ClaimNext(outcomes: seq<PrefillOutcome>, j: nat)
    requires DistinctMinted(outcomes) && j < |outcomes|
    ensures outcomes[j].Minted? ==> outcomes[j].handle in Unclaimed(outcomes, j)
    ensures Unclaimed(outcomes, j + 1)
         == if outcomes[j].Minted? then Unclaimed(outcomes, j) - {outcomes[j].handle} else Unclaimed(outcomes, j)
  {
  }

  /** From the e-th outcome on, handles count up from lo. */
  ghost predicate CountUp(outcomes: seq<PrefillOutcome>, e: nat, lo: Handle) {
    forall i | 0 <= i < |outcomes| :: if i < e then outcomes[i].PrefillError? else outcomes[i] == Minted(lo + i - e)
  }

  /** The i-th outcome of a batch is the i-th injected error, or else the next handle. */
  ghost predicate Mints(outcomes: seq<PrefillOutcome>, errors: seq<BackendError>, lo: Handle) {
    forall i | 0 <= i < |outcomes| ::
      outcomes[i] == if i < |errors| then PrefillError(errors[i]) else Minted(lo + i - |errors|)
  }

  lemma MintedAreCoupled(
    handles: map<RequestId, Handle>, before: Table, after: Table, outcomes: seq<PrefillOutcome>, e: nat, lo: Handle,
    hi: Handle)
    requires Coupled(handles, before, {}) && (forall h | h in before :: h < lo)
    requires OpenedRange(before, after, lo, hi) && CountUp(outcomes, e, lo)
             && hi == lo + |outcomes| - Min(e, |outcomes|)
    ensures Coupled(handles, after, Unclaimed(outcomes, 0)) && DistinctMinted(outcomes)
  {
    forall h
      ensures h in Unclaimed(outcomes, 0) <==> lo <= h < hi
    {
      if lo <= h < hi {
        assert outcomes[h - lo + e] == Minted(h);
      }
    }
  }

  /** A promoted request has emitted nothing, and neither has its new sequence. */
  lemma PrefillKeepsAgree(
    rs: seq<RequestData>, held: map<RequestId, Handle>, before: Table,
    ss: seq<RequestData>, handles: map<RequestId, Handle>, after: Table,
    pending: seq<nat>, outcomes: seq<PrefillOutcome>, e: nat, lo: Handle, hi: Handle, t: TimePoint)
    requires TokensAgree(rs, held, before) && AllCounting(rs) && QueueOf(pending, rs, WaitingPrefill)
    requires forall i | 0 <= i < |rs| && rs[i].Is(WaitingPrefill) :: rs[i].emitted == 0
    requires (forall h | h in before :: h < lo) && OpenedRange(before, after, lo, hi)
    requires PrefilledIn(rs, ss, pending, outcomes, |pending|, t)
             && StoredIn(rs, pending, outcomes, |pending|, held, handles)
    requires CountUp(outcomes, e, lo) && hi == lo + |outcomes| - Min(e, |outcomes|)
    ensures TokensAgree(ss, handles, after) && AllCounting(ss)
  {
    forall i | 0 <= i < |ss|
      ensures Counting(ss[i].output)
      ensures ss[i].Is(Decoding) ==>
                && ss[i].id in handles && handles[ss[i].id] in after
                && after[handles[ss[i].id]].tokensEmitted == ss[i].emitted % WORD
    {
      if i in pending {
        var a :| 0 <= a < |pending| && pending[a] == i;
        assert rs[pending[a]].emitted == 0;
      }
    }
  }

  /** What a whole batch did, said request by request. */
  lemma PrefilledById(
    rs: seq<RequestData>, ss: seq<RequestData>, pending: seq<nat>, outcomes: seq<PrefillOutcome>, t: TimePoint)
    requires QueueOf(pending, rs, WaitingPrefill) && DistinctLiveIds(rs)
    requires PrefilledIn(rs, ss, pending, outcomes, |pending|, t)
    ensures AllLiveIn(rs, pending) && PrefilledAll(rs, ss, ById(rs, pending, outcomes), t)
  {
    var outs := ById(rs, pending, outcomes);
    forall k | 0 <= k < |rs|
      ensures ss[k] == PrefillOne(rs[k], outs, t)
      ensures rs[k].Is(WaitingPrefill) ==> rs[k].id in outs
    {
      if k in pending {
        var a :| 0 <= a < |pending| && pending[a] == k;
        ByIdAt(rs, pending, outcomes, a);
      }
    }
  }

  /** The handles of a batch: pairwise different, and none below `lo`. */
  ghost predicate FreshIn(outs: map<RequestId, PrefillOutcome>, lo: Handle) {
    && (forall a, b | a in outs && b in outs && a != b && outs[a].Minted? && outs[b].Minted? ::
         outs[a].handle != outs[b].handle)
    && (forall a | a in outs && outs[a].Minted? :: lo <= outs[a].handle)
  }

  function WaitingIds(rs: seq<RequestData>): set<RequestId> {
    set i | 0 <= i < |rs| && rs[i].Is(WaitingPrefill) :: rs[i].id
  }

  lemma MintedAreFresh(rs: seq<RequestData>, pending: seq<nat>, outcomes: seq<PrefillOutcome>, e: nat, lo: Handle)
    requires |outcomes| == |pending| && Increasing(pending) && DistinctLiveIds(rs) && AllLiveIn(rs, pending)
    requires CountUp(outcomes, e, lo)
    ensures FreshIn(ById(rs, pending, outcomes), lo)
  {
  }

  lemma OutcomesAreForWaiting(rs: seq<RequestData>, pending: seq<nat>, outcomes: seq<PrefillOutcome>)
    requires |outcomes| == |pending| && QueueOf(pending, rs, WaitingPrefill) && DistinctLiveIds(rs)
             && AllLiveIn(rs, pending)
    ensures ById(rs, pending, outcomes).Keys <= WaitingIds(rs)
  {
  }

  /** Every handle in the map was there before or was minted in this batch for that id. */
  ghost predicate StoredById(
    held: map<RequestId, Handle>, handles: map<RequestId, Handle>, outs: map<RequestId, PrefillOutcome>) {
    && Within(held, handles)
    && forall id | id in handles && id !in held :: id in outs && outs[id] == Minted(handles[id])
  }

  lemma StoredInById(
    rs: seq<RequestData>, ss: seq<RequestData>, pending: seq<nat>, outcomes: seq<PrefillOutcome>, t: TimePoint,
    held: map<RequestId, Handle>, handles: map<RequestId, Handle>)
    requires QueueOf(pending, rs, WaitingPrefill) && DistinctLiveIds(rs) && AllLiveIn(rs, pending)
    requires PrefilledIn(rs, ss, pending, outcomes, |pending|, t)
             && StoredIn(rs, pending, outcomes, |pending|, held, handles)
    requires held.Keys == DecodingIds(rs) && handles.Keys == DecodingIds(ss)
    ensures StoredById(held, handles, ById(rs, pending, outcomes))
  {
    forall id | id in handles && id !in held
      ensures id in ById(rs, pending, outcomes) && ById(rs, pending, outcomes)[id] == Minted(handles[id])
    {
      var i :| 0 <= i < |ss| && ss[i].Is(Decoding) && ss[i].id == id;
      var a := PromotedPosition(rs, ss, pending, outcomes, t, i);
      ByIdAt(rs, pending, outcomes, a);
    }
  }

  lemma PromotedPosition(
    rs: seq<RequestData>, ss: seq<RequestData>, pending: seq<nat>, outcomes: seq<PrefillOutcome>, t: TimePoint, i: nat)
    returns (a: nat)
    requires PrefilledIn(rs, ss, pending, outcomes, |pending|, t) && i < |ss| && ss[i].Is(Decoding)
    requires ss[i].id !in DecodingIds(rs)
    ensures a < |pending| && pending[a] == i && outcomes[a].Minted? && rs[i].id == ss[i].id
  {
    assert i in pending;
    a :| 0 <= a < |pending| && pending[a] == i;
  }

  /** The i-th request of the batch meets the i-th injected error, or else gets the next handle. */
  ghost predicate PrefillsInOrder(
    rs: seq<RequestData>, pending: seq<nat>, errors: seq<BackendError>, lo: Handle,
    outs: map<RequestId, PrefillOutcome>)
  {
    forall i | 0 <= i < |pending| ::
      && pending[i] < |rs| && rs[pending[i]].id in outs
      && outs[rs[pending[i]].id] == if i < |errors| then PrefillError(errors[i]) else Minted(lo + i - |errors|)
  }

  lemma PrefilledInOrder(
    rs: seq<RequestData>, pending: seq<nat>, errors: seq<BackendError>, lo: Handle, outcomes: seq<PrefillOutcome>)
    requires Increasing(pending) && DistinctLiveIds(rs) && AllLiveIn(rs, pending)
    requires |outcomes| == |pending| && Mints(outcomes, errors, lo)
    ensures PrefillsInOrder(rs, pending, errors, lo, ById(rs, pending, outcomes))
  {
    forall i | 0 <= i < |pending|
      ensures rs[pending[i]].id in ById(rs, pending, outcomes)
      ensures ById(rs, pending, outcomes)[rs[pending[i]].id] == outcomes[i]
    {
      ByIdAt(rs, pending, outcomes, i);
    }
  }

  /** Everything the prefill loop has established, in terms of the outcome each request got. */
  lemma PrefillFacts(
    rs: seq<RequestData>, held: map<RequestId, Handle>, before: Table,
    ss: seq<RequestData>, handles: map<RequestId, Handle>, after: Table,
    pending: seq<nat>, outcomes: seq<PrefillOutcome>, errors: seq<BackendError>, lo: Handle, hi: Handle, t: TimePoint)
    returns (outs: map<RequestId, PrefillOutcome>)
    requires TokensAgree(rs, held, before) && AllCounting(rs) && QueueOf(pending, rs, WaitingPrefill)
    requires DistinctLiveIds(rs) && held.Keys == DecodingIds(rs) && handles.Keys == DecodingIds(ss)
    requires forall i | 0 <= i < |rs| && rs[i].Is(WaitingPrefill) :: rs[i].emitted == 0
    requires (forall h | h in before :: h < lo) && OpenedRange(before, after, lo, hi)
    requires PrefilledIn(rs, ss, pending, outcomes, |pending|, t)
    requires StoredIn(rs, pending, outcomes, |pending|, held, handles)
    requires Mints(outcomes, errors, lo) && hi == lo + |outcomes| - Min(|errors|, |outcomes|)
    ensures PrefilledAll(rs, ss, outs, t) && FreshIn(outs, lo) && outs.Keys <= WaitingIds(rs)
    ensures StoredById(held, handles, outs) && PrefillsInOrder(rs, pending, errors, lo, outs)
    ensures TokensAgree(ss, handles, after) && AllCounting(ss)
  {
    PrefilledById(rs, ss, pending, outcomes, t);
    outs := ById(rs, pending, outcomes);
    MintedAreFresh(rs, pending, outcomes, |errors|, lo);
    PrefilledInOrder(rs, pending, errors, lo, outcomes);
    OutcomesAreForWaiting(rs, pending, outcomes);
    StoredInById(rs, ss, pending, outcomes, t, held, handles);
    PrefillKeepsAgree(rs, held, before, ss, handles, after, pending, outcomes, |errors|, lo, hi, t);
  }

  /** `ss` is `rs` after the first j outcomes of a decode batch. */
  ghost predicate DecodedIn(
    rs: seq<RequestData>, ss: seq<RequestData>, pending: seq<nat>, outcomes: seq<DecodeOutcome>, j: nat, t: TimePoint)
  {
    && |ss| == |rs| && |outcomes| == |pending|
    && (forall i | 0 <= i < |pending| ::
          && pending[i] < |rs| && rs[pending[i]].Is(Decoding) && HasRoom(rs[pending[i]])
          && ss[pending[i]] == if i < j then DecodeWith(rs[pending[i]], outcomes[i], t) else rs[pending[i]])
    && (forall k | 0 <= k < |rs| && k !in pending :: ss[k] == rs[k])
  }

  lemma DecodeOneMore(
    rs: seq<RequestData>, ss: seq<RequestData>, pending: seq<nat>, outcomes: seq<DecodeOutcome>, j: nat, t: TimePoint)
    requires Increasing(pending) && DecodedIn(rs, ss, pending, outcomes, j, t) && j < |pending|
    ensures ss[pending[j]] == rs[pending[j]]
    ensures DecodedIn(rs, ss[pending[j] := DecodeWith(rs[pending[j]], outcomes[j], t)], pending, outcomes, j + 1, t)
  {
  }

  lemma DecodeCounts(ss: seq<RequestData>, k: nat, outcome: DecodeOutcome, t: TimePoint)
    requires k < |ss| && ss[k].Is(Decoding) && HasRoom(ss[k])
    ensures var r := DecodeWith(ss[k], outcome, t); var after := ss[k := r];
            && Tally(InState(Completed), after) == Tally(InState(Completed), ss) + One(r.Is(Completed))
            && Tally(InState(Failed), after) == Tally(InState(Failed), ss) + One(r.Is(Failed))
  {
    TallyUpdate(InState(Completed), ss, k, DecodeWith(ss[k], outcome, t));
    TallyUpdate(InState(Failed), ss, k, DecodeWith(ss[k], outcome, t));
  }

  lemma DecodedById(
    rs: seq<RequestData>, ss: seq<RequestData>, pending: seq<nat>, outcomes: seq<DecodeOutcome>, t: TimePoint)
    requires QueueOf(pending, rs, Decoding) && DistinctLiveIds(rs) && AllHaveRoom(rs)
    requires DecodedIn(rs, ss, pending, outcomes, |pending|, t)
    ensures AllLiveIn(rs, pending) && DecodedAll(rs, ss, ById(rs, pending, outcomes), t)
  {
    var outs := ById(rs, pending, outcomes);
    forall k | 0 <= k < |rs|
      ensures ss[k] == DecodeOne(rs[k], outs, t)
      ensures rs[k].Is(Decoding) ==> rs[k].id in outs
    {
      if k in pending {
        var a :| 0 <= a < |pending| && pending[a] == k;
        ByIdAt(rs, pending, outcomes, a);
      }
    }
  }

  /** The handles a decode batch is made of. */
  ghost predicate BatchOf(rs: seq<RequestData>, pending: seq<nat>, handles: map<RequestId, Handle>,
                          batch: seq<Handle>) {
    && |batch| == |pending|
    && forall i | 0 <= i < |pending| ::
         pending[i] < |rs| && rs[pending[i]].id in handles && batch[i] == handles[rs[pending[i]].id]
  }

  lemma DecodingHaveHandles(rs: seq<RequestData>, handles: map<RequestId, Handle>, pending: seq<nat>)
    requires QueueOf(pending, rs, Decoding) && handles.Keys == DecodingIds(rs)
    ensures forall i | 0 <= i < |pending| :: pending[i] < |rs| && rs[pending[i]].id in handles
  {
    forall i | 0 <= i < |pending|
      ensures pending[i] < |rs| && rs[pending[i]].id in handles
    {
      assert rs[pending[i]].id in DecodingIds(rs);
    }
  }

  lemma BatchIsLiveAndDistinct(
    rs: seq<RequestData>, pending: seq<nat>, handles: map<RequestId, Handle>, batch: seq<Handle>, table: Table)
    requires BatchOf(rs, pending, handles, batch) && QueueOf(pending, rs, Decoding)
    requires DistinctLiveIds(rs) && Injective(handles) && Coupled(handles, table, {})
    ensures AllDistinct(batch) && forall i | 0 <= i < |batch| :: batch[i] in table
  {
    forall i | 0 <= i < |batch|
      ensures batch[i] in table
    {
      assert batch[i] in handles.Values;
    }
    forall i, j | 0 <= i < j < |batch|
      ensures batch[i] != batch[j]
    {
      assert rs[pending[i]].id != rs[pending[j]].id;
    }
  }

  lemma NextWord(n: nat)
    ensures ((n % WORD) + 1) % WORD == (n + 1) % WORD
  {
  }

  /** What the batch gave one request: a token one above its count, or nothing. */
  lemma DecodeAgreesAt(
    rs: seq<RequestData>, held: map<RequestId, Handle>, table: Table, errors: seq<BackendError>,
    pending: seq<nat>, batch: seq<Handle>, outcomes: seq<DecodeOutcome>, a: nat)
    requires TokensAgree(rs, held, table) && BatchOf(rs, pending, held, batch) && a < |pending|
    requires rs[pending[a]].Is(Decoding) && AllDistinct(batch) && Decodable(table, errors, batch)
    requires outcomes == DecodeAll(table, errors, batch).outcomes
    ensures var n := rs[pending[a]].emitted;
            outcomes[a].Decoded? ==>
              && outcomes[a].token == (n + 1) % WORD
              && batch[a] in DecodeAll(table, errors, batch).table
              && DecodeAll(table, errors, batch).table[batch[a]].tokensEmitted == (n + 1) % WORD
  {
    DecodeAllAt(table, errors, batch, a);
    NextWord(rs[pending[a]].emitted);
  }

  lemma CountingAppend(output: seq<nat>, token: nat)
    requires Counting(output) && token == (|output| + 1) % WORD
    ensures Counting(output + [token])
  {
  }

  lemma DecodeKeepsCounting(r: RequestData, outcome: DecodeOutcome, t: TimePoint)
    requires r.Is(Decoding) && HasRoom(r) && OutputOk(r) && Counting(r.output)
    requires outcome.Decoded? ==> outcome.token == (r.emitted + 1) % WORD
    ensures Counting(DecodeWith(r, outcome, t).output)
  {
    if outcome.Decoded? {
      CountingAppend(r.output, outcome.token);
    }
  }

  /** A request that stays decoding got exactly one more token than it had, and so did its sequence. */
  lemma StillDecodingAgrees(
    rs: seq<RequestData>, held: map<RequestId, Handle>, pending: seq<nat>, batch: seq<Handle>,
    outcomes: seq<DecodeOutcome>,
    t: TimePoint, ss: seq<RequestData>, handles: map<RequestId, Handle>, decoded: Table, after: Table, a: nat)
    requires BatchOf(rs, pending, held, batch) && a < |pending| && DecodedIn(rs, ss, pending, outcomes, |pending|, t)
    requires outcomes[a].Decoded? ==>
               batch[a] in decoded && decoded[batch[a]].tokensEmitted == (rs[pending[a]].emitted + 1) % WORD
    requires Within(handles, held) && Within(after, decoded) && handles.Keys == DecodingIds(ss)
             && Coupled(handles, after, {})
    requires ss[pending[a]].Is(Decoding)
    ensures var s := ss[pending[a]];
            s.id in handles && handles[s.id] in after && after[handles[s.id]].tokensEmitted == s.emitted % WORD
  {
    var s := ss[pending[a]];
    assert s == DecodeWith(rs[pending[a]], outcomes[a], t);
    assert s.id in DecodingIds(ss);
    assert handles[s.id] in handles.Values;
    assert handles[s.id] == batch[a] && s.emitted == rs[pending[a]].emitted + 1;
  }

  lemma DecodeKeepsAgree(
    rs: seq<RequestData>, held: map<RequestId, Handle>, table: Table, errors: seq<BackendError>,
    pending: seq<nat>, batch: seq<Handle>, outcomes: seq<DecodeOutcome>, t: TimePoint,
    ss: seq<RequestData>, handles: map<RequestId, Handle>, decoded: Table, after: Table)
    requires TokensAgree(rs, held, table) && QueueOf(pending, rs, Decoding)
    requires BatchOf(rs, pending, held, batch) && AllDistinct(batch) && Decodable(table, errors, batch)
    requires outcomes == DecodeAll(table, errors, batch).outcomes && decoded == DecodeAll(table, errors, batch).table
    requires DecodedIn(rs, ss, pending, outcomes, |pending|, t)
    requires Within(handles, held) && Within(after, decoded) && handles.Keys == DecodingIds(ss)
             && Coupled(handles, after, {})
    ensures TokensAgree(ss, handles, after)
  {
    forall i | 0 <= i < |ss| && ss[i].Is(Decoding)
      ensures && ss[i].id in handles && handles[ss[i].id] in after
              && after[handles[ss[i].id]].tokensEmitted == ss[i].emitted % WORD
    {
      assert i in pending;
      var a :| 0 <= a < |pending| && pending[a] == i;
      DecodeAgreesAt(rs, held, table, errors, pending, batch, outcomes, a);
      StillDecodingAgrees(rs, held, pending, batch, outcomes, t, ss, handles, decoded, after, a);
    }
  }

  /** The sequence of a request that stays decoding has not reached its end mark. */
  lemma StillDecodingBeforeEnd(
    rs: seq<RequestData>, held: map<RequestId, Handle>, table: Table, errors: seq<BackendError>,
    pending: seq<nat>, batch: seq<Handle>, outcomes: seq<DecodeOutcome>, t: TimePoint, ss: seq<RequestData>, a: nat)
    requires BatchOf(rs, pending, held, batch) && a < |pending| && AllDistinct(batch) && Decodable(table, errors, batch)
    requires outcomes == DecodeAll(table, errors, batch).outcomes && DecodedIn(rs, ss, pending, outcomes, |pending|, t)
    requires ss[pending[a]].Is(Decoding)
    ensures batch[a] in DecodeAll(table, errors, batch).table && ss[pending[a]].id == rs[pending[a]].id
    ensures BeforeEnd(DecodeAll(table, errors, batch).table[batch[a]])
  {
    DecodeAllAt(table, errors, batch, a);
    assert ss[pending[a]] == DecodeWith(rs[pending[a]], outcomes[a], t);
  }

  lemma DecodeLeavesNoneOverrun(
    rs: seq<RequestData>, held: map<RequestId, Handle>, table: Table, errors: seq<BackendError>,
    pending: seq<nat>, batch: seq<Handle>, outcomes: seq<DecodeOutcome>, t: TimePoint,
    ss: seq<RequestData>, handles: map<RequestId, Handle>, decoded: Table, after: Table)
    requires QueueOf(pending, rs, Decoding) && BatchOf(rs, pending, held, batch) && AllDistinct(batch)
    requires Decodable(table, errors, batch)
    requires outcomes == DecodeAll(table, errors, batch).outcomes && decoded == DecodeAll(table, errors, batch).table
    requires DecodedIn(rs, ss, pending, outcomes, |pending|, t) && Within(handles, held) && Within(after, decoded)
    ensures NoneOverrun(ss, handles, after)
  {
    forall i | 0 <= i < |ss| && ss[i].Is(Decoding) && ss[i].id in handles && handles[ss[i].id] in after
      ensures BeforeEnd(after[handles[ss[i].id]])
    {
      assert i in pending;
      var a :| 0 <= a < |pending| && pending[a] == i;
      StillDecodingBeforeEnd(rs, held, table, errors, pending, batch, outcomes, t, ss, a);
      assert handles[ss[i].id] == batch[a];
    }
  }

  /** The i-th request of the batch meets the i-th injected error, or else is answered by its own sequence. */
  ghost predicate DecodesAt(
    rs: seq<RequestData>, pending: seq<nat>, held: map<RequestId, Handle>, table: Table, errors: seq<BackendError>,
    outs: map<RequestId, DecodeOutcome>, i: nat)
    requires i < |pending|
  {
    && pending[i] < |rs| && rs[pending[i]].id in outs && rs[pending[i]].id in held
    && var out, h := outs[rs[pending[i]].id], held[rs[pending[i]].id];
    if i < |errors| then out == DecodeError(errors[i])
    else
      && h in table && out.Decoded? && out.token == (table[h].tokensEmitted + 1) % WORD
      && (out.finished <==> table[h].finishedAfter.Some? && out.token >= table[h].finishedAfter.value)
  }

  ghost predicate DecodesInOrder(
    rs: seq<RequestData>, pending: seq<nat>, held: map<RequestId, Handle>, table: Table, errors: seq<BackendError>,
    outs: map<RequestId, DecodeOutcome>)
  {
    forall i {:trigger DecodesAt(rs, pending, held, table, errors, outs, i)} | 0 <= i < |pending| ::
      DecodesAt(rs, pending, held, table, errors, outs, i)
  }

  lemma DecodedAtById(
    rs: seq<RequestData>, pending: seq<nat>, held: map<RequestId, Handle>, table: Table, errors: seq<BackendError>,
    batch: seq<Handle>, outcomes: seq<DecodeOutcome>, i: nat)
    requires Increasing(pending) && DistinctLiveIds(rs) && AllLiveIn(rs, pending) && i < |pending|
    requires BatchOf(rs, pending, held, batch) && AllDistinct(batch) && Decodable(table, errors, batch)
    requires outcomes == DecodeAll(table, errors, batch).outcomes
    ensures DecodesAt(rs, pending, held, table, errors, ById(rs, pending, outcomes), i)
  {
    ByIdAt(rs, pending, outcomes, i);
    DecodeAllAt(table, errors, batch, i);
    assert batch[i] == held[rs[pending[i]].id];
  }

  lemma DecodedInOrder(
    rs: seq<RequestData>, pending: seq<nat>, held: map<RequestId, Handle>, table: Table, errors: seq<BackendError>,
    batch: seq<Handle>, outcomes: seq<DecodeOutcome>)
    requires Increasing(pending) && DistinctLiveIds(rs) && AllLiveIn(rs, pending)
    requires BatchOf(rs, pending, held, batch) && AllDistinct(batch) && Decodable(table, errors, batch)
    requires outcomes == DecodeAll(table, errors, batch).outcomes
    ensures DecodesInOrder(rs, pending, held, table, errors, ById(rs, pending, outcomes))
  {
    forall i | 0 <= i < |pending|
      ensures DecodesAt(rs, pending, held, table, errors, ById(rs, pending, outcomes), i)
    {
      DecodedAtById(rs, pending, held, table, errors, batch, outcomes, i);
    }
  }

  lemma DecodedCounts(
    rs: seq<RequestData>, held: map<RequestId, Handle>, table: Table, errors: seq<BackendError>,
    pending: seq<nat>, batch: seq<Handle>, outcomes: seq<DecodeOutcome>, t: TimePoint, a: nat)
    requires TokensAgree(rs, held, table) && BatchOf(rs, pending, held, batch) && a < |pending|
    requires AllDistinct(batch) && Decodable(table, errors, batch)
    requires outcomes == DecodeAll(table, errors, batch).outcomes
    requires var r := rs[pending[a]]; r.Is(Decoding) && HasRoom(r) && OutputOk(r) && Counting(r.output)
    ensures Counting(DecodeWith(rs[pending[a]], outcomes[a], t).output)
  {
    DecodeAgreesAt(rs, held, table, errors, pending, batch, outcomes, a);
    DecodeKeepsCounting(rs[pending[a]], outcomes[a], t);
  }

  lemma DecodeKeepsAllCounting(
    rs: seq<RequestData>, held: map<RequestId, Handle>, table: Table, errors: seq<BackendError>,
    pending: seq<nat>, batch: seq<Handle>, outcomes: seq<DecodeOutcome>, t: TimePoint, ss: seq<RequestData>)
    requires TokensAgree(rs, held, table) && AllCounting(rs)
    requires BatchOf(rs, pending, held, batch) && AllDistinct(batch) && Decodable(table, errors, batch)
    requires outcomes == DecodeAll(table, errors, batch).outcomes
    requires DecodedIn(rs, ss, pending, outcomes, |pending|, t) && forall i | 0 <= i < |rs| :: OutputOk(rs[i])
    ensures AllCounting(ss)
  {
    forall i | 0 <= i < |ss|
      ensures Counting(ss[i].output)
    {
      assert Counting(rs[i].output);
      if i in pending {
        var a :| 0 <= a < |pending| && pending[a] == i;
        DecodedCounts(rs, held, table, errors, pending, batch, outcomes, t, a);
      }
    }
  }

  /** Everything the decode loop has established, in terms of the outcome each request got. */
  lemma DecodeFacts(
    rs: seq<RequestData>, held: map<RequestId, Handle>, table: Table, errors: seq<BackendError>,
    pending: seq<nat>, batch: seq<Handle>, outcomes: seq<DecodeOutcome>, t: TimePoint,
    ss: seq<RequestData>, handles: map<RequestId, Handle>, decoded: Table, after: Table)
    returns (outs: map<RequestId, DecodeOutcome>)
    requires TokensAgree(rs, held, table) && AllCounting(rs) && QueueOf(pending, rs, Decoding)
    requires DistinctLiveIds(rs) && AllHaveRoom(rs) && forall i | 0 <= i < |rs| :: OutputOk(rs[i])
    requires BatchOf(rs, pending, held, batch) && AllDistinct(batch) && Decodable(table, errors, batch)
    requires outcomes == DecodeAll(table, errors, batch).outcomes && decoded == DecodeAll(table, errors, batch).table
    requires DecodedIn(rs, ss, pending, outcomes, |pending|, t)
    requires Within(handles, held) && Within(after, decoded) && handles.Keys == DecodingIds(ss)
    requires Coupled(handles, after, {})
    ensures DecodedAll(rs, ss, outs, t) && DecodesInOrder(rs, pending, held, table, errors, outs)
    ensures TokensAgree(ss, handles, after) && AllCounting(ss) && NoneOverrun(ss, handles, after)
  {
    DecodedById(rs, ss, pending, outcomes, t);
    outs := ById(rs, pending, outcomes);
    DecodedInOrder(rs, pending, held, table, errors, batch, outcomes);
    DecodeKeepsAgree(rs, held, table, errors, pending, batch, outcomes, t, ss, handles, decoded, after);
    DecodeKeepsAllCounting(rs, held, table, errors, pending, batch, outcomes, t, ss);
    DecodeLeavesNoneOverrun(rs, held, table, errors, pending, batch, outcomes, t, ss, handles, decoded, after);
  }

  lemma ClockKeepsLaid(c: Core, w: seq<nat>, d: seq<nat>, table: Table, extra: set<Handle>, later: TimePoint)
    requires Laid(c, w, d, table, extra) && c.now <= later
    ensures Laid(c.(now := later), w, d, table, extra)
  {
    ClockKeepsInv(c, later);
  }

  lemma PrefillCallKeepsLaid(
    c: Core, w: seq<nat>, d: seq<nat>, table: Table, after: Table, outcomes: seq<PrefillOutcome>,
    errors: seq<BackendError>, lo: Handle, hi: Handle, later: TimePoint)
    requires Laid(c, w, d, table, {}) && c.now <= later && (forall h | h in table :: h < lo)
    requires OpenedRange(table, after, lo, hi) && Mints(outcomes, errors, lo)
    requires hi == lo + |outcomes| - Min(|errors|, |outcomes|)
    ensures Laid(c.(now := later), w, d, after, Unclaimed(outcomes, 0)) && DistinctMinted(outcomes)
  {
    ClockKeepsLaid(c, w, d, table, {}, later);
    MintedAreCoupled(c.handles, table, after, outcomes, |errors|, lo, hi);
  }

  lemma DecodeCallKeepsLaid(
    c: Core, w: seq<nat>, d: seq<nat>, table: Table, errors: seq<BackendError>, batch: seq<Handle>, later: TimePoint)
    requires Laid(c, w, d, table, {}) && Decodable(table, errors, batch) && c.now <= later
    ensures Laid(c.(now := later), w, d, DecodeAll(table, errors, batch).table, {})
  {
    ClockKeepsLaid(c, w, d, table, {}, later);
  }

  // ----- the three phases together -----

  ghost predicate ExpiredAll(a: seq<RequestData>, b: seq<RequestData>, t: TimePoint) {
    |b| == |a| && forall k | 0 <= k < |a| :: b[k] == ExpireOne(a[k], t)
  }

  ghost predicate PrefilledAll(b: seq<RequestData>, c: seq<RequestData>, outs: map<RequestId, PrefillOutcome>,
                               t: TimePoint) {
    && |c| == |b|
    && forall k | 0 <= k < |b| :: c[k] == PrefillOne(b[k], outs, t) && (b[k].Is(WaitingPrefill) ==> b[k].id in outs)
  }

  ghost predicate DecodedAll(c: seq<RequestData>, d: seq<RequestData>, outs: map<RequestId, DecodeOutcome>,
                             t: TimePoint) {
    && |d| == |c|
    && forall k | 0 <= k < |c| ::
         && HasRoom(c[k]) && d[k] == DecodeOne(c[k], outs, t)
         && (c[k].Is(Decoding) ==> c[k].id in outs)
  }

  /** The requests before, between and after the phases of one tick. */
  ghost predicate Phases(a: seq<RequestData>, b: seq<RequestData>, c: seq<RequestData>, d: seq<RequestData>, env: Env) {
    && AllPlaced(a)
    && ExpiredAll(a, b, env.t0)
    && PrefilledAll(b, c, env.prefill, env.t1)
    && DecodedAll(c, d, env.decode, env.t2)
  }

  lemma PhasesServe(a: seq<RequestData>, b: seq<RequestData>, c: seq<RequestData>, d: seq<RequestData>, env: Env)
    requires Phases(a, b, c, d, env)
    ensures AllServed(a, d, env)
  {
    forall k | 0 <= k < |a|
      ensures d[k] == Serve(a[k], env)
    {
      assert b[k] == ExpireOne(a[k], env.t0);
    }
  }

  /** What the loops count, in terms of the fates dealt to one request. */
  lemma PhaseWeights(a: RequestData, env: Env)
    requires Placed(a)
    ensures HasRoom(PrefillOne(ExpireOne(a, env.t0), env.prefill, env.t1))
    ensures var b := ExpireOne(a, env.t0);
            var c := PrefillOne(b, env.prefill, env.t1);
            var d := DecodeOne(c, env.decode, env.t2);
            && One(b.Is(Failed)) - One(a.Is(Failed)) == Weight(HasFate(Expired, env), a)
            && One(b.Is(WaitingPrefill)) == Weight(Prefills(env), a)
            && Weight(WaitingPrompt, b) == Weight(Prompt(env), a)
            && One(c.Is(Decoding)) - One(b.Is(Decoding)) == Weight(Promotes(env), a)
            && One(c.Is(Failed)) - One(b.Is(Failed)) == Weight(HasFate(PrefillFailed, env), a)
            && One(c.Is(Decoding)) == Weight(Decodes(env), a)
            && One(d.Is(Completed)) - One(c.Is(Completed)) == Weight(HasFate(Finished, env), a)
            && One(d.Is(Failed)) - One(c.Is(Failed)) == Weight(HasFate(DecodeFailed, env), a)
  {
  }

  lemma PhaseTallies(a: seq<RequestData>, b: seq<RequestData>, c: seq<RequestData>, d: seq<RequestData>, env: Env)
    requires Phases(a, b, c, d, env)
    ensures var p := ReportOf(a, env);
            && Tally(InState(Failed), b) - Tally(InState(Failed), a) == p.expired
            && Tally(InState(WaitingPrefill), b) == p.prefillAttempted
            && Tally(WaitingPrompt, b) == p.prefillTokens
            && Tally(InState(Decoding), c) - Tally(InState(Decoding), b) == p.prefillSucceeded
            && Tally(InState(Failed), c) - Tally(InState(Failed), b) == p.prefillFailed
            && Tally(InState(Decoding), c) == p.decodeAttempted
            && Tally(InState(Completed), d) - Tally(InState(Completed), c) == p.decodeCompleted
            && Tally(InState(Failed), d) - Tally(InState(Failed), c) == p.decodeFailed
  {
    forall k | 0 <= k < |a|
      ensures Weight(InState(Failed), b[k]) - Weight(InState(Failed), a[k]) == Weight(HasFate(Expired, env), a[k])
      ensures Weight(InState(WaitingPrefill), b[k]) == Weight(Prefills(env), a[k])
      ensures Weight(WaitingPrompt, b[k]) == Weight(Prompt(env), a[k])
      ensures Weight(InState(Decoding), c[k]) - Weight(InState(Decoding), b[k]) == Weight(Promotes(env), a[k])
      ensures Weight(InState(Failed), c[k]) - Weight(InState(Failed), b[k]) == Weight(HasFate(PrefillFailed, env), a[k])
      ensures Weight(InState(Decoding), c[k]) == Weight(Decodes(env), a[k])
      ensures Weight(InState(Completed), d[k]) - Weight(InState(Completed), c[k])
              == Weight(HasFate(Finished, env), a[k])
      ensures Weight(InState(Failed), d[k]) - Weight(InState(Failed), c[k]) == Weight(HasFate(DecodeFailed, env), a[k])
    {
      PhaseWeights(a[k], env);
    }
    TallyDifference(InState(Failed), b, InState(Failed), a, HasFate(Expired, env), a);
    TallyEqual(InState(WaitingPrefill), b, Prefills(env), a);
    TallyEqual(WaitingPrompt, b, Prompt(env), a);
    TallyDifference(InState(Decoding), c, InState(Decoding), b, Promotes(env), a);
    TallyDifference(InState(Failed), c, InState(Failed), b, HasFate(PrefillFailed, env), a);
    TallyEqual(InState(Decoding), c, Decodes(env), a);
    TallyDifference(InState(Completed), d, InState(Completed), c, HasFate(Finished, env), a);
    TallyDifference(InState(Failed), d, InState(Failed), c, HasFate(DecodeFailed, env), a);
  }

  /** A request in the prefill batch had no handle when the tick began. */
  lemma PrefilledIsUnhandled(core: Core, b: seq<RequestData>, env: Env, id: RequestId)
    requires DistinctLiveIds(core.requests) && core.handles.Keys == DecodingIds(core.requests)
    requires ExpiredAll(core.requests, b, env.t0) && id in WaitingIds(b)
    ensures id !in core.handles
  {
    var k :| 0 <= k < |b| && b[k].Is(WaitingPrefill) && b[k].id == id;
    assert core.requests[k] == b[k];
    WaitingIsNotDecoding(core.requests, k);
  }

  /** The handle map after the phases is the one the specification gives. */
  lemma PhaseHandles(
    core: Core, b: seq<RequestData>, d: seq<RequestData>, env: Env,
    h1: map<RequestId, Handle>, h2: map<RequestId, Handle>, h3: map<RequestId, Handle>)
    requires DistinctLiveIds(core.requests) && core.handles.Keys == DecodingIds(core.requests)
    requires ExpiredAll(core.requests, b, env.t0)
    requires env.prefill.Keys <= WaitingIds(b)
    requires Within(h1, core.handles) && StoredById(h1, h2, env.prefill) && Within(h3, h2) && h3.Keys == DecodingIds(d)
    ensures h3 == map id | id in DecodingIds(d) :: HandleFor(core, env, id)
  {
    forall id | id in h3
      ensures h3[id] == HandleFor(core, env, id)
    {
      if id !in h1 {
        PrefilledIsUnhandled(core, b, env, id);
      }
    }
  }

  lemma PhaseContract(core: Core, b: seq<RequestData>, c: seq<RequestData>, d: seq<RequestData>, env: Env, lo: Handle)
    requires Phases(core.requests, b, c, d, env) && core.now <= env.t0 <= env.t1 <= env.t2
    requires FreshIn(env.prefill, lo) && forall h | h in core.handles.Values :: h < lo
    ensures EnvOk(core, env)
  {
    var a := core.requests;
    forall i | 0 <= i < |a|
      ensures EntersPrefill(a[i], env) ==> a[i].id in env.prefill
      ensures EntersDecode(a[i], env) ==> a[i].id in env.decode
    {
      PhaseEntry(a[i], env);
      assert b[i] == ExpireOne(a[i], env.t0);
      assert c[i] == PrefillOne(b[i], env.prefill, env.t1);
    }
  }

  lemma PhaseEntry(a: RequestData, env: Env)
    requires Placed(a)
    ensures var b := ExpireOne(a, env.t0); var c := PrefillOne(b, env.prefill, env.t1);
            && (EntersPrefill(a, env) <==> b.Is(WaitingPrefill)) && (EntersDecode(a, env) <==> c.Is(Decoding))
            && b.id == a.id && c.id == a.id
  {
  }

  /** What the loops of the three phases counted. */
  ghost predicate Counted(a: seq<RequestData>, b: seq<RequestData>, c: seq<RequestData>, d: seq<RequestData>,
                          r: TickReport) {
    && Tally(InState(Failed), b) == Tally(InState(Failed), a) + r.expired
    && Tally(InState(WaitingPrefill), b) == r.prefillAttempted
    && Tally(WaitingPrompt, b) == r.prefillTokens
    && Tally(InState(Decoding), c) == Tally(InState(Decoding), b) + r.prefillSucceeded
    && Tally(InState(Failed), c) == Tally(InState(Failed), b) + r.prefillFailed
    && Tally(InState(Decoding), c) == r.decodeAttempted == r.decodeTokens
    && Tally(InState(Completed), d) == Tally(InState(Completed), c) + r.decodeCompleted
    && Tally(InState(Failed), d) == Tally(InState(Failed), c) + r.decodeFailed
  }

  lemma ReportMatches(
    a: seq<RequestData>, b: seq<RequestData>, c: seq<RequestData>, d: seq<RequestData>, env: Env, r: TickReport)
    requires Phases(a, b, c, d, env) && Counted(a, b, c, d, r) && r.timestamp == env.t2
    ensures r == ReportOf(a, env)
  {
    PhaseTallies(a, b, c, d, env);
  }

  lemma CostIsNatural(perToken: nat, tokens: nat)
    ensures perToken * tokens >= 0
  {
  }

  /** The phases, put together, are the specified tick, and what they counted is its report. */
  lemma TickRefines(
    core: Core, b: seq<RequestData>, c: seq<RequestData>, d: seq<RequestData>, env: Env, lo: Handle,
    h1: map<RequestId, Handle>, h2: map<RequestId, Handle>, h3: map<RequestId, Handle>)
    requires Inv(core) && Phases(core.requests, b, c, d, env) && core.now <= env.t0 <= env.t1 <= env.t2
    requires FreshIn(env.prefill, lo) && env.prefill.Keys <= WaitingIds(b)
    requires forall h | h in core.handles.Values :: h < lo
    requires Within(h1, core.handles) && StoredById(h1, h2, env.prefill) && Within(h3, h2) && h3.Keys == DecodingIds(d)
    ensures EnvOk(core, env) && Core(d, h3, env.t2) == Tick(core, env)
  {
    PhasesServe(core.requests, b, c, d, env);
    PhaseHandles(core, b, d, env, h1, h2, h3);
    PhaseContract(core, b, c, d, env, lo);
    assert d == Tick(core, env).requests;
  }

  // ----- cancel -----

  ghost predicate NoneLive(rs: seq<RequestData>, id: RequestId) {
    forall i | 0 <= i < |rs| && rs[i].Live() :: rs[i].id != id
  }

  lemma CancelHit(c: Core, id: RequestId, k: nat)
    requires Inv(c) && k < |c.requests| && c.requests[k].Live() && c.requests[k].id == id
    ensures Core(c.requests[k := c.requests[k].Go(Cancelled, c.now)], c.handles - {id}, c.now)
            == Scheduling.Cancel(c, id, c.now)
    ensures NoneLive(Scheduling.Cancel(c, id, c.now).requests, id)
  {
    var d := Scheduling.Cancel(c, id, c.now);
    forall i | 0 <= i < |c.requests|
      ensures d.requests[i] == if i == k then c.requests[k].Go(Cancelled, c.now) else c.requests[i]
    {
      assert i != k && c.requests[i].Live() ==> c.requests[i].id != id;
    }
    assert d.requests == c.requests[k := c.requests[k].Go(Cancelled, c.now)];
  }

  lemma CancelMiss(c: Core, id: RequestId)
    requires Inv(c) && NoneLive(c.requests, id)
    ensures Scheduling.Cancel(c, id, c.now) == c
  {
    assert Scheduling.Cancel(c, id, c.now).requests == c.requests;
    assert id !in DecodingIds(c.requests);
    assert c.handles - {id} == c.handles;
  }

  lemma CancelOnlyRetires(c: Core, id: RequestId)
    ensures OnlyRetired(c.requests, Scheduling.Cancel(c, id, c.now).requests)
  {
  }

  lemma SearchedBoth(rs: seq<RequestData>, w: seq<nat>, d: seq<nat>, id: RequestId)
    requires Schedulable(rs) && QueueOf(w, rs, WaitingPrefill) && QueueOf(d, rs, Decoding)
    requires forall j | 0 <= j < |w| :: rs[w[j]].id != id
    requires forall j | 0 <= j < |d| :: rs[d[j]].id != id
    ensures NoneLive(rs, id)
  {
    forall i | 0 <= i < |rs| && rs[i].Live()
      ensures rs[i].id != id
    {
      assert i in w || i in d;
    }
  }
}
