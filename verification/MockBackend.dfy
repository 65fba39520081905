/** The deterministic backend used by tests and simulation (src/backend/mock_backend.cpp). */
module Mock {
  import opened Clocks
  import opened Lifecycle
  import opened Backend

  /** Token counters are 32 bits wide. */
  const WORD: nat := 0x1_0000_0000

  datatype SequenceState = SequenceState(tokensEmitted: nat, finishedAfter: Option<nat>)

  type Table = map<Handle, SequenceState>

  function Bump(st: SequenceState): SequenceState {
    st.(tokensEmitted := (st.tokensEmitted + 1) % WORD)
  }

  /** What decode answers for a sequence once its counter has been bumped. */
  function TokenOf(st: SequenceState): DecodeOutcome {
    Decoded(st.tokensEmitted, st.finishedAfter.Some? && st.tokensEmitted >= st.finishedAfter.value)
  }

  /** `after` is `before` with a blank sequence opened for every handle from `lo` up to `hi`. */
  ghost predicate OpenedRange(before: Table, after: Table, lo: Handle, hi: Handle) {
    && (forall h :: h in after <==> h in before || lo <= h < hi)
    && (forall h | h in after :: after[h] == if lo <= h < hi then SequenceState(0, None) else before[h])
  }

  /** A decode call in progress: the table, the injected errors left, and the outcomes so far. */
  datatype DecodeCall = DecodeCall(table: Table, errors: seq<BackendError>, outcomes: seq<DecodeOutcome>)

  function DecodeNext(d: DecodeCall, h: Handle): DecodeCall
    requires d.errors == [] ==> h in d.table
  {
    if d.errors != [] then DecodeCall(d.table, d.errors[1..], d.outcomes + [DecodeError(d.errors[0])])
    else
      var st := Bump(d.table[h]);
      DecodeCall(d.table[h := st], [], d.outcomes + [TokenOf(st)])
  }

  ghost predicate Decodable(table: Table, errors: seq<BackendError>, batch: seq<Handle>) {
    forall i | |errors| <= i < |batch| :: batch[i] in table
  }

  function DecodeAll(table: Table, errors: seq<BackendError>, batch: seq<Handle>): (d: DecodeCall)
    requires Decodable(table, errors, batch)
    ensures d.table.Keys == table.Keys && |d.outcomes| == |batch|
    ensures d.errors == if |errors| <= |batch| then [] else errors[|batch|..]
  {
    if batch == [] then DecodeCall(table, errors, [])
    else
      var d := DecodeAll(table, errors, batch[..|batch| - 1]);
      assert |errors| >= |batch| ==> d.errors[1..] == errors[|batch|..];
      DecodeNext(d, batch[|batch| - 1])
  }

  lemma DecodeAllNext(table: Table, errors: seq<BackendError>, batch: seq<Handle>, i: nat)
    requires Decodable(table, errors, batch) && i < |batch|
    ensures var d := DecodeAll(table, errors, batch[..i]);
            && (d.errors == [] ==> batch[i] in d.table)
            && DecodeAll(table, errors, batch[..i + 1]) == DecodeNext(d, batch[i])
  {
    assert batch[..i + 1][..i] == batch[..i];
  }

  ghost predicate AllDistinct(hs: seq<Handle>) {
    forall i, j | 0 <= i < j < |hs| :: hs[i] != hs[j]
  }

  /**
   * What decoding does to the i-th sequence of a batch: the i-th injected error leaves it alone; otherwise
   * its counter goes up by one and is the token, and it is finished exactly if it has an end mark that the
   * counter has reached.
   */
  ghost predicate DecodedAt(table: Table, errors: seq<BackendError>, batch: seq<Handle>, i: nat, after: Table,
                            out: DecodeOutcome)
    requires i < |batch|
  {
    var h := batch[i];
    if i < |errors| then out == DecodeError(errors[i]) && (h in table ==> h in after && after[h] == table[h])
    else
      && h in table && h in after && out.Decoded?
      && out.token == after[h].tokensEmitted == (table[h].tokensEmitted + 1) % WORD
      && after[h].finishedAfter == table[h].finishedAfter
      && (out.finished <==> table[h].finishedAfter.Some? && out.token >= table[h].finishedAfter.value)
  }

  lemma DecodeLast(table: Table, errors: seq<BackendError>, batch: seq<Handle>)
    requires Decodable(table, errors, batch) && AllDistinct(batch) && batch != []
    ensures var d, n := DecodeAll(table, errors, batch), |batch| - 1;
            DecodedAt(table, errors, batch, n, d.table, d.outcomes[n])
  {
    var n := |batch| - 1;
    if batch[n] in table {
      DecodeAllElsewhere(table, errors, batch[..n], batch[n]);
    }
  }

  /** What is decided about an earlier sequence is not changed by the last one of the batch. */
  lemma DecodeEarlier(table: Table, errors: seq<BackendError>, batch: seq<Handle>, i: nat)
    requires Decodable(table, errors, batch) && AllDistinct(batch) && i < |batch| - 1
    ensures var d, e := DecodeAll(table, errors, batch), DecodeAll(table, errors, batch[..|batch| - 1]);
            d.outcomes[i] == e.outcomes[i] && (batch[i] in table ==> d.table[batch[i]] == e.table[batch[i]])
  {
  }

  /**
   * In a batch without repeats, the first sequences meet the injected errors and stay as they were;
   * every other one advances by one token.
   */
  lemma {:induction false} DecodeAllAt(table: Table, errors: seq<BackendError>, batch: seq<Handle>, i: nat)
    requires Decodable(table, errors, batch) && AllDistinct(batch) && i < |batch|
    ensures var d := DecodeAll(table, errors, batch); DecodedAt(table, errors, batch, i, d.table, d.outcomes[i])
    decreases |batch|
  {
    var n := |batch| - 1;
    if i < n {
      assert batch[..n][i] == batch[i];
      DecodeAllAt(table, errors, batch[..n], i);
      DecodeEarlier(table, errors, batch, i);
    } else {
      DecodeLast(table, errors, batch);
    }
  }

  lemma {:induction false} DecodeAllElsewhere(table: Table, errors: seq<BackendError>, batch: seq<Handle>, h: Handle)
    requires Decodable(table, errors, batch) && h !in batch && h in table
    ensures DecodeAll(table, errors, batch).table[h] == table[h]
  {
    if batch != [] {
      DecodeAllElsewhere(table, errors, batch[..|batch| - 1], h);
    }
  }

  function TokenCount(batch: seq<seq<nat>>): nat {
    if batch == [] then 0 else TokenCount(batch[..|batch| - 1]) + |batch[|batch| - 1]|
  }

  function Min(a: nat, b: nat): nat { if a <= b then a else b }

  class MockBackend {
    const clock: FakeClock
    const perTokenPrefillCost: nat
    const perDecodeCost: nat
    var nextSequenceId: nat
    var sequences: Table
    var pendingPrefillErrors: seq<BackendError>
    var pendingDecodeErrors: seq<BackendError>

    // How often each handle has been released.
    ghost var releases: multiset<Handle>

    constructor (clock: FakeClock, perTokenPrefillCost: nat, perDecodeCost: nat)
      ensures Valid() && sequences == map[] && nextSequenceId == 0
      ensures this.clock == clock
      ensures this.perTokenPrefillCost == perTokenPrefillCost && this.perDecodeCost == perDecodeCost
      ensures pendingPrefillErrors == [] && pendingDecodeErrors == []
    {
      this.clock := clock;
      this.perTokenPrefillCost, this.perDecodeCost := perTokenPrefillCost, perDecodeCost;
      nextSequenceId, sequences := 0, map[];
      pendingPrefillErrors, pendingDecodeErrors := [], [];
      releases := multiset{};
    }

    /** Every handle ever minted is either live and never released, or released exactly once. */
    ghost predicate Valid()
      reads this
    {
      && (forall h | h in sequences :: h < nextSequenceId)
      && (forall h: Handle :: releases[h] == if h < nextSequenceId && h !in sequences then 1 else 0)
    }

    /**
     * Injected errors hit the first sequences of the batch; the others get consecutive fresh handles.
     * The clock pays for every prompt token, also those of sequences that fail.
     */
    method Prefill(batch: seq<seq<nat>>) returns (outcomes: seq<PrefillOutcome>)
      requires Valid()
      modifies this`nextSequenceId, this`sequences, this`pendingPrefillErrors, clock
      ensures Valid() && |outcomes| == |batch|
      ensures clock.now == old(clock.now) + perTokenPrefillCost * TokenCount(batch)
      ensures pendingPrefillErrors == old(pendingPrefillErrors)[Min(|old(pendingPrefillErrors)|, |batch|)..]
      ensures forall i | 0 <= i < |batch| ::
                outcomes[i] == if i < |old(pendingPrefillErrors)| then PrefillError(old(pendingPrefillErrors)[i])
                               else Minted(old(nextSequenceId) + i - |old(pendingPrefillErrors)|)
      ensures nextSequenceId == old(nextSequenceId) + |batch| - Min(|old(pendingPrefillErrors)|, |batch|)
      ensures OpenedRange(old(sequences), sequences, old(nextSequenceId), nextSequenceId)
    {
      outcomes := [];
      ghost var errors := pendingPrefillErrors;
      var i := 0;
      while i < |batch|
        invariant 0 <= i <= |batch| && |outcomes| == i
        invariant Valid() && releases == old(releases)
        invariant clock.now == old(clock.now) + perTokenPrefillCost * TokenCount(batch[..i])
        invariant pendingPrefillErrors == errors[Min(|errors|, i)..]
        invariant forall j | 0 <= j < i ::
                    outcomes[j] == if j < |errors| then PrefillError(errors[j])
                                   else Minted(old(nextSequenceId) + j - |errors|)
        invariant nextSequenceId == old(nextSequenceId) + i - Min(|errors|, i)
        invariant OpenedRange(old(sequences), sequences, old(nextSequenceId), nextSequenceId)
      {
        assert batch[..i + 1][..i] == batch[..i];
        assert perTokenPrefillCost * TokenCount(batch[..i + 1])
            == perTokenPrefillCost * TokenCount(batch[..i]) + perTokenPrefillCost * |batch[i]|;
        clock.Advance(perTokenPrefillCost * |batch[i]|);
        if pendingPrefillErrors != [] {
          outcomes := outcomes + [PrefillError(pendingPrefillErrors[0])];
          pendingPrefillErrors := pendingPrefillErrors[1..];
        } else {
          var handle := nextSequenceId;
          nextSequenceId := nextSequenceId + 1;
          sequences := sequences[handle := SequenceState(0, None)];
          outcomes := outcomes + [Minted(handle)];
        }
        i := i + 1;
      }
      assert batch[..|batch|] == batch;
    }

    /**
     * An unknown or released handle aborts, unless an injected error is consumed first; so the
     * caller must only pass live handles from there on.
     */
    method DecodeSequence(h: Handle, ghost before: seq<DecodeOutcome>) returns (outcome: DecodeOutcome)
      requires pendingDecodeErrors == [] ==> h in sequences
      modifies this`sequences, this`pendingDecodeErrors
      ensures DecodeCall(sequences, pendingDecodeErrors, before + [outcome])
           == DecodeNext(DecodeCall(old(sequences), old(pendingDecodeErrors), before), h)
    {
      if pendingDecodeErrors != [] {
        outcome := DecodeError(pendingDecodeErrors[0]);
        pendingDecodeErrors := pendingDecodeErrors[1..];
      } else {
        var state := Bump(sequences[h]);
        sequences := sequences[h := state];
        outcome := TokenOf(state);
      }
    }

    method DecodeNextOf(
      batch: seq<Handle>, i: nat, outcomes: seq<DecodeOutcome>, ghost table: Table, ghost errors: seq<BackendError>)
      returns (outcomes': seq<DecodeOutcome>)
      requires Decodable(table, errors, batch) && i < |batch|
      requires DecodeCall(sequences, pendingDecodeErrors, outcomes) == DecodeAll(table, errors, batch[..i])
      modifies this`sequences, this`pendingDecodeErrors
      ensures DecodeCall(sequences, pendingDecodeErrors, outcomes') == DecodeAll(table, errors, batch[..i + 1])
    {
      DecodeAllNext(table, errors, batch, i);
      var outcome := DecodeSequence(batch[i], outcomes);
      outcomes' := outcomes + [outcome];
    }

    method DecodeEach(batch: seq<Handle>) returns (outcomes: seq<DecodeOutcome>)
      requires Decodable(sequences, pendingDecodeErrors, batch)
      modifies this`sequences, this`pendingDecodeErrors
      ensures DecodeCall(sequences, pendingDecodeErrors, outcomes)
              == DecodeAll(old(sequences), old(pendingDecodeErrors), batch)
    {
      ghost var table, errors := sequences, pendingDecodeErrors;
      outcomes := [];
      var i := 0;
      while i < |batch|
        invariant 0 <= i <= |batch|
        invariant DecodeCall(sequences, pendingDecodeErrors, outcomes) == DecodeAll(table, errors, batch[..i])
      {
        outcomes := DecodeNextOf(batch, i, outcomes, table, errors);
        i := i + 1;
      }
      assert batch[..|batch|] == batch;
    }

    /** Every sequence is asked for one token; an unknown handle aborts unless an injected error comes first. */
    method Decode(batch: seq<Handle>) returns (outcomes: seq<DecodeOutcome>)
      requires Valid()
      requires Decodable(sequences, pendingDecodeErrors, batch)
      modifies this`sequences, this`pendingDecodeErrors, clock
      ensures Valid()
      ensures clock.now == old(clock.now) + perDecodeCost
      ensures DecodeCall(sequences, pendingDecodeErrors, outcomes)
              == DecodeAll(old(sequences), old(pendingDecodeErrors), batch)
    {
      clock.Advance(perDecodeCost);
      outcomes := DecodeEach(batch);
      assert sequences.Keys == old(sequences).Keys;
    }

    /** Releasing an unknown or already released handle aborts. */
    method Release(h: Handle)
      requires Valid() && h in sequences
      modifies this`sequences, this`releases
      ensures Valid() && sequences == old(sequences) - {h}
    {
      sequences := sequences - {h};
      releases := releases + multiset{h};
    }

    method ConfigureEos(h: Handle, afterTokens: nat)
      requires Valid() && h in sequences
      modifies this`sequences
      ensures Valid() && sequences == old(sequences)[h := old(sequences)[h].(finishedAfter := Some(afterTokens))]
    {
      sequences := sequences[h := sequences[h].(finishedAfter := Some(afterTokens))];
    }

    method FailNextPrefill(error: BackendError)
      modifies this`pendingPrefillErrors
      ensures pendingPrefillErrors == old(pendingPrefillErrors) + [error]
    {
      pendingPrefillErrors := pendingPrefillErrors + [error];
    }

    method FailNextDecode(error: BackendError)
      modifies this`pendingDecodeErrors
      ensures pendingDecodeErrors == old(pendingDecodeErrors) + [error]
    {
      pendingDecodeErrors := pendingDecodeErrors + [error];
    }

    /** With no sequence live, every handle ever minted has been released, each exactly once. */
    lemma ReleasedExactlyOnce()
      requires Valid() && sequences == map[]
      ensures forall h: Handle :: releases[h] == if h < nextSequenceId then 1 else 0
    {
    }
  }
}
