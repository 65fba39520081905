/** The scheduler's fields as values: how queues, handles and backend sequences fit the requests. */
module Layout {
  import opened Lifecycle
  import opened Requests
  import opened Backend
  import opened Scheduling
  import opened Queues
  import opened Mock

  // ----- the scheduler's layout, on values -----

  /** The backend's live sequences are those the handle map names, plus handles just minted and not yet stored. */
  ghost predicate Coupled(handles: map<RequestId, Handle>, table: Table, extra: set<Handle>) {
    table.Keys == handles.Values + extra && handles.Values !! extra
  }

  ghost predicate Laid(c: Core, waiting: seq<nat>, decoding: seq<nat>, table: Table, extra: set<Handle>) {
    && Inv(c)
    && QueueOf(waiting, c.requests, WaitingPrefill)
    && QueueOf(decoding, c.requests, Decoding)
    && Coupled(c.handles, table, extra)
  }

  function Released(handles: map<RequestId, Handle>, id: RequestId, table: Table): Table {
    if id in handles then table - {handles[id]} else table
  }

  lemma ReleaseKeepsCoupled(handles: map<RequestId, Handle>, id: RequestId, table: Table, extra: set<Handle>)
    requires Injective(handles) && Coupled(handles, table, extra)
    ensures Coupled(handles - {id}, Released(handles, id, table), extra)
    ensures id in handles ==> handles[id] in table
  {
    if id in handles {
      assert handles[id] in handles.Values;
      forall h | h in handles.Values && h != handles[id]
        ensures h in (handles - {id}).Values
      {
        var a :| a in handles && handles[a] == h;
        assert a in handles - {id};
      }
      forall h | h in (handles - {id}).Values
        ensures h in handles.Values && h != handles[id]
      {
        var a :| a in handles - {id} && handles[a] == h;
      }
    } else {
      assert handles - {id} == handles;
    }
  }

  lemma RetireKeepsLaid(c: Core, w: seq<nat>, d: seq<nat>, table: Table, extra: set<Handle>, k: nat, r: RequestData)
    requires Laid(c, w, d, table, extra) && k < |c.requests| && c.requests[k].Live()
    requires RequestOk(r, c.now) && r.id == c.requests[k].id && r.Terminal()
    ensures Laid(Core(c.requests[k := r], c.handles - {r.id}, c.now), RemoveFirst(w, k), RemoveFirst(d, k),
                 Released(c.handles, r.id, table), extra)
  {
    RetireKeepsInv(c, k, r);
    LeaveQueue(w, c.requests, WaitingPrefill, k, r);
    LeaveQueue(d, c.requests, Decoding, k, r);
    ReleaseKeepsCoupled(c.handles, r.id, table, extra);
  }

  lemma StoreKeepsCoupled(handles: map<RequestId, Handle>, id: RequestId, h: Handle, table: Table, extra: set<Handle>)
    requires Coupled(handles, table, extra) && id !in handles && h in extra
    ensures Coupled(handles[id := h], table, extra - {h})
  {
    var m := handles[id := h];
    assert m[id] == h;
    forall x | x in handles.Values
      ensures x in m.Values
    {
      var a :| a in handles && handles[a] == x;
      assert m[a] == x;
    }
    forall x | x in m.Values
      ensures x == h || x in handles.Values
    {
      var a :| a in m && m[a] == x;
      assert a != id ==> handles[a] == x;
    }
  }

  lemma DecodingComesFirst(rs: seq<RequestData>, d: seq<nat>, k: nat)
    requires Ordered(rs) && QueueOf(d, rs, Decoding) && k < |rs| && rs[k].Is(WaitingPrefill)
    ensures forall i | 0 <= i < |d| :: d[i] < k
  {
    forall i | 0 <= i < |d|
      ensures d[i] < k
    {
      assert rs[d[i]].Is(Decoding);
    }
  }

  lemma PromoteKeepsLaid(c: Core, w: seq<nat>, d: seq<nat>, table: Table, extra: set<Handle>, k: nat, r: RequestData,
                         h: Handle)
    requires Laid(c, w, d, table, extra) && k < |c.requests| && c.requests[k].Is(WaitingPrefill)
             && FirstWaiting(c.requests, k)
    requires RequestOk(r, c.now) && r.id == c.requests[k].id && r.Is(Decoding) && h in extra
    ensures r.id !in c.handles
    ensures Laid(Core(c.requests[k := r], c.handles[r.id := h], c.now), RemoveFirst(w, k), d + [k], table, extra - {h})
  {
    PromoteKeepsInv(c, k, r, h);
    LeaveQueue(w, c.requests, WaitingPrefill, k, r);
    DecodingComesFirst(c.requests, d, k);
    JoinQueue(d, c.requests, Decoding, k, r);
    StoreKeepsCoupled(c.handles, r.id, h, table, extra);
  }

  lemma MintKeepsLaid(c: Core, w: seq<nat>, d: seq<nat>, table: Table, extra: set<Handle>, k: nat, h: Handle)
    requires Laid(c, w, d, table, extra) && k < |c.requests| && c.requests[k].Is(WaitingPrefill)
             && FirstWaiting(c.requests, k)
    requires h in extra
    ensures var r := PrefillWith(c.requests[k], Minted(h), c.now);
            && r.id !in c.handles && r.id == c.requests[k].id
            && Laid(Core(c.requests[k := r], c.handles[r.id := h], c.now), RemoveFirst(w, k), d + [k], table,
                    extra - {h})
  {
    assert RequestOk(c.requests[k], c.now);
    PrefillWithOk(c.requests[k], Minted(h), c.now, c.now);
    PromoteKeepsLaid(c, w, d, table, extra, k, PrefillWith(c.requests[k], Minted(h), c.now), h);
  }

  lemma EmitKeepsLaid(c: Core, w: seq<nat>, d: seq<nat>, table: Table, extra: set<Handle>, k: nat, r: RequestData)
    requires Laid(c, w, d, table, extra) && k < |c.requests| && c.requests[k].Is(Decoding)
    requires RequestOk(r, c.now) && r.id == c.requests[k].id && r.Is(Decoding)
    ensures Laid(c.(requests := c.requests[k := r]), w, d, table, extra)
  {
    EmitKeepsInv(c, k, r);
    KeepQueue(w, c.requests, WaitingPrefill, k, r);
    KeepQueue(d, c.requests, Decoding, k, r);
  }

  lemma RetireLiveKeepsLaid(c: Core, w: seq<nat>, d: seq<nat>, table: Table, extra: set<Handle>, k: nat,
                            terminal: State)
    requires Laid(c, w, d, table, extra) && k < |c.requests| && c.requests[k].Live()
    requires (terminal.Failed? && c.requests[k].Is(Decoding)) || terminal.Cancelled?
    ensures var r := c.requests[k].Go(terminal, c.now);
            && Laid(Core(c.requests[k := r], c.handles - {r.id}, c.now), RemoveFirst(w, k), RemoveFirst(d, k),
                    Released(c.handles, r.id, table), extra)
            && (r.id in c.handles ==> c.handles[r.id] in table)
  {
    assert RequestOk(c.requests[k], c.now);
    GoOk(c.requests[k], terminal, c.now, c.now);
    RetireKeepsLaid(c, w, d, table, extra, k, c.requests[k].Go(terminal, c.now));
    ReleaseKeepsCoupled(c.handles, c.requests[k].id, table, extra);
  }

  lemma FailWaitingKeepsLaid(c: Core, w: seq<nat>, d: seq<nat>, table: Table, extra: set<Handle>, k: nat)
    requires Laid(c, w, d, table, extra) && k < |c.requests| && c.requests[k].Is(WaitingPrefill)
    ensures var r := c.requests[k].Go(Prefilling, c.now).Go(Failed, c.now);
            && r.id !in c.handles
            && Laid(c.(requests := c.requests[k := r]), RemoveFirst(w, k), RemoveFirst(d, k), table, extra)
  {
    var r := c.requests[k].Go(Prefilling, c.now).Go(Failed, c.now);
    assert RequestOk(c.requests[k], c.now);
    FailWaitingOk(c.requests[k], c.now, c.now);
    WaitingIsNotDecoding(c.requests, k);
    assert c.handles - {r.id} == c.handles;
    RetireKeepsLaid(c, w, d, table, extra, k, r);
  }

  lemma SubmitKeepsLaid(c: Core, w: seq<nat>, d: seq<nat>, table: Table, r: RequestData)
    requires Laid(c, w, d, table, {}) && Submittable(c, r, c.now)
    ensures Laid(Scheduling.Submit(c, r, c.now), w + [|c.requests|], d, table, {})
  {
    var admitted := r.Go(Admitted, c.now).Go(WaitingPrefill, c.now);
    SubmitKeepsInv(c, r, c.now);
    GrowQueue(w, c.requests, WaitingPrefill, admitted);
    GrowQueue(d, c.requests, Decoding, admitted);
  }

  lemma UpdateTwice<T>(s: seq<T>, k: nat, x: T, y: T)
    requires k < |s|
    ensures s[k := x][k := y] == s[k := y]
  {
  }

  /** The scheduler after its k-th request became `r` and gave up its handle. */
  function Retired(c: Core, k: nat, r: RequestData): Core
    requires k < |c.requests|
  {
    Core(c.requests[k := r], c.handles - {r.id}, c.now)
  }

  lemma FinishKeepsLaid(c: Core, w: seq<nat>, d: seq<nat>, table: Table, k: nat, token: nat)
    requires Laid(c, w, d, table, {}) && k < |c.requests| && c.requests[k].Is(Decoding)
    ensures var r := Emit(c.requests[k], token, c.now).Go(Completed, c.now);
            && (r.id in c.handles ==> c.handles[r.id] in table)
            && Laid(Retired(c, k, r), RemoveFirst(w, k), RemoveFirst(d, k), Released(c.handles, r.id, table), {})
  {
    assert RequestOk(c.requests[k], c.now);
    DecodeWithOk(c.requests[k], Decoded(token, true), c.now, c.now);
    RetireKeepsLaid(c, w, d, table, {}, k, DecodeWith(c.requests[k], Decoded(token, true), c.now));
    ReleaseKeepsCoupled(c.handles, c.requests[k].id, table, {});
  }

  lemma ContinueKeepsLaid(c: Core, w: seq<nat>, d: seq<nat>, table: Table, k: nat, token: nat)
    requires Laid(c, w, d, table, {}) && k < |c.requests| && c.requests[k].Is(Decoding)
    requires c.requests[k].emitted + 1 < c.requests[k].maxTokens
    ensures Laid(c.(requests := c.requests[k := Emit(c.requests[k], token, c.now)]), w, d, table, {})
  {
    assert RequestOk(c.requests[k], c.now);
    DecodeWithOk(c.requests[k], Decoded(token, false), c.now, c.now);
    EmitKeepsLaid(c, w, d, table, {}, k, Emit(c.requests[k], token, c.now));
  }

  // ----- what the mock's tokens look like -----

  /** The backend has counted as many tokens for each decoding request as the request has emitted. */
  ghost predicate TokensAgree(rs: seq<RequestData>, handles: map<RequestId, Handle>, table: Table) {
    forall i | 0 <= i < |rs| && rs[i].Is(Decoding) ::
      && rs[i].id in handles && handles[rs[i].id] in table
      && table[handles[rs[i].id]].tokensEmitted == rs[i].emitted % WORD
  }

  /** No decoding request has reached the end mark of its sequence. */
  ghost predicate NoneOverrun(rs: seq<RequestData>, handles: map<RequestId, Handle>, table: Table) {
    forall i | 0 <= i < |rs| && rs[i].Is(Decoding) && rs[i].id in handles && handles[rs[i].id] in table ::
      BeforeEnd(table[handles[rs[i].id]])
  }

  predicate BeforeEnd(st: SequenceState) {
    st.finishedAfter.Some? ==> st.tokensEmitted < st.finishedAfter.value
  }

  /** 1, 2, 3, ... in 32-bit arithmetic. */
  ghost predicate Counting(output: seq<nat>) {
    forall j | 0 <= j < |output| :: output[j] == (j + 1) % WORD
  }

  ghost predicate AllCounting(rs: seq<RequestData>) {
    forall i | 0 <= i < |rs| :: Counting(rs[i].output)
  }

  ghost predicate Within<K(!new), V(!new)>(part: map<K, V>, whole: map<K, V>) {
    forall k | k in part :: k in whole && part[k] == whole[k]
  }

  ghost predicate OnlyRetired(rs: seq<RequestData>, ss: seq<RequestData>) {
    && |ss| == |rs|
    && forall i | 0 <= i < |rs| :: ss[i] == rs[i] || (!ss[i].Is(Decoding) && ss[i].output == rs[i].output)
  }

  /** Retiring requests and releasing their sequences leaves the others in agreement. */
  lemma RetiringKeepsAgree(
    rs: seq<RequestData>, handles: map<RequestId, Handle>, table: Table,
    ss: seq<RequestData>, handles': map<RequestId, Handle>, table': Table)
    requires TokensAgree(rs, handles, table) && AllCounting(rs) && OnlyRetired(rs, ss)
    requires Within(handles', handles) && Within(table', table)
    requires handles'.Keys == DecodingIds(ss) && Coupled(handles', table', {})
    ensures TokensAgree(ss, handles', table') && AllCounting(ss)
  {
    forall i | 0 <= i < |ss| && ss[i].Is(Decoding)
      ensures && ss[i].id in handles' && handles'[ss[i].id] in table'
              && table'[handles'[ss[i].id]].tokensEmitted == ss[i].emitted % WORD
    {
      assert ss[i].id in DecodingIds(ss);
      assert handles'[ss[i].id] in handles'.Values;
    }
  }

  /** The output is literally 1, 2, ..., n exactly as long as the 32-bit counter has not wrapped. */
  lemma CountingIsExact(output: seq<nat>)
    requires Counting(output)
    ensures (forall j | 0 <= j < |output| :: output[j] == j + 1) <==> |output| < WORD
  {
    if |output| >= WORD {
      assert output[WORD - 1] == 0;
    }
  }

  /** Telling the backend when to end a sequence disturbs neither the layout nor the token counts. */
  lemma EosKeepsLayout(c: Core, w: seq<nat>, d: seq<nat>, table: Table, h: Handle, afterTokens: nat)
    requires Laid(c, w, d, table, {}) && TokensAgree(c.requests, c.handles, table) && h in table
    ensures var after := table[h := table[h].(finishedAfter := Some(afterTokens))];
            Laid(c, w, d, after, {}) && TokensAgree(c.requests, c.handles, after)
  {
    assert table[h := table[h].(finishedAfter := Some(afterTokens))].Keys == table.Keys;
  }

  lemma ReleasingIsWithin(handles: map<RequestId, Handle>, id: RequestId, table: Table)
    ensures Within(handles - {id}, handles) && Within(Released(handles, id, table), table)
  {
  }
}
