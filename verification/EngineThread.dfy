/**
 * The engine thread's own code: the passes of its loop over the scheduler, the active entries and the
 * channels (src/http/engine.cpp).  Each pass is shown to be a sequence of steps of the state machine,
 * so what holds over every trace holds of this code with client and consumer steps in between.
 */
module EngineThreads {
  import opened Clocks
  import opened Lifecycle
  import opened Requests
  import opened Scheduling
  import opened Fifo
  import opened TokenChannels
  import opened Engines
  import opened EngineProofs
  import opened EngineTraces
  import opened EngineTheorems
  import opened EngineClients

  /** The engine after a tick that took the scheduler to `core`. */
  function AfterTick(e: Engine, core: Core): Engine {
    e.(core := core, active := Aged(e.active), phase := Pushing(e.active.Keys))
  }

  lemma TickStep(e: Engine, env: Env, core: Core)
    requires EngineInv(e) && e.phase == Cancelling([]) && e.active != map[]
    requires AllHaveRoom(e.core.requests) && EnvOk(e.core, env) && core == Tick(e.core, env)
    ensures Becomes(e, TickAll(env), AfterTick(e, core)) && EngineInv(AfterTick(e, core))
    ensures Aged(e.active).Keys == e.active.Keys
  {
    StepKeepsInv(e, TickAll(env));
  }

  lemma PushStep(e: Engine, id: RequestId)
    requires EngineInv(e) && e.phase.Pushing? && id in e.phase.todo
    ensures Enabled(e, PushNext(id))
    ensures Becomes(e, PushNext(id), PushOne(e, id)) && EngineInv(PushOne(e, id)) && EntryOk(e, id)
    ensures var r := e.core.requests[e.active[id].request]; r.emitted == |r.output|
  {
    assert EntryOk(e, id);
    StepKeepsInv(e, PushNext(id));
    OutputCounted(e.core, e.active[id].request);
  }

  /** Removing one more of the keys to be removed. */
  lemma RemoveOneMore(all: map<RequestId, Entry>, goal: set<RequestId>, left: set<RequestId>, id: RequestId)
    requires left <= goal && id in left
    ensures all - (goal - left) - {id} == all - (goal - (left - {id}))
  {
  }

  class EngineThread {
    const scheduler: FifoScheduler
    const timeout: nat
    var pendingSubmissions: seq<Submission>
    var pendingCancels: seq<RequestId>
    var active: map<RequestId, Entry>
    var channels: map<ChannelId, Channel>
    var wall: TimePoint
    ghost var owner: map<ChannelId, nat>
    ghost var closedBy: map<ChannelId, Closing>
    ghost var phase: Phase

    constructor (scheduler: FifoScheduler, wall: TimePoint, timeout: nat)
      requires scheduler.Valid() && scheduler.requests == []
      ensures this.scheduler == scheduler && Valid() && View() == Start(scheduler.clock.now, wall, timeout)
    {
      this.scheduler, this.timeout, this.wall := scheduler, timeout, wall;
      pendingSubmissions, pendingCancels, active, channels := [], [], map[], map[];
      owner, closedBy, phase := map[], map[], Top;
      new;
      assert DecodingIds(scheduler.requests) == {};
      assert scheduler.handles == map[];
      StartIsOk(scheduler.clock.now, wall, timeout);
    }

    ghost function View(): Engine
      reads this, scheduler, scheduler.clock
    {
      Engine(scheduler.View(), pendingSubmissions, pendingCancels, active, channels, owner, closedBy, phase, wall,
             timeout)
    }

    ghost predicate Valid()
      reads this, scheduler, scheduler.backend, scheduler.clock
    {
      scheduler.Valid() && EngineInv(View())
    }

    /** With no active entry the scheduler is idle and the backend holds no sequence. */
    lemma IdleHoldsNothing()
      requires Valid() && active == map[]
      ensures scheduler.waiting == [] && scheduler.decoding == [] && scheduler.backend.sequences == map[]
    {
      EngineTracksScheduler(View(), []);
      scheduler.NothingLive();
    }

    // ----- clients and consumers -----

    method Submit(submission: Submission)
      requires Valid() && Enabled(View(), ClientSubmit(submission))
      modifies this`pendingSubmissions
      ensures Valid() && View() == Do(old(View()), ClientSubmit(submission))
    {
      StepKeepsInv(View(), ClientSubmit(submission));
      pendingSubmissions := pendingSubmissions + [submission];
    }

    method Cancel(id: RequestId)
      requires Valid()
      modifies this`pendingCancels
      ensures Valid() && View() == Do(old(View()), ClientCancel(id))
    {
      StepKeepsInv(View(), ClientCancel(id));
      pendingCancels := pendingCancels + [id];
    }

    // ----- draining -----

    method AdmitNext(batch: seq<Submission>)
      requires Valid() && phase == Admitting(batch) && batch != []
      modifies this`active, this`owner, this`phase, scheduler`requests, scheduler`waiting
      ensures Valid() && phase == Admitting(batch[1..])
      ensures var s := Admit(scheduler.clock.now); Becomes(old(View()), s, View())
    {
      ghost var e, at := View(), scheduler.clock.now;
      StepKeepsInv(e, Admit(at));
      AdmitKeepsCore(e, at);
      var s := batch[0];
      var k := scheduler.Submit(NewRequest(s.id, scheduler.clock.now, s.deadline, s.maxTokens, s.prompt));
      active := active[s.id := Entry(k, s.channel, 0, None, 0, None)];
      owner, phase := owner[s.channel := k], Admitting(batch[1..]);
      assert View() == Do(e, Admit(at));
    }

    method TakeSubmissions() returns (batch: seq<Submission>)
      requires Valid() && phase.Top?
      modifies this`pendingSubmissions, this`phase
      ensures Valid() && phase == Admitting(batch) && pendingSubmissions == [] && batch == old(pendingSubmissions)
      ensures Becomes(old(View()), SwapSubmissions, View())
    {
      StepKeepsInv(View(), SwapSubmissions);
      batch := pendingSubmissions;
      pendingSubmissions, phase := [], Admitting(batch);
    }

    /** Where the admission loop stands: the first n of `all` have been admitted. */
    ghost predicate Admitted(e: Engine, steps: seq<Step>, all: seq<Submission>, n: nat, base: nat)
      reads this, scheduler, scheduler.backend, scheduler.clock
    {
      Valid() && Leads(e, steps, View(), 0) && n <= |all| && DrainedUpTo(View(), all, n, base)
    }

    method AdmitNextOf(
      batch: seq<Submission>, ghost e: Engine, ghost steps: seq<Step>, ghost all: seq<Submission>, ghost n: nat,
      ghost base: nat)
      returns (ghost steps': seq<Step>)
      requires phase == Admitting(batch) && Admitted(e, steps, all, n, base) && n < |all| && batch == all[n..]
      modifies this`active, this`owner, this`phase, scheduler`requests, scheduler`waiting
      ensures phase == Admitting(batch[1..]) && Admitted(e, steps', all, n + 1, base)
    {
      ghost var d, s := View(), Admit(scheduler.clock.now);
      AdmitNext(batch);
      ghost var f := View();
      DrainOneMore(d, s.at, all, n, base);
      OneMore(e, steps, d, 0, s, f);
      steps' := steps + [s];
    }

    method DrainSubmissions() returns (ghost steps: seq<Step>)
      requires Valid() && phase.Top?
      modifies this`pendingSubmissions, this`active, this`owner, this`phase, scheduler`requests, scheduler`waiting
      ensures Valid() && Leads(old(View()), steps, View(), 0)
      ensures phase == Admitting([]) && pendingSubmissions == [] && pendingCancels == old(pendingCancels)
      ensures DrainedUpTo(View(), old(pendingSubmissions), |old(pendingSubmissions)|, |old(scheduler.requests)|)
    {
      ghost var e, all, base := View(), pendingSubmissions, |scheduler.requests|;
      var batch := TakeSubmissions();
      OneMore(e, [], e, 0, SwapSubmissions, View());
      steps := [SwapSubmissions];
      ghost var n := 0;
      while batch != []
        invariant phase == Admitting(batch) && pendingSubmissions == []
        invariant Admitted(e, steps, all, n, base) && batch == all[n..]
        decreases |batch|
      {
        steps := AdmitNextOf(batch, e, steps, all, n, base);
        batch, n := batch[1..], n + 1;
      }
    }

    method CloseEntry(id: RequestId, ghost why: Closing)
      requires id in active && active[id].channel in channels
      modifies this`active, this`channels, this`closedBy
      ensures View() == Drop(old(View()), id, why)
    {
      var c := active[id].channel;
      channels, closedBy := channels[c := channels[c].Close()], closedBy[c := why];
      active := active - {id};
    }

    method CancelFirst(batch: seq<RequestId>) returns (ghost s: Step)
      requires Valid() && phase == Cancelling(batch) && batch != []
      modifies this`active, this`channels, this`closedBy, this`phase, scheduler, scheduler.backend
      ensures Valid() && phase == Cancelling(batch[1..])
      ensures Becomes(old(View()), s, View()) && Beats(s) == 0
    {
      ghost var e, at := View(), scheduler.clock.now;
      s := CancelNext(at);
      StepKeepsInv(e, s);
      var id := batch[0];
      assert id in active ==> EntryOk(e, id);
      scheduler.Cancel(id);
      phase := Cancelling(batch[1..]);
      if id in active {
        CloseEntry(id, ByCancel);
      }
      assert View() == Do(e, s);
    }

    method TakeCancels() returns (batch: seq<RequestId>)
      requires Valid() && phase == Admitting([])
      modifies this`pendingCancels, this`phase
      ensures Valid() && phase == Cancelling(batch) && pendingCancels == [] && batch == old(pendingCancels)
      ensures Becomes(old(View()), SwapCancels, View())
    {
      StepKeepsInv(View(), SwapCancels);
      batch := pendingCancels;
      pendingCancels, phase := [], Cancelling(batch);
    }

    method DrainCancels() returns (ghost steps: seq<Step>)
      requires Valid() && phase == Admitting([])
      modifies this`pendingCancels, this`active, this`channels, this`closedBy, this`phase, scheduler, scheduler.backend
      ensures Valid() && Leads(old(View()), steps, View(), 0)
      ensures phase == Cancelling([]) && pendingCancels == []
    {
      ghost var e := View();
      steps := [];
      var batch := TakeCancels();
      OneMore(e, [], e, 0, SwapCancels, View());
      steps := [SwapCancels];
      while batch != []
        invariant Valid() && Leads(e, steps, View(), 0)
        invariant phase == Cancelling(batch) && pendingCancels == []
        decreases |batch|
      {
        ghost var d := View();
        ghost var s := CancelFirst(batch);
        OneMore(e, steps, d, 0, s, View());
        batch, steps := batch[1..], steps + [s];
      }
    }

    // ----- ticking and delivering -----

    method TickScheduler() returns (ghost s: Step)
      requires Valid() && phase == Cancelling([]) && active != map[]
      modifies this`active, this`phase, scheduler, scheduler.backend, scheduler.clock
      ensures Valid() && s.TickAll? && Becomes(old(View()), s, View())
      ensures phase == Pushing(active.Keys)
    {
      ghost var e := View();
      var _, env := scheduler.Tick();
      s := TickAll(env);
      TickStep(e, env, scheduler.View());
      phase := Pushing(active.Keys);
      active := Aged(active);
      assert View() == AfterTick(e, scheduler.View());
    }

    method PushToken(id: RequestId, event: TokenEvent)
      requires id in active && active[id].channel in channels && channels[active[id].channel].CanPush()
      modifies this`active, this`channels
      ensures View() == Delivered(old(View()), id, event)
    {
      var x := active[id];
      channels := channels[x.channel := channels[x.channel].Push(event)];
      active := active[id := x.(lastSeen := x.lastSeen + 1, backpressureSince := None, lastPushAt := Some(wall))];
    }

    method NotePressure(id: RequestId)
      requires id in active
      modifies this`active
      ensures View() == Refused(old(View()), id)
    {
      var x := active[id];
      if x.backpressureSince.None? {
        x := x.(backpressureSince := Some(wall));
      }
      active := active[id := x];
    }

    /** One turn of the loop over an entry's undelivered tokens. */
    method PushTurn(id: RequestId) returns (pushed: bool)
      requires Valid() && phase.Pushing? && id in phase.todo
      modifies this`active, this`channels, this`phase
      ensures Valid() && Becomes(old(View()), PushNext(id), View())
      ensures if pushed then phase == old(phase) else phase == Pushing(old(phase.todo) - {id})
      ensures pushed ==> id in active && active[id].request == old(active)[id].request < |scheduler.requests|
      ensures pushed ==>
                active[id].lastSeen == old(active)[id].lastSeen + 1 <= scheduler.requests[active[id].request].emitted
    {
      ghost var e := View();
      PushStep(e, id);
      var x := active[id];
      var r := scheduler.requests[x.request];
      pushed := x.lastSeen < r.emitted && channels[x.channel].CanPush();
      if pushed {
        PushToken(id, EventFor(r, x.lastSeen));
      } else {
        if x.lastSeen < r.emitted {
          NotePressure(id);
        }
        phase := Pushing(phase.todo - {id});
      }
      assert View() == PushOne(e, id);
    }

    method PushEntry(id: RequestId) returns (ghost steps: seq<Step>)
      requires Valid() && phase.Pushing? && id in phase.todo
      modifies this`active, this`channels, this`phase
      ensures Valid() && Leads(old(View()), steps, View(), 0)
      ensures phase == Pushing(old(phase.todo) - {id})
    {
      ghost var e, p := View(), phase;
      steps := [];
      assert EntryOk(e, id);
      var going := true;
      while going
        invariant Valid() && Leads(e, steps, View(), 0)
        invariant if going then phase == p && id in active else phase == Pushing(p.todo - {id})
        invariant going ==> active[id].request == e.active[id].request
        decreases going, if going then scheduler.requests[e.active[id].request].emitted - active[id].lastSeen else 0
      {
        ghost var d := View();
        going := PushTurn(id);
        OneMore(e, steps, d, 0, PushNext(id), View());
        steps := steps + [PushNext(id)];
      }
    }

    method PushAll() returns (ghost steps: seq<Step>)
      requires Valid() && phase == Pushing(active.Keys)
      modifies this`active, this`channels, this`phase
      ensures Valid() && Leads(old(View()), steps, View(), 0)
      ensures phase == Pushing({})
    {
      ghost var e := View();
      steps := [];
      var todo := active.Keys;
      while todo != {}
        invariant Valid() && Leads(e, steps, View(), 0) && phase == Pushing(todo)
        decreases todo
      {
        var id :| id in todo;
        ghost var d := View();
        ghost var more := PushEntry(id);
        LeadsOn(e, steps, d, 0, more, View(), 0);
        todo, steps := todo - {id}, steps + more;
      }
    }

    method ReadWallClock(now: TimePoint)
      requires Valid() && wall <= now
      modifies this`wall
      ensures Valid() && Becomes(old(View()), WallClock(now), View())
    {
      StepKeepsInv(View(), WallClock(now));
      wall := now;
    }

    /** `now` is what the clock shows during the pass; refusals are stamped with it. */
    method PushTokens(now: TimePoint) returns (ghost steps: seq<Step>)
      requires Valid() && phase == Pushing(active.Keys) && wall <= now
      modifies this`wall, this`active, this`channels, this`phase
      ensures Valid() && Leads(old(View()), steps, View(), 0)
      ensures phase == Pushing({}) && wall == now
    {
      ghost var e := View();
      ReadWallClock(now);
      ghost var d := View();
      OneMore(e, [], e, 0, WallClock(now), d);
      steps := PushAll();
      LeadsOn(e, [WallClock(now)], d, 0, steps, View(), 0);
      steps := [WallClock(now)] + steps;
    }

    // ----- backpressure and reaping -----

    method EvictOne(late: set<RequestId>, id: RequestId)
      requires Valid() && phase == Evicting(late) && id in late
      modifies this`active, this`channels, this`closedBy, this`phase, scheduler, scheduler.backend
      ensures Valid() && phase == Evicting(late - {id}) && active == old(active) - {id}
      ensures Becomes(old(View()), EvictNext(id, scheduler.clock.now), View())
    {
      ghost var e, at := View(), scheduler.clock.now;
      EngineNeverStuck(e, id);
      StepKeepsInv(e, EvictNext(id, at));
      scheduler.Cancel(id);
      phase := Evicting(late - {id});
      CloseEntry(id, ByEviction);
      assert View() == Do(e, EvictNext(id, at));
    }

    method CollectOverdue() returns (late: set<RequestId>)
      requires Valid() && phase == Pushing({})
      modifies this`phase
      ensures Valid() && phase == Evicting(late) && late == OverdueIds(active, wall, timeout)
      ensures Becomes(old(View()), CheckBackpressure, View())
    {
      StepKeepsInv(View(), CheckBackpressure);
      late := OverdueIds(active, wall, timeout);
      phase := Evicting(late);
    }

    /** Where a removal loop stands: `goal` less `left` are gone from the entries of `e`. */
    ghost predicate Removed(e: Engine, steps: seq<Step>, goal: set<RequestId>, left: set<RequestId>)
      reads this, scheduler, scheduler.backend, scheduler.clock
    {
      Valid() && Leads(e, steps, View(), 0) && left <= goal && active == e.active - (goal - left)
    }

    method EvictNextOf(goal: set<RequestId>, late: set<RequestId>, id: RequestId, ghost e: Engine,
                       ghost steps: seq<Step>)
      returns (ghost steps': seq<Step>)
      requires phase == Evicting(late) && Removed(e, steps, goal, late) && id in late
      modifies this`active, this`channels, this`closedBy, this`phase, scheduler, scheduler.backend
      ensures phase == Evicting(late - {id}) && Removed(e, steps', goal, late - {id})
    {
      ghost var d, s := View(), EvictNext(id, scheduler.clock.now);
      EvictOne(late, id);
      OneMore(e, steps, d, 0, s, View());
      RemoveOneMore(e.active, goal, late, id);
      steps' := steps + [s];
    }

    method EvictAll(overdue: set<RequestId>) returns (ghost steps: seq<Step>)
      requires Valid() && phase == Evicting(overdue)
      modifies this`active, this`channels, this`closedBy, this`phase, scheduler, scheduler.backend
      ensures Valid() && Leads(old(View()), steps, View(), 0)
      ensures phase == Evicting({}) && active == old(active) - overdue
    {
      ghost var e := View();
      var late := overdue;
      steps := [];
      while late != {}
        invariant phase == Evicting(late) && Removed(e, steps, overdue, late)
        decreases late
      {
        var id :| id in late;
        steps := EvictNextOf(overdue, late, id, e, steps);
        late := late - {id};
      }
    }

    /** `now` is the clock reading the pass starts with. */
    method StartCheck(now: TimePoint) returns (late: set<RequestId>, ghost steps: seq<Step>)
      requires Valid() && phase == Pushing({}) && wall <= now
      modifies this`wall, this`phase
      ensures Valid() && Leads(old(View()), steps, View(), 0)
      ensures phase == Evicting(late) && late == OverdueIds(active, now, timeout)
    {
      ghost var e := View();
      ReadWallClock(now);
      ghost var d := View();
      OneMore(e, [], e, 0, WallClock(now), d);
      late := CollectOverdue();
      steps := [WallClock(now)];
      OneMore(e, steps, d, 0, CheckBackpressure, View());
      steps := steps + [CheckBackpressure];
    }

    method CheckBackpressures(now: TimePoint) returns (ghost steps: seq<Step>)
      requires Valid() && phase == Pushing({}) && wall <= now
      modifies this`wall, this`active, this`channels, this`closedBy, this`phase, scheduler, scheduler.backend
      ensures Valid() && Leads(old(View()), steps, View(), 0)
      ensures phase == Evicting({}) && active == old(active) - OverdueIds(old(active), now, timeout)
    {
      ghost var e := View();
      var late, first := StartCheck(now);
      ghost var d := View();
      ghost var more := EvictAll(late);
      LeadsOn(e, first, d, 0, more, View(), 0);
      steps := first + more;
    }

    method ReapOne(done: set<RequestId>, id: RequestId)
      requires Valid() && phase == Reaping(done) && id in done
      modifies this`active, this`channels, this`closedBy, this`phase
      ensures Valid() && phase == Reaping(done - {id}) && active == old(active) - {id}
      ensures Becomes(old(View()), ReapNext(id), View())
    {
      ghost var e := View();
      EngineNeverStuck(e, id);
      StepKeepsInv(e, ReapNext(id));
      phase := Reaping(done - {id});
      CloseEntry(id, ByReap);
      assert View() == Do(e, ReapNext(id));
    }

    method CollectFinished() returns (done: set<RequestId>)
      requires Valid() && phase == Evicting({})
      modifies this`phase
      ensures Valid() && phase == Reaping(done) && done == FinishedIds(active, scheduler.requests)
      ensures Becomes(old(View()), CollectTerminal, View())
    {
      ghost var e := View();
      StepKeepsInv(e, CollectTerminal);
      done := FinishedIds(active, scheduler.requests);
      phase := Reaping(done);
      assert View() == Do(e, CollectTerminal);
    }

    method ReapNextOf(goal: set<RequestId>, done: set<RequestId>, id: RequestId, ghost e: Engine,
                      ghost steps: seq<Step>)
      returns (ghost steps': seq<Step>)
      requires phase == Reaping(done) && Removed(e, steps, goal, done) && id in done
      modifies this`active, this`channels, this`closedBy, this`phase
      ensures phase == Reaping(done - {id}) && Removed(e, steps', goal, done - {id})
    {
      ghost var d := View();
      ReapOne(done, id);
      OneMore(e, steps, d, 0, ReapNext(id), View());
      RemoveOneMore(e.active, goal, done, id);
      steps' := steps + [ReapNext(id)];
    }

    method ReapAll(finished: set<RequestId>) returns (ghost steps: seq<Step>)
      requires Valid() && phase == Reaping(finished)
      modifies this`active, this`channels, this`closedBy, this`phase
      ensures Valid() && Leads(old(View()), steps, View(), 0)
      ensures phase == Reaping({}) && active == old(active) - finished
    {
      ghost var e := View();
      var done := finished;
      steps := [];
      while done != {}
        invariant phase == Reaping(done) && Removed(e, steps, finished, done)
        decreases done
      {
        var id :| id in done;
        steps := ReapNextOf(finished, done, id, e, steps);
        done := done - {id};
      }
    }

    method ReapTerminal() returns (ghost steps: seq<Step>)
      requires Valid() && phase == Evicting({})
      modifies this`active, this`channels, this`closedBy, this`phase
      ensures Valid() && Leads(old(View()), steps, View(), 0)
      ensures phase == Reaping({}) && active == old(active) - FinishedIds(old(active), scheduler.requests)
    {
      ghost var e := View();
      var done := CollectFinished();
      ghost var d := View();
      OneMore(e, [], e, 0, CollectTerminal, d);
      steps := ReapAll(done);
      LeadsOn(e, [CollectTerminal], d, 0, steps, View(), 0);
      steps := [CollectTerminal] + steps;
    }

    // ----- the loop -----

    ghost method BackToTop() returns (s: Step)
      requires Valid() && (phase == Reaping({}) || (phase == Cancelling([]) && active == map[]))
      modifies this`phase
      ensures Valid() && phase == Top && Becomes(old(View()), s, View()) && Beats(s) == 0
    {
      s := if phase.Reaping? then EndIteration else SkipTick;
      StepKeepsInv(View(), s);
      phase := Top;
    }

    method Drain() returns (ghost steps: seq<Step>)
      requires Valid() && phase == Top
      modifies this`pendingSubmissions, this`pendingCancels, this`active, this`channels, this`owner, this`closedBy
      modifies this`phase
      modifies scheduler, scheduler.backend
      ensures Valid() && Leads(old(View()), steps, View(), 0)
      ensures phase == Cancelling([]) && pendingSubmissions == [] && pendingCancels == []
    {
      ghost var e := View();
      steps := DrainSubmissions();
      ghost var d := View();
      ghost var more := DrainCancels();
      LeadsOn(e, steps, d, 0, more, View(), 0);
      steps := steps + more;
    }

    method Deliver(pushAt: TimePoint, checkAt: TimePoint) returns (ghost steps: seq<Step>)
      requires Valid() && phase == Pushing(active.Keys) && wall <= pushAt <= checkAt
      modifies this`wall, this`active, this`channels, this`closedBy, this`phase, scheduler, scheduler.backend
      ensures Valid() && Leads(old(View()), steps, View(), 0)
      ensures phase == Reaping({})
    {
      ghost var e := View();
      steps := PushTokens(pushAt);
      ghost var d := View();
      ghost var more := CheckBackpressures(checkAt);
      LeadsOn(e, steps, d, 0, more, View(), 0);
      d, steps := View(), steps + more;
      more := ReapTerminal();
      LeadsOn(e, steps, d, 0, more, View(), 0);
      steps := steps + more;
    }

    method TickAndDeliver(pushAt: TimePoint, checkAt: TimePoint) returns (ghost steps: seq<Step>)
      requires Valid() && phase == Cancelling([]) && active != map[] && wall <= pushAt <= checkAt
      modifies this`wall, this`active, this`channels, this`closedBy, this`phase
      modifies scheduler, scheduler.backend, scheduler.clock
      ensures Valid() && phase == Reaping({}) && Leads(old(View()), steps, View(), 1)
    {
      ghost var e := View();
      ghost var s := TickScheduler();
      ghost var d := View();
      OneMore(e, [], e, 0, s, d);
      ghost var more := Deliver(pushAt, checkAt);
      steps := [s];
      LeadsOn(e, steps, d, 1, more, View(), 0);
      steps := steps + more;
    }

    /**
     * Once round the loop: a sequence of steps from one resting point to the next, with one tick among
     * them unless there was nothing to do.  The wall clock shows `pushAt` while tokens are pushed and
     * `checkAt` when backpressure is checked.
     */
    method Iterate(pushAt: TimePoint, checkAt: TimePoint) returns (ghost steps: seq<Step>, ticked: bool)
      requires Valid() && phase == Top && wall <= pushAt <= checkAt
      modifies this, scheduler, scheduler.backend, scheduler.clock
      ensures Valid() && phase == Top
      ensures Leads(old(View()), steps, View(), if ticked then 1 else 0)
      ensures !ticked ==> active == map[] && pendingSubmissions == [] && pendingCancels == []
    {
      ghost var e := View();
      steps := Drain();
      ghost var d := View();
      ticked := active != map[];
      ghost var n := if ticked then 1 else 0;
      if ticked {
        ghost var more := TickAndDeliver(pushAt, checkAt);
        LeadsOn(e, steps, d, 0, more, View(), 1);
        d, steps := View(), steps + more;
      }
      ghost var s := BackToTop();
      OneMore(e, steps, d, n, s, View());
      steps := steps + [s];
    }
  }
}
