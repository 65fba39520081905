/**
 * What the engine owes its clients and consumers, over every interleaving: submissions are admitted, cancels
 * carried out, and what consumers are handed is the stream.
 */
module EngineClients {
  import opened Clocks
  import opened Requests
  import opened TokenChannels
  import opened Engines
  import opened EngineProofs
  import opened EngineTraces
  import opened EngineTheorems

  // ----- consumers -----

  /** The events the consumer of channel c is handed by a step. */
  function TakenBy(e: Engine, s: Step, c: ChannelId): seq<TokenEvent> {
    if s == ConsumerPop(c) && c in e.channels && e.channels[c].buffer != [] then [e.channels[c].buffer[0]] else []
  }

  /** The events the consumer of channel c is handed in the course of a trace, oldest first. */
  ghost function TakenIn(e: Engine, steps: seq<Step>, c: ChannelId): seq<TokenEvent>
    requires IsTrace(e, steps)
    decreases |steps|
  {
    if steps == [] then [] else TakenBy(e, steps[0], c) + TakenIn(Do(e, steps[0]), steps[1..], c)
  }

  ghost function PoppedOf(e: Engine, c: ChannelId): seq<TokenEvent> {
    if c in e.channels then e.channels[c].popped else []
  }

  lemma StepTakes(e: Engine, s: Step, c: ChannelId)
    requires Enabled(e, s)
    ensures PoppedOf(Do(e, s), c) == PoppedOf(e, c) + TakenBy(e, s, c)
    ensures c in e.channels ==> c in Do(e, s).channels
  {
    if s.ConsumerPop? && e.channels[s.channel].buffer != [] {
      PopTakesOldest(e.channels[s.channel]);
    }
  }

  /** What was popped is exactly what the consumer was handed, in order. */
  lemma {:induction false} TraceTakes(e: Engine, steps: seq<Step>, c: ChannelId)
    requires IsTrace(e, steps)
    ensures PoppedOf(Trace(e, steps), c) == PoppedOf(e, c) + TakenIn(e, steps, c)
    decreases |steps|
  {
    if steps != [] {
      StepTakes(e, steps[0], c);
      TraceTakes(Do(e, steps[0]), steps[1..], c);
    }
  }

  /** The events handed to the consumer followed by those still buffered are the stream. */
  lemma TakenThenBuffered(now: TimePoint, wall: TimePoint, timeout: nat, steps: seq<Step>, c: ChannelId)
    requires IsTrace(Start(now, wall, timeout), steps) && c in Trace(Start(now, wall, timeout), steps).channels
    ensures var e := Start(now, wall, timeout); var ch := Trace(e, steps).channels[c];
            TakenIn(e, steps, c) + ch.buffer == ch.Stream()
  {
    TraceTakes(Start(now, wall, timeout), steps, c);
  }

  /**
   * Over every interleaving from the start: what the consumer is handed, and then what is still buffered,
   * is the beginning of the request's output.
   */
  lemma ConsumersSeeTheOutput(now: TimePoint, wall: TimePoint, timeout: nat, steps: seq<Step>, c: ChannelId)
    requires IsTrace(Start(now, wall, timeout), steps) && c in Trace(Start(now, wall, timeout), steps).owner
    ensures var e := Start(now, wall, timeout); var f := Trace(e, steps);
            && c in f.channels && f.owner[c] < |f.core.requests|
            && TokensOf(TakenIn(e, steps, c) + f.channels[c].buffer) <= Owner(f, c).output
  {
    StartIsOk(now, wall, timeout);
    StreamCorrectness(Start(now, wall, timeout), steps, c);
    TakenThenBuffered(now, wall, timeout, steps, c);
  }

  /** Buffers never hold more than their capacity. */
  ghost predicate Bounded(e: Engine) {
    forall c | c in e.channels :: |e.channels[c].buffer| <= e.channels[c].capacity
  }

  lemma StepKeepsBounded(e: Engine, s: Step)
    requires Enabled(e, s) && Bounded(e)
    ensures Bounded(Do(e, s))
  {
  }

  lemma {:induction false} BuffersAreBounded(e: Engine, steps: seq<Step>)
    requires IsTrace(e, steps) && Bounded(e)
    ensures Bounded(Trace(e, steps))
    decreases |steps|
  {
    if steps != [] {
      StepKeepsBounded(e, steps[0]);
      BuffersAreBounded(Do(e, steps[0]), steps[1..]);
    }
  }

  // ----- submissions -----

  /** The channel of the submission belongs to a request made from it, with its deadline counted from the admission. */
  ghost predicate IsAdmitted(e: Engine, sub: Submission) {
    && sub.channel in e.owner && e.owner[sub.channel] < |e.core.requests|
    && var r := Owner(e, sub.channel);
    && r.id == sub.id && r.prompt == sub.prompt && r.maxTokens == sub.maxTokens
    && r.life.admittedAt.Some? && r.deadlineAt == r.life.admittedAt.value + sub.deadline
  }

  lemma AdmitAdmits(e: Engine, at: TimePoint)
    requires EngineInv(e) && Enabled(e, Admit(at))
    ensures IsAdmitted(Do(e, Admit(at)), e.phase.batch[0])
    ensures Do(e, Admit(at)).owner[e.phase.batch[0].channel] == |e.core.requests|
    ensures Waiting(e) == [e.phase.batch[0]] + Waiting(Do(e, Admit(at)))
  {
  }

  lemma OtherKeepsWaiting(e: Engine, s: Step)
    requires Enabled(e, s) && !s.Admit?
    ensures Waiting(e) <= Waiting(Do(e, s))
  {
    if Passive(s) {
      PassiveWaiting(e, s);
    }
  }

  /** No step loses a submission. */
  lemma StepKeepsSubmission(e: Engine, s: Step, sub: Submission)
    requires EngineInv(e) && Enabled(e, s) && (sub in Waiting(e) || IsAdmitted(e, sub))
    ensures sub in Waiting(Do(e, s)) || IsAdmitted(Do(e, s), sub)
  {
    if IsAdmitted(e, sub) {
      StepPersists(e, s, sub.channel);
    } else if s.Admit? {
      AdmitAdmits(e, s.at);
    } else {
      OtherKeepsWaiting(e, s);
      var i :| 0 <= i < |Waiting(e)| && Waiting(e)[i] == sub;
      assert Waiting(Do(e, s))[i] == sub;
    }
  }

  /** Over every interleaving an accepted submission is still waiting or has been admitted as submitted. */
  lemma {:induction false} SubmissionsAreKept(e: Engine, steps: seq<Step>, sub: Submission)
    requires EngineInv(e) && IsTrace(e, steps) && (sub in Waiting(e) || IsAdmitted(e, sub))
    ensures sub in Waiting(Trace(e, steps)) || IsAdmitted(Trace(e, steps), sub)
    decreases |steps|
  {
    if steps != [] {
      StepKeepsSubmission(e, steps[0], sub);
      StepKeepsInv(e, steps[0]);
      SubmissionsAreKept(Do(e, steps[0]), steps[1..], sub);
    }
  }

  /** The first n submissions of a batch have been admitted in order, from position `base` on. */
  ghost predicate DrainedUpTo(e: Engine, batch: seq<Submission>, n: nat, base: nat)
    requires n <= |batch|
  {
    && |e.core.requests| == base + n
    && forall i | 0 <= i < n :: IsAdmitted(e, batch[i]) && e.owner[batch[i].channel] == base + i
  }

  lemma DrainOneMore(e: Engine, at: TimePoint, batch: seq<Submission>, n: nat, base: nat)
    requires EngineInv(e) && Enabled(e, Admit(at)) && n < |batch| && e.phase.batch == batch[n..]
    requires DrainedUpTo(e, batch, n, base)
    ensures DrainedUpTo(Do(e, Admit(at)), batch, n + 1, base)
  {
    var f := Do(e, Admit(at));
    AdmitAdmits(e, at);
    forall i | 0 <= i < n
      ensures IsAdmitted(f, batch[i]) && f.owner[batch[i].channel] == base + i
    {
      assert IsAdmitted(e, batch[i]);
      StepPersists(e, Admit(at), batch[i].channel);
    }
  }

  /** The submission will be drained before the loop is back at its top. */
  predicate DrainsNext(e: Engine, sub: Submission) {
    e.phase.Top? || (e.phase.Admitting? && sub in e.phase.batch)
  }

  /** How many returns to the top of the loop a waiting submission can see. */
  ghost function DrainsIn(e: Engine, sub: Submission): nat {
    if IsAdmitted(e, sub) then 0 else if DrainsNext(e, sub) then 1 else 2
  }

  lemma PhaseDrains(e: Engine, s: Step, sub: Submission)
    requires Enabled(e, s) && sub in Waiting(e) && (s.Admit? ==> sub != e.phase.batch[0])
    ensures DrainsNext(e, sub) ==> DrainsNext(Do(e, s), sub) && Returns(s) == 0
    ensures Returns(s) == 1 ==> DrainsNext(Do(e, s), sub)
  {
    if s.Admit? && sub in e.phase.batch {
      var i :| 0 <= i < |e.phase.batch| && e.phase.batch[i] == sub;
      assert e.phase.batch[1..][i - 1] == sub;
    }
  }

  lemma StepDrains(e: Engine, s: Step, sub: Submission)
    requires EngineInv(e) && Enabled(e, s) && (sub in Waiting(e) || IsAdmitted(e, sub))
    ensures DrainsIn(Do(e, s), sub) + (if DrainsIn(e, sub) > 0 then Returns(s) else 0) <= DrainsIn(e, sub)
  {
    if IsAdmitted(e, sub) {
      StepPersists(e, s, sub.channel);
    } else if s.Admit? && sub == e.phase.batch[0] {
      AdmitAdmits(e, s.at);
    } else {
      PhaseDrains(e, s, sub);
    }
  }

  /** An accepted submission is admitted by the time the loop has been back at its top twice. */
  lemma {:induction false} SubmissionIsAdmitted(e: Engine, steps: seq<Step>, sub: Submission)
    requires EngineInv(e) && IsTrace(e, steps) && (sub in Waiting(e) || IsAdmitted(e, sub))
    ensures RoundsIn(steps) >= DrainsIn(e, sub) ==> IsAdmitted(Trace(e, steps), sub)
    decreases |steps|
  {
    if IsAdmitted(e, sub) {
      AdmissionLasts(e, steps, sub);
    } else if steps != [] {
      StepKeepsSubmission(e, steps[0], sub);
      StepDrains(e, steps[0], sub);
      StepKeepsInv(e, steps[0]);
      SubmissionIsAdmitted(Do(e, steps[0]), steps[1..], sub);
    }
  }

  lemma AdmissionLasts(e: Engine, steps: seq<Step>, sub: Submission)
    requires EngineInv(e) && IsTrace(e, steps) && IsAdmitted(e, sub)
    ensures IsAdmitted(Trace(e, steps), sub)
  {
    TracePersists(e, steps, sub.channel);
  }

  /** From the client's side: what it submitted is admitted within two iterations of the loop. */
  lemma ClientIsServed(e: Engine, sub: Submission, steps: seq<Step>)
    requires EngineInv(e) && Enabled(e, ClientSubmit(sub)) && IsTrace(Do(e, ClientSubmit(sub)), steps)
    ensures var f := Trace(Do(e, ClientSubmit(sub)), steps);
            && (sub in Waiting(f) || IsAdmitted(f, sub))
            && (RoundsIn(steps) >= 2 ==> IsAdmitted(f, sub))
  {
    var d := Do(e, ClientSubmit(sub));
    StepKeepsInv(e, ClientSubmit(sub));
    PassiveWaiting(e, ClientSubmit(sub));
    SubmissionsAreKept(d, steps, sub);
    SubmissionIsAdmitted(d, steps, sub);
  }

  /** The capacity of a channel never changes. */
  lemma {:induction false} CapacityLasts(e: Engine, steps: seq<Step>, c: ChannelId)
    requires IsTrace(e, steps) && c in e.channels
    ensures c in Trace(e, steps).channels && Trace(e, steps).channels[c].capacity == e.channels[c].capacity
    decreases |steps|
  {
    if steps != [] {
      StepKeepsCapacity(e, steps[0], c);
      CapacityLasts(Do(e, steps[0]), steps[1..], c);
    }
  }

  lemma StepKeepsCapacity(e: Engine, s: Step, c: ChannelId)
    requires Enabled(e, s) && c in e.channels
    ensures c in Do(e, s).channels && Do(e, s).channels[c].capacity == e.channels[c].capacity
  {
  }

  /**
   * From submission to answer: on a channel that can hold the whole output, two iterations of the loop and
   * then one more than the budget after submitting, the channel is closed with the request terminal; it was
   * not evicted; and unless it was cancelled every token of the output has been delivered or is buffered.
   */
  lemma ClientGetsItsAnswer(e: Engine, sub: Submission, steps: seq<Step>, more: seq<Step>)
    requires EngineInv(e) && Enabled(e, ClientSubmit(sub)) && e.channels[sub.channel].capacity >= sub.maxTokens
    requires IsTrace(Do(e, ClientSubmit(sub)), steps) && RoundsIn(steps) >= 2
    requires IsTrace(Trace(Do(e, ClientSubmit(sub)), steps), more) && RoundsIn(more) >= sub.maxTokens + 1
    requires Trace(Trace(Do(e, ClientSubmit(sub)), steps), more).phase.Top?
    ensures var f, c := Trace(Trace(Do(e, ClientSubmit(sub)), steps), more), sub.channel;
            && IsAdmitted(f, sub) && c in f.channels && f.channels[c].closed && Owner(f, c).Terminal()
            && c in f.closedBy && !f.closedBy[c].ByEviction?
            && (!f.closedBy[c].ByCancel? ==> TokensOf(f.channels[c].Stream()) == Owner(f, c).output)
  {
    var d, c := Trace(Do(e, ClientSubmit(sub)), steps), sub.channel;
    StepKeepsInv(e, ClientSubmit(sub));
    ClientIsServed(e, sub, steps);
    CapacityLasts(Do(e, ClientSubmit(sub)), steps, c);
    TraceKeepsInv(Do(e, ClientSubmit(sub)), steps);
    AdmissionLasts(d, more, sub);
    assert ChannelOk(d, c);
    if d.channels[c].closed {
      StaysClosed(d, more, c);
    } else {
      DeliveryWithinIterations(d, more, c);
    }
  }

  lemma StaysClosed(e: Engine, steps: seq<Step>, c: ChannelId)
    requires EngineInv(e) && IsTrace(e, steps) && c in e.owner && ChannelOk(e, c) && e.channels[c].closed
    requires Roomy(e.channels[c], Owner(e, c))
    ensures var f := Trace(e, steps);
            && c in f.owner && c in f.channels && f.owner[c] < |f.core.requests|
            && f.channels[c].closed && Owner(f, c).Terminal() && c in f.closedBy && !f.closedBy[c].ByEviction?
            && (f.closedBy[c].ByReap? ==> TokensOf(f.channels[c].Stream()) == Owner(f, c).output)
  {
    TracePersists(e, steps, c);
  }

  // ----- cancels -----

  /** How many returns to the top of the loop a pending cancel can see. */
  ghost function CancelsIn(e: Engine, c: ChannelId): nat
    requires c in e.owner && ChannelOk(e, c)
  {
    if e.channels[c].closed then 0
    else if Draining(e, c) || e.phase.Top? || e.phase.Admitting? then 1
    else 2
  }

  lemma PhaseCancels(e: Engine, s: Step)
    requires Enabled(e, s)
    ensures e.phase.Top? || e.phase.Admitting? || (e.phase.Cancelling? && e.phase.ids != []) ==> Returns(s) == 0
    ensures e.phase.Top? || e.phase.Admitting? ==>
              Do(e, s).phase.Top? || Do(e, s).phase.Admitting? || s.SwapCancels?
    ensures Returns(s) == 1 ==> Do(e, s).phase.Top?
  {
  }

  lemma StepCancels(e: Engine, s: Step, c: ChannelId)
    requires EngineInv(e) && Enabled(e, s) && c in e.owner && ChannelOk(e, c) && CancelPending(e, c)
    ensures c in Do(e, s).owner && ChannelOk(Do(e, s), c) && CancelPending(Do(e, s), c)
    ensures CancelsIn(Do(e, s), c) + (if CancelsIn(e, c) > 0 then Returns(s) else 0) <= CancelsIn(e, c)
  {
    StepKeepsDraining(e, s, c);
    PhaseCancels(e, s);
    if e.channels[c].closed {
      StepPersists(e, s, c);
    }
  }

  lemma {:induction false} CancelIsCarriedOut(e: Engine, steps: seq<Step>, c: ChannelId)
    requires EngineInv(e) && IsTrace(e, steps) && c in e.owner && ChannelOk(e, c) && CancelPending(e, c)
    ensures var f := Trace(e, steps);
            && c in f.owner && ChannelOk(f, c)
            && (RoundsIn(steps) >= CancelsIn(e, c) ==> f.channels[c].closed && Owner(f, c).Terminal())
    decreases |steps|
  {
    if e.channels[c].closed {
      TracePersists(e, steps, c);
    } else if steps != [] {
      StepCancels(e, steps[0], c);
      StepKeepsInv(e, steps[0]);
      CancelIsCarriedOut(Do(e, steps[0]), steps[1..], c);
    }
  }

  /** From the client's side: cancelling an admitted request ends it within two iterations of the loop. */
  lemma ClientCancelTakesEffect(e: Engine, id: RequestId, steps: seq<Step>, c: ChannelId)
    requires EngineInv(e) && c in e.owner && ChannelOk(e, c) && Owner(e, c).id == id
    requires IsTrace(Do(e, ClientCancel(id)), steps) && RoundsIn(steps) >= 2
    ensures var f := Trace(Do(e, ClientCancel(id)), steps);
            && c in f.owner && c in f.channels && f.owner[c] < |f.core.requests|
            && f.channels[c].closed && Owner(f, c).Terminal()
  {
    StepKeepsInv(e, ClientCancel(id));
    StepPersists(e, ClientCancel(id), c);
    assert id in Do(e, ClientCancel(id)).pendingCancels;
    CancelIsCarriedOut(Do(e, ClientCancel(id)), steps, c);
  }
}
