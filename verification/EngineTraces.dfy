/** Putting traces of the engine together, and counting the ticks in them. */
module EngineTraces {
  import opened Engines
  import opened EngineProofs

  /** Ticks run by a step, and by a trace. */
  function Beats(s: Step): nat { if s.TickAll? then 1 else 0 }

  function TicksIn(steps: seq<Step>): nat {
    if steps == [] then 0 else Beats(steps[0]) + TicksIn(steps[1..])
  }

  /** Returns to the top of the engine's loop. */
  function Returns(s: Step): nat { if s.EndIteration? || s.SkipTick? then 1 else 0 }

  function RoundsIn(steps: seq<Step>): nat {
    if steps == [] then 0 else Returns(steps[0]) + RoundsIn(steps[1..])
  }

  /** Whether the current iteration has run its tick. */
  function Ticked(e: Engine): nat { if e.phase.Pushing? || e.phase.Evicting? || e.phase.Reaping? then 1 else 0 }

  lemma {:induction false} TraceThen(e: Engine, a: seq<Step>, b: seq<Step>)
    requires IsTrace(e, a) && IsTrace(Trace(e, a), b)
    ensures IsTrace(e, a + b) && Trace(e, a + b) == Trace(Trace(e, a), b)
    decreases |a|
  {
    if a == [] {
      assert a + b == b;
    } else {
      TraceThen(Do(e, a[0]), a[1..], b);
      assert (a + b)[1..] == a[1..] + b;
    }
  }

  lemma {:induction false} TicksAdd(a: seq<Step>, b: seq<Step>)
    ensures TicksIn(a + b) == TicksIn(a) + TicksIn(b)
  {
    if a == [] {
      assert a + b == b;
    } else {
      TicksAdd(a[1..], b);
      assert (a + b)[1..] == a[1..] + b;
    }
  }

  /** `f` is where the steps lead from `e`, with `n` ticks among them. */
  ghost predicate Leads(e: Engine, steps: seq<Step>, f: Engine, n: nat) {
    IsTrace(e, steps) && f == Trace(e, steps) && TicksIn(steps) == n
  }

  ghost predicate Becomes(e: Engine, s: Step, f: Engine) {
    Enabled(e, s) && f == Do(e, s)
  }

  lemma OneMore(e: Engine, steps: seq<Step>, d: Engine, n: nat, s: Step, f: Engine)
    requires Leads(e, steps, d, n) && Becomes(d, s, f)
    ensures Leads(e, steps + [s], f, n + Beats(s))
  {
    assert [s][1..] == [];
    assert Trace(d, [s]) == f;
    TraceThen(e, steps, [s]);
    TicksAdd(steps, [s]);
  }

  lemma LeadsOn(e: Engine, a: seq<Step>, d: Engine, n: nat, b: seq<Step>, f: Engine, m: nat)
    requires Leads(e, a, d, n) && Leads(d, b, f, m)
    ensures Leads(e, a + b, f, n + m)
  {
    TraceThen(e, a, b);
    TicksAdd(a, b);
  }
}
