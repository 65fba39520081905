/** What the simulation keeps of a request once it is over (apps/tokamak/simulation.h). */
module Summaries {
  import opened Clocks
  import opened Lifecycle
  import opened Requests

  datatype RequestSummary = RequestSummary(
    id: RequestId,
    finalState: State,
    deadlineAt: TimePoint,
    admittedAt: Option<TimePoint>,
    waitingPrefillAt: Option<TimePoint>,
    prefillingAt: Option<TimePoint>,
    waitingDecodeAt: Option<TimePoint>,
    decodingAt: Option<TimePoint>,
    firstTokenAt: Option<TimePoint>,
    completedAt: Option<TimePoint>,
    outputTokensEmitted: nat,
    maxOutputTokens: nat)

  function Summarize(r: RequestData): RequestSummary {
    RequestSummary(r.id, r.life.state, r.deadlineAt, r.life.admittedAt,
                   EntryTime(r.life, WaitingPrefill), EntryTime(r.life, Prefilling),
                   EntryTime(r.life, WaitingDecode), EntryTime(r.life, Decoding),
                   r.life.firstTokenAt, r.life.completedAt, r.emitted, r.maxTokens)
  }
}

/** The post-hoc checker (apps/tokamak/analysis.cpp). */
module Analysis {
  import opened Clocks
  import opened Lifecycle
  import opened Requests
  import opened Summaries

  datatype Rule =
    | MustBeTerminal | MustRespectBudget
    | FirstTokenAfterAdmission | CompletionAfterFirstToken | CompletionAfterAdmission

  datatype Violation = Violation(id: RequestId, rule: Rule)

  predicate InOrder(earlier: Option<TimePoint>, later: Option<TimePoint>) {
    earlier.Some? && later.Some? ==> earlier.value <= later.value
  }

  predicate Obeys(r: RequestSummary, rule: Rule) {
    match rule
    case MustBeTerminal => IsTerminal(r.finalState)
    case MustRespectBudget => r.outputTokensEmitted <= r.maxOutputTokens
    case FirstTokenAfterAdmission => InOrder(r.admittedAt, r.firstTokenAt)
    case CompletionAfterFirstToken => InOrder(r.firstTokenAt, r.completedAt)
    case CompletionAfterAdmission => InOrder(r.admittedAt, r.completedAt)
  }

  /** The five rules on the fields of a summary. */
  lemma RulesAre(r: RequestSummary)
    ensures Obeys(r, MustBeTerminal) <==>
              r.finalState.Completed? || r.finalState.Rejected? || r.finalState.Cancelled? || r.finalState.Failed?
    ensures Obeys(r, MustRespectBudget) <==> r.outputTokensEmitted <= r.maxOutputTokens
    ensures !Obeys(r, FirstTokenAfterAdmission) <==>
              r.admittedAt.Some? && r.firstTokenAt.Some? && r.firstTokenAt.value < r.admittedAt.value
    ensures !Obeys(r, CompletionAfterFirstToken) <==>
              r.firstTokenAt.Some? && r.completedAt.Some? && r.completedAt.value < r.firstTokenAt.value
    ensures !Obeys(r, CompletionAfterAdmission) <==>
              r.admittedAt.Some? && r.completedAt.Some? && r.completedAt.value < r.admittedAt.value
  {
  }

  /** One violation for each rule broken, and no other. */
  method CheckOne(r: RequestSummary) returns (violations: seq<Violation>)
    ensures forall v :: v in violations <==> v.id == r.id && !Obeys(r, v.rule)
  {
    violations := [];
    if !IsTerminal(r.finalState) {
      violations := violations + [Violation(r.id, MustBeTerminal)];
    }
    if r.outputTokensEmitted > r.maxOutputTokens {
      violations := violations + [Violation(r.id, MustRespectBudget)];
    }
    if r.admittedAt.Some? && r.firstTokenAt.Some? && r.firstTokenAt.value < r.admittedAt.value {
      violations := violations + [Violation(r.id, FirstTokenAfterAdmission)];
    }
    if r.firstTokenAt.Some? && r.completedAt.Some? && r.completedAt.value < r.firstTokenAt.value {
      violations := violations + [Violation(r.id, CompletionAfterFirstToken)];
    }
    if r.admittedAt.Some? && r.completedAt.Some? && r.completedAt.value < r.admittedAt.value {
      violations := violations + [Violation(r.id, CompletionAfterAdmission)];
    }
  }

  ghost predicate Breaks(requests: seq<RequestSummary>, v: Violation) {
    exists i :: 0 <= i < |requests| && requests[i].id == v.id && !Obeys(requests[i], v.rule)
  }

  ghost predicate Clean(requests: seq<RequestSummary>) {
    forall i, rule | 0 <= i < |requests| :: Obeys(requests[i], rule)
  }

  lemma BreaksAppend(requests: seq<RequestSummary>, r: RequestSummary, v: Violation)
    ensures Breaks(requests + [r], v) <==> Breaks(requests, v) || (v.id == r.id && !Obeys(r, v.rule))
  {
    var all := requests + [r];
    if Breaks(requests, v) {
      var i :| 0 <= i < |requests| && requests[i].id == v.id && !Obeys(requests[i], v.rule);
      assert all[i] == requests[i];
    }
    if v.id == r.id && !Obeys(r, v.rule) {
      assert all[|requests|] == r;
    }
  }

  /** Reports every broken rule and nothing else; so the report is empty exactly for clean results. */
  method CheckInvariants(requests: seq<RequestSummary>) returns (violations: seq<Violation>)
    ensures forall v :: v in violations <==> Breaks(requests, v)
    ensures violations == [] <==> Clean(requests)
  {
    violations := [];
    var k := 0;
    while k < |requests|
      invariant 0 <= k <= |requests|
      invariant forall v :: v in violations <==> Breaks(requests[..k], v)
    {
      var found := CheckOne(requests[k]);
      assert requests[..k + 1] == requests[..k] + [requests[k]];
      forall v
        ensures v in violations + found <==> Breaks(requests[..k + 1], v)
      {
        BreaksAppend(requests[..k], requests[k], v);
      }
      violations := violations + found;
      k := k + 1;
    }
    assert requests[..|requests|] == requests;
    EmptyIsClean(requests, violations);
  }

  lemma EmptyIsClean(requests: seq<RequestSummary>, violations: seq<Violation>)
    requires forall v :: v in violations <==> Breaks(requests, v)
    ensures violations == [] <==> Clean(requests)
  {
    if violations == [] {
      forall i, rule | 0 <= i < |requests|
        ensures Obeys(requests[i], rule)
      {
        assert Violation(requests[i].id, rule) !in violations;
      }
    } else {
      assert violations[0] in violations;
    }
  }
}
