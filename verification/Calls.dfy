/** What the operators' calls achieve: nobody is ever stuck waiting for a call that
  no operator may make, and the calls still needed to finish a request are counted
  exactly. (The convergence window is closed here, its default.) */
module Calls {
  import opened Entities
  import opened Tables
  import opened Operations
  import opened Finite
  import opened Lifecycle
  import opened Invariants
  import opened Runs

  /** The calls still needed: one a step, but one per missing confirmation at
    CONFIRMATION; the last step of a REVERSE is not the operators'. */
  function Remaining(d: Dossier, m: Market): int {
    var missing := |ExpectedConfirmers(d.request, m.operators)| - |d.confirmers|;
    var last := if d.request.kind == Reverse then 0 else 1;
    if !InProgress(d) then 0
    else if d.request.step == Completion then last
    else Rank(Confirmation) - Rank(d.request.step) + missing + last
  }

  /** The three calls that bring a request forward. */
  predicate Forward(c: Call, id: RequestId) {
    || c == AcceptCall(id, true, None, Immediate)
    || c == ProcessCall(id, Immediate)
    || c == ConfirmCall(id, Immediate)
  }

  function FaultOf(s: Platform, caller: OperatorId, c: Call, id: RequestId): Option<Fault>
    requires Forward(c, id)
  {
    match c
    case AcceptCall(_, _, _, _) => AcceptFault(s, caller, id, true, None)
    case ProcessCall(_, _) => ProcessFault(s, caller, id)
    case ConfirmCall(_, _) => ConfirmFault(s, caller, id)
  }

  lemma AdvanceCounts(d: Dossier, m: Market, now: Time)
    requires InProgress(d)
    ensures var d' := Advance(m, d, Action, now);
      && d'.request.deadline.None?
      && (InProgress(d') || d'.request.status == RequestCompleted)
      && Remaining(d', m) ==
           if d.request.step == Completion then 0
           else if d.request.step == Confirmation then (if d.request.kind == Reverse then 0 else 1)
           else Remaining(d, m) - 1
  {
    ExpectedSame(d.request, Advance(m, d, Action, now).request, m.operators);
  }

  lemma CountBounded(d: Dossier, m: Market)
    requires MarketOk(m) && d.confirmers <= ExpectedSet(d, m)
    ensures |d.confirmers| <= |ExpectedConfirmers(d.request, m.operators)|
  {
    ExpectedDistinct(d.request, m.operators);
    DistinctSize(ExpectedConfirmers(d.request, m.operators));
    SubsetOfSameSize(d.confirmers, ExpectedSet(d, m));
  }

  lemma ConfirmationCounts(d: Dossier, m: Market, caller: OperatorId)
    requires MarketOk(m) && QuorumHistory(d, m) && InProgress(d) && d.request.step == Confirmation
    requires caller in ExpectedConfirmers(d.request, m.operators) && caller !in d.confirmers
    ensures Remaining(Confirmed(d, caller), m) == Remaining(d, m) - 1
    ensures CountReached(Confirmed(d, caller), m)
        <==> Remaining(Confirmed(d, caller), m) == if d.request.kind == Reverse then 0 else 1
  {
    CountBounded(Confirmed(d, caller), m);
  }

  /** The request after the call. */
  function Brought(d: Dossier, m: Market, caller: OperatorId, c: Call, now: Time): Dossier {
    if !c.ConfirmCall? then Advance(m, d, Action, now)
    else if CountReached(Confirmed(d, caller), m) then Advance(m, Confirmed(d, caller), Action, now)
    else Confirmed(d, caller)
  }

  lemma CallEffect(s: Platform, caller: OperatorId, c: Call, id: RequestId)
    requires Forward(c, id) && FaultOf(s, caller, c, id).None?
    ensures var s' := Perform(s, caller, c);
      && id in s.requests && InProgress(s.requests[id]) && s.requests[id].request.deadline.None?
      && s'.requests == s.requests[id := Brought(s.requests[id], s.market, caller, c, s.clock)]
      && s'.market == s.market && !s'.frozen
  {
    hide Transfer, Advance, CountReached, ExpectedConfirmers;
  }

  lemma BroughtCounts(s: Platform, caller: OperatorId, c: Call, id: RequestId)
    requires MarketOk(s.market) && Forward(c, id) && FaultOf(s, caller, c, id).None?
    requires QuorumHistory(s.requests[id], s.market)
    ensures var d, d' := s.requests[id], Brought(s.requests[id], s.market, caller, c, s.clock);
      && Remaining(d', s.market) == Remaining(d, s.market) - 1
      && d'.request.deadline.None? && (InProgress(d') || d'.request.status == RequestCompleted)
  {
    var d := s.requests[id];
    hide CountReached, ExpectedConfirmers, QuorumHistory, MarketOk, Advance;
    AdvanceCounts(d, s.market, s.clock);
    if c.ConfirmCall? {
      ConfirmationCounts(d, s.market, caller);
      AdvanceCounts(Confirmed(d, caller), s.market, s.clock);
    }
  }

  /** An accepted call brings its request exactly one call nearer to its end, and
    touches no other request. */
  lemma CallCounts(s: Platform, caller: OperatorId, c: Call, id: RequestId)
    requires SoundPlatform(s) && QuorumPlatform(s) && Forward(c, id) && FaultOf(s, caller, c, id).None?
    ensures var s' := Perform(s, caller, c);
      && id in s.requests && s'.requests.Keys == s.requests.Keys && s'.market == s.market && !s'.frozen
      && Remaining(s'.requests[id], s.market) == Remaining(s.requests[id], s.market) - 1
      && s'.requests[id].request.deadline.None?
      && (InProgress(s'.requests[id]) || s'.requests[id].request.status == RequestCompleted)
      && forall x | x in s.requests && x != id :: s'.requests[x] == s.requests[x]
  {
    CallEffect(s, caller, c, id);
    assert QuorumOk(s.requests[id], s.market);
    MarketIsOk(s);
    hide Perform, Brought, Remaining, FaultOf, Forward, SoundPlatform, MarketOk, QuorumWait;
    BroughtCounts(s, caller, c, id);
  }

  lemma MarketIsOk(s: Platform)
    requires SoundPlatform(s)
    ensures MarketOk(s.market)
  {}

  /** Some expected operator has not confirmed yet. */
  lemma SomeoneMissing(d: Dossier, m: Market, now: Time) returns (caller: OperatorId)
    requires MarketOk(m) && Sound(d, m, now) && QuorumOk(d, m)
    requires InProgress(d) && d.request.step == Confirmation && d.request.deadline.None?
    ensures caller in ExpectedConfirmers(d.request, m.operators) && caller !in d.confirmers && caller in m.prefixes
  {
    ExpectedIsFilter(d.request, m.operators);
    var party := if d.request.kind == Porting then d.request.source else d.request.recipient;
    assert party in ExpectedSet(d, m);
    CountIsCoverage(d, m);
    ExpectedDistinct(d.request, m.operators);
    var expected := ExpectedConfirmers(d.request, m.operators);
    var k := OneOutside(expected, d.confirmers);
    caller := expected[k];
    assert caller in ExpectedConfirmers(d.request, m.operators) && caller in m.operators;
    assert caller in (set op | op in m.operators);
  }

  /** Nobody is stuck: whatever the state, a request in progress with nothing pending
    can be brought forward by some operator, except a REVERSE that only awaits the
    ARTP. */
  lemma SomeoneMayAct(s: Platform, id: RequestId) returns (caller: OperatorId, c: Call)
    requires SoundPlatform(s) && QuorumPlatform(s) && !s.frozen
    requires id in s.requests && InProgress(s.requests[id]) && s.requests[id].request.deadline.None?
    requires !(s.requests[id].request.kind == Reverse && s.requests[id].request.step == Completion)
    ensures caller in s.market.prefixes && Forward(c, id) && FaultOf(s, caller, c, id).None?
  {
    var d := s.requests[id];
    assert Sound(d, s.market, s.clock) && QuorumOk(d, s.market);
    match d.request.step
    case Acceptance => caller, c := d.request.source, AcceptCall(id, true, None, Immediate);
    case Deactivation => caller, c := d.request.source, ProcessCall(id, Immediate);
    case Activation => caller, c := d.request.recipient, ProcessCall(id, Immediate);
    case Completion => caller, c := d.request.recipient, ProcessCall(id, Immediate);
    case Confirmation =>
      caller := SomeoneMissing(d, s.market, s.clock);
      c := ConfirmCall(id, Immediate);
  }

  /** What the operators can bring a request to: its end, or the COMPLETION of a
    REVERSE, which the next tick pronounces. */
  predicate Done(d: Dossier) {
    if d.request.kind == Reverse then d.request.step == Completion else d.request.status == RequestCompleted
  }

  lemma NothingRemains(d: Dossier, m: Market, now: Time)
    requires MarketOk(m) && Sound(d, m, now) && QuorumOk(d, m) && d.request.deadline.None?
    ensures Remaining(d, m) >= 0
    ensures InProgress(d) ==> (Remaining(d, m) == 0 <==> d.request.kind == Reverse && d.request.step == Completion)
  {
    CountBounded(d, m);
    CountIsCoverage(d, m);
    ExpectedIsFilter(d.request, m.operators);
    assert d.request.kind != Porting ==> d.request.recipient in ExpectedSet(d, m);
  }

  ghost predicate OnlyForward(run: seq<Event>, id: RequestId) {
    forall e | e in run :: e.OperatorCall? && Forward(e.call, id)
  }

  /** The state some calls later. */
  ghost predicate Nearer(s: Platform, s': Platform, id: RequestId, calls: nat)
    requires id in s.requests
  {
    && SoundPlatform(s') && QuorumPlatform(s') && s'.market == s.market && !s'.frozen && id in s'.requests
    && s'.requests[id].request.deadline.None?
    && Remaining(s'.requests[id], s.market) == Remaining(s.requests[id], s.market) - calls
    && (InProgress(s'.requests[id]) || s'.requests[id].request.status == RequestCompleted)
    && forall x | x in s.requests && x != id :: x in s'.requests && s'.requests[x] == s.requests[x]
  }

  lemma NoCall(s: Platform, id: RequestId)
    requires SoundPlatform(s) && QuorumPlatform(s) && !s.frozen
    requires id in s.requests && InProgress(s.requests[id]) && s.requests[id].request.deadline.None?
    ensures PossibleRun(s, []) && Exec(s, []) == s && Nearer(s, s, id, 0) && OnlyForward([], id)
  {}

  lemma OneMoreForward(run: seq<Event>, e: Event, id: RequestId)
    requires OnlyForward(run, id) && e.OperatorCall? && Forward(e.call, id)
    ensures OnlyForward(run + [e], id)
  {}

  lemma {:induction false} OperatorsCanGo(s: Platform, id: RequestId, calls: nat) returns (run: seq<Event>)
    requires SoundPlatform(s) && QuorumPlatform(s) && !s.frozen
    requires id in s.requests && InProgress(s.requests[id]) && s.requests[id].request.deadline.None?
    requires calls <= Remaining(s.requests[id], s.market)
    ensures |run| == calls && OnlyForward(run, id) && PossibleRun(s, run) && Nearer(s, Exec(s, run), id, calls)
  {
    NoCall(s, id);
    hide SoundPlatform, QuorumPlatform, Next, Possible, Remaining, Nearer, Exec, PossibleRun, Forward, OnlyForward;
    if calls == 0 {
      run := [];
    } else {
      var front := OperatorsCanGo(s, id, calls - 1);
      var s1 := Exec(s, front);
      var e := NextCall(s, s1, id, calls - 1);
      RunExtends(s, front, e);
      OneMoreForward(front, e, id);
      run := front + [e];
    }
  }

  lemma NextCall(s: Platform, s1: Platform, id: RequestId, calls: nat) returns (e: Event)
    requires id in s.requests && Nearer(s, s1, id, calls) && calls < Remaining(s.requests[id], s.market)
    ensures e.OperatorCall? && Forward(e.call, id) && Possible(s1, e) && Nearer(s, Next(s1, e), id, calls + 1)
  {
    var caller, c := SomeoneMayAct(s1, id);
    e := OperatorCall(caller, s1.clock, c);
    assert At(s1, s1.clock) == s1;
    CallCounts(s1, caller, c, id);
    NextKeeps(s1, e, map[]);
  }

  /** From any sound state, the operators alone can finish any request in progress
    with nothing pending, in exactly as many calls as remain, touching no other
    request: a PORTAGE from its creation in four calls plus one for each operator
    but the recipient. */
  lemma OperatorsCanFinish(s: Platform, id: RequestId) returns (run: seq<Event>)
    requires SoundPlatform(s) && QuorumPlatform(s) && !s.frozen
    requires id in s.requests && InProgress(s.requests[id]) && s.requests[id].request.deadline.None?
    ensures |run| == Remaining(s.requests[id], s.market) && OnlyForward(run, id) && PossibleRun(s, run)
    ensures var s' := Exec(s, run);
      && id in s'.requests && Done(s'.requests[id])
      && forall x | x in s.requests && x != id :: x in s'.requests && s'.requests[x] == s.requests[x]
  {
    assert Sound(s.requests[id], s.market, s.clock) && QuorumOk(s.requests[id], s.market);
    NothingRemains(s.requests[id], s.market, s.clock);
    run := OperatorsCanGo(s, id, Remaining(s.requests[id], s.market));
    var s' := Exec(s, run);
    NothingRemains(s'.requests[id], s'.market, s'.clock);
  }
}
