/** The operators finish a request under an open window too: each settling call is
  deferred by any delay, and a tick that follows converges it. */
module Rounds {
  import opened Entities
  import opened Tables
  import opened Operations
  import opened Lifecycle
  import opened Invariants
  import opened Runs
  import opened Ticks
  import opened Calls
  import opened Liveness
  import opened Waiting
  import opened Replay

  /** The same call under an open window. */
  function Later(c: Call, id: RequestId, delay: nat): Call
    requires Forward(c, id)
  {
    match c
    case AcceptCall(_, _, _, _) => AcceptCall(id, true, None, Deferred(delay))
    case ProcessCall(_, _) => ProcessCall(id, Deferred(delay))
    case ConfirmCall(_, _) => ConfirmCall(id, Deferred(delay))
  }

  /** The request as the call leaves its confirmers, whether or not it settles the step. */
  function Counted(d: Dossier, caller: OperatorId, c: Call): Dossier {
    if c.ConfirmCall? then Confirmed(d, caller) else d
  }

  predicate SettlesStep(d: Dossier, m: Market, caller: OperatorId, c: Call) {
    c.ConfirmCall? ==> CountReached(Confirmed(d, caller), m)
  }

  lemma LaterEffect(s: Platform, caller: OperatorId, c: Call, id: RequestId, delay: nat)
    requires Forward(c, id) && FaultOf(s, caller, c, id).None?
    ensures var s' := Perform(s, caller, Later(c, id, delay));
      && id in s.requests && id in s'.requests && InProgress(s.requests[id]) && s.requests[id].request.deadline.None?
      && s'.market == s.market && !s'.frozen && s'.clock == s.clock
      && s'.requests[id] == if SettlesStep(s.requests[id], s.market, caller, c)
                            then WithDeadline(Counted(s.requests[id], caller, c), s.clock + delay)
                            else Counted(s.requests[id], caller, c)
  {
    hide CountReached, ExpectedConfirmers;
  }

  lemma DeadlineCounts(d: Dossier, m: Market, deadline: Time)
    ensures Remaining(WithDeadline(d, deadline), m) == Remaining(d, m)
  {
    ExpectedSame(d.request, WithDeadline(d, deadline).request, m.operators);
  }

  /** What a converged step leaves to do. */
  lemma SettledCounts(m: Market, d: Dossier, d': Dossier)
    requires InProgress(d) && StepSettled(m, d, d')
    requires d.request.kind == Reverse ==> d.request.step == Confirmation
    ensures d'.request.deadline.None? && (InProgress(d') || d'.request.status == RequestCompleted)
    ensures Remaining(d', m) ==
              if d.request.kind == Reverse || d.request.step == Completion then 0
              else if d.request.step == Confirmation then 1
              else Remaining(d, m) - 1
  {
    if d.request.kind == Reverse {
      var t1, t2 :| d' == Advance(m, Advance(m, d, Action, t1), Action, t2);
    } else {
      var t :| d' == Advance(m, d, Action, t);
      AdvanceCounts(d, m, t);
    }
  }

  /** What the call itself leaves to do. */
  lemma CountedCounts(s: Platform, caller: OperatorId, c: Call, id: RequestId)
    requires MarketOk(s.market) && Forward(c, id) && FaultOf(s, caller, c, id).None?
    requires QuorumHistory(s.requests[id], s.market) && HistoryShape(s.requests[id])
    ensures var d, d1 := s.requests[id], Counted(s.requests[id], caller, c);
      && d1.request == d.request
      && (if c.ConfirmCall? then d.request.step == Confirmation && Remaining(d1, s.market) == Remaining(d, s.market) - 1
          else d.request.step != Confirmation && d.request.kind != Reverse && d1 == d)
      && (c.ConfirmCall? && SettlesStep(d, s.market, caller, c)
          ==> Remaining(d1, s.market) == if d.request.kind == Reverse then 0 else 1)
  {
    hide CountReached, ExpectedConfirmers, QuorumHistory, MarketOk;
    if c.ConfirmCall? {
      ConfirmationCounts(s.requests[id], s.market, caller);
    } else {
      NotAtConfirmation(s, caller, c, id);
    }
  }

  lemma NotAtConfirmation(s: Platform, caller: OperatorId, c: Call, id: RequestId)
    requires Forward(c, id) && FaultOf(s, caller, c, id).None? && !c.ConfirmCall?
    ensures s.requests[id].request.step != Confirmation
    ensures HistoryShape(s.requests[id]) ==> s.requests[id].request.kind != Reverse
  {}

  /** A request on which operators may act. */
  ghost predicate Open(s: Platform, id: RequestId) {
    && SoundPlatform(s) && QuorumPlatform(s) && !s.frozen && id in s.requests
    && s.requests[id].request.deadline.None?
    && (InProgress(s.requests[id]) || s.requests[id].request.status == RequestCompleted)
  }

  /** The state some rounds later: so many calls fewer remain. */
  ghost predicate Closer(s: Platform, s': Platform, id: RequestId, calls: nat)
    requires id in s.requests
  {
    Open(s', id) && s'.market == s.market
    && Remaining(s'.requests[id], s.market) == Remaining(s.requests[id], s.market) - calls
  }

  /** The call of a round. */
  lemma RoundCall(s: Platform, id: RequestId, delay: nat) returns (e: Event)
    requires Open(s, id) && Remaining(s.requests[id], s.market) > 0
    ensures e.OperatorCall? && Target(e.call) == Some(id) && Possible(s, e)
    ensures var s1 := Next(s, e);
      && SoundPlatform(s1) && QuorumPlatform(s1) && !s1.frozen && s1.market == s.market && id in s1.requests
      && InProgress(s1.requests[id])
      && var d1 := s1.requests[id];
         if d1.request.deadline.Some?
         then (if d1.request.kind == Reverse || d1.request.step == Completion
               then Remaining(s.requests[id], s.market) == 1
               else if d1.request.step == Confirmation then Remaining(s.requests[id], s.market) == 2
               else Remaining(d1, s.market) == Remaining(s.requests[id], s.market))
              && (d1.request.kind == Reverse ==> d1.request.step == Confirmation)
         else Remaining(d1, s.market) == Remaining(s.requests[id], s.market) - 1
  {
    hide SoundPlatform, QuorumPlatform, Forward, FaultOf, Remaining, CountReached, WithDeadline, Perform, Later,
      HistoryShape, Sound, QuorumOk, QuorumHistory, MarketOk;
    OpenFacts(s, id);
    var caller, c := SomeoneMayAct(s, id);
    e := OperatorCall(caller, s.clock, Later(c, id, delay));
    assert At(s, s.clock) == s;
    LaterIsForward(c, id, delay);
    SoundNext(s, e);
    LaterEffect(s, caller, c, id, delay);
    CountedCounts(s, caller, c, id);
    RoundCounts(s, caller, c, id, s.clock + delay);
  }

  lemma LaterIsForward(c: Call, id: RequestId, delay: nat)
    requires Forward(c, id)
    ensures Target(Later(c, id, delay)) == Some(id) && !Later(c, id, delay).PurgeCall?
  {}

  lemma OpenFacts(s: Platform, id: RequestId)
    requires Open(s, id) && Remaining(s.requests[id], s.market) > 0
    ensures s.requests[id].request.deadline.None? && !s.frozen && SoundPlatform(s) && QuorumPlatform(s)
    ensures InProgress(s.requests[id]) && MarketOk(s.market) && QuorumHistory(s.requests[id], s.market)
    ensures HistoryShape(s.requests[id]) && Sound(s.requests[id], s.market, s.clock)
    ensures QuorumOk(s.requests[id], s.market)
    ensures !(s.requests[id].request.kind == Reverse && s.requests[id].request.step == Completion)
  {}

  lemma RoundCounts(s: Platform, caller: OperatorId, c: Call, id: RequestId, deadline: Time)
    requires id in s.requests && InProgress(s.requests[id])
    requires var d, d1 := s.requests[id], Counted(s.requests[id], caller, c);
      && d1.request == d.request
      && (if c.ConfirmCall? then d.request.step == Confirmation && Remaining(d1, s.market) == Remaining(d, s.market) - 1
          else d.request.step != Confirmation && d.request.kind != Reverse && d1 == d)
      && (c.ConfirmCall? && SettlesStep(d, s.market, caller, c)
          ==> Remaining(d1, s.market) == if d.request.kind == Reverse then 0 else 1)
    ensures var d, d1 := s.requests[id], WithDeadline(Counted(s.requests[id], caller, c), deadline);
      && d1.request.deadline.Some? && InProgress(d1) && d1.request.kind == d.request.kind
          && d1.request.step == d.request.step
      && (SettlesStep(d, s.market, caller, c) ==>
            && (if d1.request.kind == Reverse || d1.request.step == Completion then Remaining(d, s.market) == 1
                else if d1.request.step == Confirmation then Remaining(d, s.market) == 2
                else Remaining(d1, s.market) == Remaining(d, s.market))
            && (d1.request.kind == Reverse ==> d1.request.step == Confirmation))
  {
    DeadlineCounts(Counted(s.requests[id], caller, c), s.market, deadline);
    CompletionCounts(s.requests[id], s.market);
    hide SettlesStep;
  }

  lemma CompletionCounts(d: Dossier, m: Market)
    requires InProgress(d)
    ensures d.request.step == Completion && d.request.kind != Reverse ==> Remaining(d, m) == 1
  {}

  /** The tick of a round, if the call was deferred. */
  lemma RoundTick(s: Platform, id: RequestId) returns (e: Event)
    requires SoundPlatform(s) && QuorumPlatform(s) && !s.frozen && id in s.requests && InProgress(s.requests[id])
    requires s.requests[id].request.deadline.Some?
    requires s.requests[id].request.kind == Reverse ==> s.requests[id].request.step == Confirmation
    ensures e.EngineTicks? && Possible(s, e)
    ensures var s' := Next(s, e);
      && Open(s', id) && s'.market == s.market
      && Remaining(s'.requests[id], s.market) ==
           if s.requests[id].request.kind == Reverse || s.requests[id].request.step == Completion then 0
           else if s.requests[id].request.step == Confirmation then 1
           else Remaining(s.requests[id], s.market) - 1
  {
    hide SoundPlatform, QuorumPlatform, TickPossible, Tick, StepSettled, Remaining;
    var deadline := s.requests[id].request.deadline.value;
    var p := ATickIsPossible(s, if s.clock < deadline then deadline else s.clock, 0, 0);
    e := EngineTicks(p);
    assert Converges(s, e, id) by { StartsBefore(s, p); }
    TickSettles(s, p, id);
    SettledCounts(s.market, s.requests[id], Tick(s, p).requests[id]);
    SoundNext(s, e);
    TickMarket(s, p);
  }

  lemma StartsBefore(s: Platform, p: TickPlan)
    requires TickPossible(s, p) && !s.frozen
    ensures p.start <= p.dueAt
  {}

  /** A round: an accepted call, then a tick if the call settled the step. */
  lemma Round(s: Platform, id: RequestId, delay: nat) returns (round: seq<Event>)
    requires Open(s, id) && Remaining(s.requests[id], s.market) > 0
    ensures PossibleRun(s, round) && Closer(s, Exec(s, round), id, 1)
    ensures 1 <= |round| <= 2 && CallsIn(round) == 1 && CallsAndTicks(round, id)
  {
    hide SoundPlatform, QuorumPlatform, Next, Possible, Remaining, Exec, PossibleRun, CallsIn, CallsAndTicks;
    var e := RoundCall(s, id, delay);
    var s1 := Next(s, e);
    OneEvent(s, e);
    if s1.requests[id].request.deadline.None? {
      round := [e];
      RoundShape(e, e, id);
    } else {
      var tick := RoundTick(s1, id);
      RunExtends(s, [e], tick);
      round := [e] + [tick];
      RoundShape(e, tick, id);
    }
  }

  lemma RoundShape(e: Event, tick: Event, id: RequestId)
    requires e.OperatorCall? && Target(e.call) == Some(id)
    ensures CallsIn([e]) == 1 && CallsAndTicks([e], id)
    ensures tick.EngineTicks? ==> CallsIn([e] + [tick]) == 1 && CallsAndTicks([e] + [tick], id)
  {
    assert [e][..0] == [] && ([e] + [tick])[..1] == [e];
  }

  lemma OneEvent(s: Platform, e: Event)
    requires Possible(s, e)
    ensures PossibleRun(s, [e]) && Exec(s, [e]) == Next(s, e)
  {
    assert [e][..0] == [] && PossibleRun(s, []) && Exec(s, []) == s;
    hide Next, Possible;
  }

  function CallsIn(run: seq<Event>): nat {
    if run == [] then 0 else CallsIn(run[..|run| - 1]) + if run[|run| - 1].OperatorCall? then 1 else 0
  }

  /** Calls on this request and ticks, nothing else. */
  ghost predicate CallsAndTicks(run: seq<Event>, id: RequestId) {
    forall e | e in run :: e.EngineTicks? || (e.OperatorCall? && Target(e.call) == Some(id))
  }

  lemma {:induction false} RunAppends(s: Platform, a: seq<Event>, b: seq<Event>)
    requires PossibleRun(s, a) && PossibleRun(Exec(s, a), b)
    ensures PossibleRun(s, a + b) && Exec(s, a + b) == Exec(Exec(s, a), b) && CallsIn(a + b) == CallsIn(a) + CallsIn(b)
  {
    hide Next, Possible;
    if b == [] {
      assert a + b == a;
    } else {
      RunAppends(s, a, b[..|b| - 1]);
      assert (a + b)[..|a + b| - 1] == a + b[..|b| - 1];
    }
  }

  lemma NoRound(s: Platform, id: RequestId)
    requires Open(s, id)
    ensures PossibleRun(s, []) && Exec(s, []) == s && Closer(s, s, id, 0) && CallsIn([]) == 0 && CallsAndTicks([], id)
  {}

  lemma CloserStill(s: Platform, s1: Platform, s2: Platform, id: RequestId, calls: nat)
    requires id in s.requests && id in s1.requests && Closer(s, s1, id, calls) && Closer(s1, s2, id, 1)
    ensures Closer(s, s2, id, calls + 1)
  {}

  lemma {:induction false} RoundsGo(s: Platform, id: RequestId, delay: nat, calls: nat) returns (run: seq<Event>)
    requires Open(s, id) && calls <= Remaining(s.requests[id], s.market)
    ensures PossibleRun(s, run) && Closer(s, Exec(s, run), id, calls) && CallsIn(run) == calls && CallsAndTicks(run, id)
  {
    NoRound(s, id);
    hide Exec, PossibleRun, SoundPlatform, QuorumPlatform, Remaining, CallsIn;
    if calls == 0 {
      run := [];
    } else {
      var front := RoundsGo(s, id, delay, calls - 1);
      var s1 := Exec(s, front);
      var round := Round(s1, id, delay);
      RunAppends(s, front, round);
      CloserStill(s, s1, Exec(s1, round), id, calls - 1);
      run := front + round;
    }
  }

  /** Under an open window, whatever the delays: from any sound unfrozen state a request
    with nothing pending is finished by exactly the calls that remain, and ticks. */
  lemma OperatorsCanFinishLater(s: Platform, id: RequestId, delay: nat) returns (run: seq<Event>)
    requires SoundPlatform(s) && QuorumPlatform(s) && !s.frozen
    requires id in s.requests && InProgress(s.requests[id]) && s.requests[id].request.deadline.None?
    ensures PossibleRun(s, run) && CallsIn(run) == Remaining(s.requests[id], s.market) && CallsAndTicks(run, id)
    ensures id in Exec(s, run).requests && Done(Exec(s, run).requests[id])
  {
    assert Sound(s.requests[id], s.market, s.clock) && QuorumOk(s.requests[id], s.market);
    NothingRemains(s.requests[id], s.market, s.clock);
    run := RoundsGo(s, id, delay, Remaining(s.requests[id], s.market));
    NoneLeft(Exec(s, run), id);
  }

  lemma NoneLeft(s: Platform, id: RequestId)
    requires Open(s, id) && Remaining(s.requests[id], s.market) == 0
    ensures Done(s.requests[id])
  {
    assert Sound(s.requests[id], s.market, s.clock) && QuorumOk(s.requests[id], s.market);
    NothingRemains(s.requests[id], s.market, s.clock);
  }
}
