/** A concrete run in which a REVERSE ends and its number is not home at the end of the
  tick: overdue at COMPLETION, it is closed by an expiration, and a porting overdue at
  ACTIVATION takes the number later in the same pass. */
module Overtaken {
  import opened Entities
  import opened Tables
  import opened Operations
  import opened Runs
  import opened Ticks
  import opened Deferral

  const HOME: OperatorId := 0
  const HOLDER: OperatorId := 1
  const ASKER: OperatorId := 2
  const NUMBER: Msisdn := 7
  const PORTING: RequestId := 0
  const DEMAND: RequestId := 1
  const REVERSE: RequestId := 2

  function TheMarket(): Market {
    Market([HOME, HOLDER, ASKER], map[HOME := 10, HOLDER := 11, ASKER := 12], {})
  }

  function Seeded(): Platform {
    Platform(TheMarket(), 0, 0, false, map[], map[NUMBER := RegistryEntry(HOLDER, HOME, None, false)], map[])
  }

  /** Both steps have been open for a unit of time; the database lists the REVERSE first. */
  function LateTick(): TickPlan {
    TickPlan(1, 0, 9, 9, 9, [], [Job(REVERSE, 9), Job(PORTING, 9)], [], [])
  }

  function Calls(): seq<Event> {
    [OperatorCall(ASKER, 1, CreateIndividualCall(NUMBER, HOLDER, ASKER, true)),
     OperatorCall(HOLDER, 2, AcceptCall(PORTING, true, None, Immediate)),
     OperatorCall(HOLDER, 3, ProcessCall(PORTING, Immediate)),
     OperatorCall(HOME, 4, SubmitReverseCall(NUMBER)),
     ArtpValidates(5, DEMAND),
     OperatorCall(HOME, 6, ConfirmCall(REVERSE, Immediate)),
     OperatorCall(HOLDER, 7, ConfirmCall(REVERSE, Immediate)),
     OperatorCall(ASKER, 8, ConfirmCall(REVERSE, Immediate))]
  }

  // ---- The states of the run ------------------------------------------------------------

  function P0(): Dossier {
    NewDossier(NewRequest(NUMBER, Individual, Porting, Acceptance, HOLDER, ASKER, Some(11), 1),
               SingleRow(NUMBER, Some(11)))
  }
  function P1(): Dossier { Advance(TheMarket(), P0(), Action, 2) }
  function P2(): Dossier { Advance(TheMarket(), P1(), Action, 3) }
  function R0(): Dossier {
    NewDossier(NewRequest(NUMBER, Individual, Reverse, Confirmation, HOLDER, HOME, None, 5), SingleRow(NUMBER, None))
  }
  function R1(): Dossier { Confirmed(R0(), HOME) }
  function R2(): Dossier { Confirmed(R1(), HOLDER) }
  function R3(): Dossier { Advance(TheMarket(), Confirmed(R2(), ASKER), Action, 8) }

  function TheDemand(): ReverseRequest {
    ReverseRequest(NUMBER, HOME, ReversePending, 4, None)
  }

  function Alone(now: Time, porting: Dossier): Platform {
    Seeded().(clock := now, nextId := 1, requests := map[PORTING := porting])
  }

  function Asked(): Platform {
    Alone(4, P2()).(nextId := 2, reverses := map[DEMAND := TheDemand()])
  }

  function Both(now: Time, reverse: Dossier): Platform {
    Asked().(clock := now, nextId := 3, requests := map[PORTING := P2(), REVERSE := reverse],
             reverses := map[DEMAND := TheDemand().(status := ReverseValidated, request := Some(REVERSE))])
  }

  lemma Creates()
    ensures Next(Seeded(), Calls()[0]) == Alone(1, P0())
  {}

  lemma Unmoved(registry: Registry, recipient: OperatorId, restitution: bool, now: Time)
    ensures Transfer(registry, {}, recipient, restitution, now) == registry
  {}

  lemma Accepts()
    ensures Next(Alone(1, P0()), Calls()[1]) == Alone(2, P1())
  {
    Unmoved(Seeded().registry, ASKER, false, 2);
  }

  lemma Processes()
    ensures Next(Alone(2, P1()), Calls()[2]) == Alone(3, P2())
  {
    Unmoved(Seeded().registry, ASKER, false, 3);
  }

  lemma Submits()
    ensures Next(Alone(3, P2()), Calls()[3]) == Asked()
  {
    hide P2;
  }

  lemma Validates()
    ensures Next(Asked(), Calls()[4]) == Both(5, R0())
  {
    hide P2;
    assert map[PORTING := P2()][REVERSE := R0()] == map[PORTING := P2(), REVERSE := R0()];
  }

  lemma AllConfirm(r: Request)
    requires r.kind == Reverse
    ensures ExpectedConfirmers(r, [HOME, HOLDER, ASKER]) == [HOME, HOLDER, ASKER]
  {
    var ops := [HOME, HOLDER, ASKER];
    assert ops[..2] == [HOME, HOLDER] && ops[..2][..1] == [HOME] && [HOME][..0] == [];
    assert ExpectedConfirmers(r, [HOME]) == [HOME];
    assert ExpectedConfirmers(r, [HOME, HOLDER]) == [HOME, HOLDER];
  }

  /** A confirmation that does not settle the step. */
  lemma OneConfirms(s: Platform, at: Time, caller: OperatorId, id: RequestId)
    requires ConfirmFault(At(s, at), caller, id).None? && !CountReached(Confirmed(s.requests[id], caller), s.market)
    ensures Next(s, OperatorCall(caller, at, ConfirmCall(id, Immediate)))
            == Put(At(s, at), id, Confirmed(s.requests[id], caller))
  {}

  /** One and two confirmations out of three settle nothing. */
  lemma TooFew()
    ensures ConfirmFault(Both(6, R0()), HOME, REVERSE).None? && !CountReached(R1(), TheMarket())
    ensures ConfirmFault(Both(7, R1()), HOLDER, REVERSE).None? && !CountReached(R2(), TheMarket())
  {
    hide P2;
    AllConfirm(R0().request);
    FewConfirmers();
  }

  lemma FewConfirmers()
    ensures R1().confirmers == {HOME} && |R1().confirmers| == 1
    ensures R2().confirmers == {HOME} + {HOLDER} && |R2().confirmers| == 2 && ASKER !in R2().confirmers
  {}

  lemma PutReverse(now: Time, later: Time, d: Dossier, d': Dossier)
    ensures Put(At(Both(now, d), later), REVERSE, d') == Both(later, d')
    ensures At(Both(now, d), later) == Both(later, d)
    ensures REVERSE in Both(now, d).requests && Both(now, d).requests[REVERSE] == d
    ensures Both(now, d).market == TheMarket()
  {
    hide P2;
    assert Both(now, d).requests[REVERSE := d'] == Both(later, d').requests;
  }

  lemma FirstConfirms()
    ensures Next(Both(5, R0()), Calls()[5]) == Both(6, R1())
  {
    TooFew();
    hide P2, R0, Both, TheMarket, ConfirmFault, CountReached, Next;
    PutReverse(5, 6, R0(), R1());
    OneConfirms(Both(5, R0()), 6, HOME, REVERSE);
  }

  lemma SecondConfirms()
    ensures Next(Both(6, R1()), Calls()[6]) == Both(7, R2())
  {
    TooFew();
    hide P2, R1, Both, TheMarket, ConfirmFault, CountReached, Next;
    PutReverse(6, 7, R1(), R2());
    OneConfirms(Both(6, R1()), 7, HOLDER, REVERSE);
  }

  /** The confirmation that settles the step. */
  lemma SettlingConfirms(s: Platform, at: Time, caller: OperatorId, id: RequestId)
    requires ConfirmFault(At(s, at), caller, id).None? && CountReached(Confirmed(s.requests[id], caller), s.market)
    ensures Next(s, OperatorCall(caller, at, ConfirmCall(id, Immediate)))
            == ApplyTransition(Put(At(s, at), id, Confirmed(s.requests[id], caller)), id, Action)
  {
    hide ApplyTransition;
  }

  lemma Enough()
    ensures ConfirmFault(Both(8, R2()), ASKER, REVERSE).None? && CountReached(Confirmed(R2(), ASKER), TheMarket())
  {
    hide P2;
    AllConfirm(R0().request);
    FewConfirmers();
    OneMore(R2().confirmers, ASKER);
    assert Confirmed(R2(), ASKER).confirmers == R2().confirmers + {ASKER};
  }

  lemma OneMore(a: set<OperatorId>, x: OperatorId)
    requires x !in a
    ensures |a + {x}| == |a| + 1
  {}

  lemma ReverseAdvances()
    ensures ApplyTransition(Both(8, Confirmed(R2(), ASKER)), REVERSE, Action) == Both(8, R3())
  {
    hide P2;
    Unmoved(Seeded().registry, HOME, true, 8);
    assert Both(8, Confirmed(R2(), ASKER)).requests[REVERSE := R3()] == Both(8, R3()).requests;
  }

  lemma LastConfirms()
    ensures Next(Both(7, R2()), Calls()[7]) == Both(8, R3())
  {
    Enough();
    ReverseAdvances();
    hide P2, R2, R3, Both, TheMarket, ConfirmFault, CountReached, Next, ApplyTransition;
    PutReverse(7, 8, R2(), Confirmed(R2(), ASKER));
    SettlingConfirms(Both(7, R2()), 8, ASKER, REVERSE);
  }

  lemma CallsArePossible()
    ensures Possible(Seeded(), Calls()[0]) && Possible(Alone(1, P0()), Calls()[1])
    ensures Possible(Alone(2, P1()), Calls()[2]) && Possible(Alone(3, P2()), Calls()[3])
    ensures Possible(Asked(), Calls()[4])
    ensures Possible(Both(5, R0()), Calls()[5]) && Possible(Both(6, R1()), Calls()[6])
    ensures Possible(Both(7, R2()), Calls()[7])
  {
    hide P0, P1, P2, R0, R1, R2;
  }

  lemma CallByCall(run: seq<Event>)
    requires |run| == 8
    ensures run == [] + [run[0]] + [run[1]] + [run[2]] + [run[3]] + [run[4]] + [run[5]] + [run[6]] + [run[7]]
  {}

  lemma Reached()
    ensures PossibleRun(Seeded(), Calls()) && Exec(Seeded(), Calls()) == Both(8, R3())
  {
    var s, run := Seeded(), Calls();
    assert PossibleRun(s, []) && Exec(s, []) == s;
    hide Next, Possible, Exec, PossibleRun, Seeded, Alone, Asked, Both, P0, P1, P2, R0, R1, R2, R3;
    Creates();
    Accepts();
    Processes();
    Submits();
    Validates();
    FirstConfirms();
    SecondConfirms();
    LastConfirms();
    CallsArePossible();
    CallByCall(run);
    hide Calls;
    var run1 := [] + [run[0]];
    RunExtends(s, [], run[0]);
    var run2 := run1 + [run[1]];
    RunExtends(s, run1, run[1]);
    var run3 := run2 + [run[2]];
    RunExtends(s, run2, run[2]);
    var run4 := run3 + [run[3]];
    RunExtends(s, run3, run[3]);
    var run5 := run4 + [run[4]];
    RunExtends(s, run4, run[4]);
    var run6 := run5 + [run[5]];
    RunExtends(s, run5, run[5]);
    var run7 := run6 + [run[6]];
    RunExtends(s, run6, run[6]);
    RunExtends(s, run7, run[7]);
  }

  // ---- The tick ---------------------------------------------------------------------------

  lemma PortingFacts()
    ensures var d := P2();
      && InProgress(d) && d.request.kind == Porting && d.request.step == Activation && d.request.deadline.None?
      && d.request.stepStart == 3 && d.request.recipient == ASKER && d.numbers.Keys == {NUMBER} && Active(d, NUMBER)
  {}

  lemma ReverseFacts()
    ensures var d := R3();
      && InProgress(d) && d.request.kind == Reverse && d.request.step == Completion && d.request.deadline.None?
      && d.request.stepStart == 8 && d.request.recipient == HOME && d.request.msisdn == NUMBER
  {}

  function Before(): Platform { Both(8, R3()) }
  function Middle(): Platform { ApplyTransition(At(Before(), 9), REVERSE, Expiration) }
  function After(): Platform { ApplyTransition(At(Middle(), 9), PORTING, Expiration) }

  lemma TwoJobs(s: Platform, a: Job, b: Job, origin: Origin)
    ensures ApplyAll(s, [a, b], origin)
            == ApplyTransition(At(ApplyTransition(At(s, a.at), a.id, origin), b.at), b.id, origin)
  {
    assert [a, b][..1] == [a] && [a][..0] == [];
    assert ApplyAll(s, [], origin) == s;
    assert ApplyAll(s, [a], origin) == ApplyTransition(At(s, a.at), a.id, origin);
  }

  lemma ReverseEnds()
    ensures var s := Middle();
      && s.requests.Keys == {PORTING, REVERSE} && s.requests[PORTING] == P2() && !InProgress(s.requests[REVERSE])
      && s.registry.Keys == {NUMBER} && s.registry[NUMBER].holder == HOME && s.registry[NUMBER].origin == HOME
      && s.reverses.Keys == {DEMAND} && s.clock == 9 && !s.frozen && s.market == TheMarket()
  {
    PortingFacts();
    ReverseFacts();
    hide P2, R3;
  }

  lemma PortingTakes()
    ensures var s := After();
      && s.requests.Keys == {PORTING, REVERSE} && s.requests[REVERSE] == Middle().requests[REVERSE]
      && s.requests[PORTING].request.kind == Porting && s.requests[PORTING].request.step == Confirmation
      && s.registry.Keys == {NUMBER} && s.registry[NUMBER].holder == ASKER && s.registry[NUMBER].origin == HOME
      && s.clock == 9 && !s.frozen && s.market == TheMarket()
  {
    PortingFacts();
    ReverseEnds();
    hide P2, Middle;
  }

  lemma BothOverdue()
    ensures DueConvergences(Before(), 9) == {} && OverdueSteps(At(Before(), 9), 1, 9) == {PORTING, REVERSE}
  {
    PortingFacts();
    ReverseFacts();
    hide P2, R3;
  }

  lemma NothingAwaits()
    ensures PendingReverseCompletions(After()) == {}
  {
    ReverseEnds();
    PortingTakes();
    hide After, Middle;
  }

  lemma Ticked()
    ensures Converged(Before(), LateTick()) == At(Before(), 9) && Expired(Before(), LateTick()) == After()
    ensures Validated(Before(), LateTick()) == After() && Tick(Before(), LateTick()) == After()
  {
    var p := LateTick();
    PortingTakes();
    hide Before, After, Middle, ApplyTransition;
    assert Converged(Before(), p) == At(Before(), 9);
    TwoJobs(At(Before(), 9), p.expire[0], p.expire[1], Expiration);
    Unfolds();
    assert At(After(), 9) == After();
    NotFrozen();
  }

  lemma Unfolds()
    ensures After() == ApplyTransition(At(ApplyTransition(At(At(Before(), 9), 9), REVERSE, Expiration), 9), PORTING,
        Expiration)
  {
    hide Before, ApplyTransition;
  }

  lemma NotFrozen()
    ensures !Before().frozen && Before().clock == 8
  {}

  lemma TickIsPossible()
    ensures TickPossible(Before(), LateTick()) && !Before().frozen
  {
    hide Before, After, Converged, Expired, Validated, DueConvergences, OverdueSteps, PendingReverseCompletions;
    Ticked();
    BothOverdue();
    NothingAwaits();
    NotFrozen();
    PortingTakes();
    ExpiresBoth(At(Before(), 9), LateTick());
  }

  lemma ExpiresBoth(s: Platform, p: TickPlan)
    requires p == LateTick() && s.clock == 9 && OverdueSteps(s, 1, 9) == {PORTING, REVERSE}
    ensures ExpirePossible(s, p)
  {
    var ids := OverdueSteps(s, 1, 9);
    hide OverdueSteps;
    assert forall i | 0 <= i < 2 :: p.expire[i].id in ids;
    assert p.expire[0].id == REVERSE && p.expire[1].id == PORTING;
  }

  lemma SeededIsInitial()
    ensures Initial(Seeded())
  {}

  /** So the exception is real: the REVERSE ended, overdue at COMPLETION, and its number
    is with the porting's recipient, not with its origin. */
  lemma OverdueReverseIsOvertaken()
    ensures var s, s' := Exec(Seeded(), Calls()), Tick(Exec(Seeded(), Calls()), LateTick());
      && Reaches(Seeded(), Calls(), s) && TickPossible(s, LateTick()) && !s.frozen
      && REVERSE in s.requests && InProgress(s.requests[REVERSE]) && s.requests[REVERSE].request.kind == Reverse
      && s.requests[REVERSE].request.step == Completion && s.requests[REVERSE].request.msisdn == NUMBER
      && Expires(s.requests[REVERSE], LateTick())
      && REVERSE in s'.requests && !InProgress(s'.requests[REVERSE])
      && NUMBER in s'.registry && !Home(s', NUMBER) && s'.registry[NUMBER].holder == ASKER
  {
    Reached();
    SeededIsInitial();
    TickIsPossible();
    Ticked();
    ReverseFacts();
    ReverseEnds();
    PortingTakes();
    hide Exec, PossibleRun, Initial, Calls, Tick, TickPossible, After, Middle, R3, P2;
  }
}
