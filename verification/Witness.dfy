/** Concrete runs. A REVERSE completes on a number that a porting in progress still
  expects from its source; a queue shows a step that was already handled. */
module Witness {
  import opened Entities
  import opened Tables
  import opened Operations
  import opened Invariants
  import opened Runs

  const HOME: OperatorId := 0
  const HOLDER: OperatorId := 1
  const NUMBER: Msisdn := 7
  const PORTING: RequestId := 0
  const DEMAND: RequestId := 1
  const REVERSE: RequestId := 2

  function Seeded(): Platform {
    Platform(Market([HOME, HOLDER], map[HOME := 10, HOLDER := 11], {}),
             0, 0, false, map[], map[NUMBER := RegistryEntry(HOLDER, HOME, None, false)], map[])
  }

  function Finish(): TickPlan {
    TickPlan(0, 0, 6, 6, 6, [], [], [], [CompletionJob(REVERSE, false, 6, 6)])
  }

  /** The home operator asks for its number both ways, as a porting and as a reverse. */
  function BothWays(): seq<Event> {
    [OperatorCall(HOME, 1, CreateIndividualCall(NUMBER, HOLDER, HOME, true)),
     OperatorCall(HOME, 2, SubmitReverseCall(NUMBER)),
     ArtpValidates(3, DEMAND),
     OperatorCall(HOME, 4, ConfirmCall(REVERSE, Immediate)),
     OperatorCall(HOLDER, 5, ConfirmCall(REVERSE, Immediate)),
     EngineTicks(Finish())]
  }

  function ThePorting(): Dossier {
    NewDossier(NewRequest(NUMBER, Individual, Porting, Acceptance, HOLDER, HOME, Some(11), 1),
        SingleRow(NUMBER, Some(11)))
  }

  function TheReverse(): Dossier {
    NewDossier(NewRequest(NUMBER, Individual, Reverse, Confirmation, HOLDER, HOME, None, 3), SingleRow(NUMBER, None))
  }

  function TheDemand(): ReverseRequest {
    ReverseRequest(NUMBER, HOME, ReversePending, 2, None)
  }

  /** The reverse, confirmed by both, at COMPLETION. */
  function Settled(): Dossier {
    Advance(Seeded().market, Confirmed(Confirmed(TheReverse(), HOME), HOLDER), Action, 5)
  }

  function S1(): Platform { Seeded().(clock := 1, nextId := 1, requests := map[PORTING := ThePorting()]) }
  function S2(): Platform { S1().(clock := 2, nextId := 2, reverses := map[DEMAND := TheDemand()]) }
  function S3(): Platform {
    S2().(clock := 3, nextId := 3, requests := map[PORTING := ThePorting(), REVERSE := TheReverse()],
          reverses := map[DEMAND := TheDemand().(status := ReverseValidated, request := Some(REVERSE))])
  }
  function S4(): Platform {
    S3().(clock := 4, requests := map[PORTING := ThePorting(), REVERSE := Confirmed(TheReverse(), HOME)])
  }
  function S5(): Platform {
    S4().(clock := 5, requests := map[PORTING := ThePorting(), REVERSE := Settled()])
  }
  function S6(): Platform { CompleteOne(S5(), CompletionJob(REVERSE, false, 6, 6)) }

  lemma Creates()
    ensures Next(Seeded(), BothWays()[0]) == S1()
  {}

  lemma Submits()
    ensures Next(S1(), BothWays()[1]) == S2()
  {}

  lemma Validates()
    ensures Next(S2(), BothWays()[2]) == S3()
  {
    assert map[PORTING := ThePorting()][REVERSE := TheReverse()]
           == map[PORTING := ThePorting(), REVERSE := TheReverse()];
  }

  lemma TwoConfirmers(r: Request)
    requires r.kind == Reverse
    ensures ExpectedConfirmers(r, [HOME, HOLDER]) == [HOME, HOLDER]
  {
    assert [HOME, HOLDER][..1] == [HOME] && [HOME][..0] == [];
    assert ExpectedConfirmers(r, [HOME]) == [HOME];
  }

  lemma FirstConfirms()
    ensures Next(S3(), BothWays()[3]) == S4()
  {
    TwoConfirmers(TheReverse().request);
    var d := Confirmed(TheReverse(), HOME);
    assert S3().requests[REVERSE := d] == S4().requests;
    assert |d.confirmers| == 1;
  }

  lemma SecondConfirms()
    ensures Next(S4(), BothWays()[4]) == S5()
  {
    hide ThePorting;
    TwoConfirmers(TheReverse().request);
    var d := Confirmed(Confirmed(TheReverse(), HOME), HOLDER);
    assert |d.confirmers| == 2;
    assert S4().requests[REVERSE := d][REVERSE := Settled()] == S5().requests;
  }

  lemma SettledFacts()
    ensures var d := Settled();
      InProgress(d) && d.request.step == Completion && d.request.kind == Reverse && d.request.deadline.None?
      && d.request.msisdn == NUMBER && d.request.recipient == HOME
  {}

  lemma PortingFacts()
    ensures var d := ThePorting(); d.request.kind == Porting && d.request.deadline.None?
  {}

  lemma OnlyTheReverseAwaits()
    ensures DueConvergences(S5(), 6) == {} && PendingReverseCompletions(At(S5(), 6)) == {REVERSE}
  {
    SettledFacts();
    PortingFacts();
    hide Settled, ThePorting;
  }

  lemma Finishes()
    ensures TickPossible(S5(), Finish()) && Next(S5(), BothWays()[5]) == S6()
  {
    OnlyTheReverseAwaits();
    SettledFacts();
    hide Settled, ThePorting, DueConvergences, PendingReverseCompletions;
    assert Converged(S5(), Finish()) == At(S5(), 6);
    assert Expired(S5(), Finish()) == At(S5(), 6);
    assert Validated(S5(), Finish()) == At(S5(), 6);
    OneCompletion(At(S5(), 6), Finish().complete[0]);
    assert At(At(S5(), 6), 6) == At(S5(), 6);
  }

  lemma OneCompletion(s: Platform, j: CompletionJob)
    ensures CompleteAll(s, [j]) == CompleteOne(s, j)
  {
    assert [j][..0] == [];
    assert CompleteAll(s, []) == s;
  }

  lemma AllPossible()
    ensures Possible(Seeded(), BothWays()[0]) && Possible(S1(), BothWays()[1]) && Possible(S2(), BothWays()[2])
    ensures Possible(S3(), BothWays()[3]) && Possible(S4(), BothWays()[4])
  {}

  lemma EventByEvent(run: seq<Event>)
    requires |run| == 6
    ensures run == [] + [run[0]] + [run[1]] + [run[2]] + [run[3]] + [run[4]] + [run[5]]
  {}

  lemma Reached()
    ensures PossibleRun(Seeded(), BothWays()) && Exec(Seeded(), BothWays()) == S6()
  {
    var s, run := Seeded(), BothWays();
    Creates();
    Submits();
    Validates();
    FirstConfirms();
    SecondConfirms();
    Finishes();
    AllPossible();
    assert Possible(S5(), run[5]) && PossibleRun(s, []) && Exec(s, []) == s;
    EventByEvent(run);
    hide Next, Possible, Seeded, S1, S2, S3, S4, S5, S6, Exec, PossibleRun, BothWays;
    RunExtends(s, [], run[0]);
    RunExtends(s, [] + [run[0]], run[1]);
    RunExtends(s, [] + [run[0]] + [run[1]], run[2]);
    RunExtends(s, [] + [run[0]] + [run[1]] + [run[2]], run[3]);
    RunExtends(s, [] + [run[0]] + [run[1]] + [run[2]] + [run[3]], run[4]);
    RunExtends(s, [] + [run[0]] + [run[1]] + [run[2]] + [run[3]] + [run[4]], run[5]);
  }

  lemma SeededIsInitial()
    ensures Initial(Seeded()) && PurgeFree(BothWays())
  {}

  lemma FinalHolder()
    ensures PORTING in S6().requests && S6().requests[PORTING] == ThePorting()
    ensures NUMBER in S6().registry && S6().registry[NUMBER].holder == HOME
  {
    SettledFacts();
    hide Settled, ThePorting, Advance;
    assert S5().requests[REVERSE] == Settled() && S5().requests[PORTING] == ThePorting();
    assert Departing(Settled()) == {NUMBER};
  }

  lemma PortingClaims()
    ensures Claims(ThePorting(), NUMBER) && ExpectedHolder(ThePorting()) == HOLDER
  {}

  /** So, without purge, a number claimed by a porting at ACCEPTATION need not be with
    its source: submitting and validating a reverse never look at the flag. */
  lemma ReverseMovesAClaimedNumber()
    ensures var s' := Exec(Seeded(), BothWays());
      && Reaches(Seeded(), BothWays(), s') && PurgeFree(BothWays()) && Spared(Seeded(), BothWays(), NUMBER)
      && PORTING in s'.requests && Claims(s'.requests[PORTING], NUMBER) && NUMBER in s'.registry
      && ExpectedHolder(s'.requests[PORTING]) == HOLDER && s'.registry[NUMBER].holder == HOME
  {
    Reached();
    FinalHolder();
    SeededIsInitial();
    PortingClaims();
    hide Seeded, BothWays, S6, Exec, PossibleRun, Initial, PurgeFree, Spared;
    PurgeFreeSpares(Seeded(), BothWays(), NUMBER);
  }

  // ---- The queues under an open window ------------------------------------------------

  /** The same porting, accepted with a deferred transition. */
  function Deferring(): seq<Event> {
    [BothWays()[0], OperatorCall(HOLDER, 2, AcceptCall(PORTING, true, None, Deferred(5)))]
  }

  lemma Defers()
    ensures Next(S1(), Deferring()[1]) == S1().(clock := 2, requests := map[PORTING := WithDeadline(ThePorting(), 7)])
  {}

  lemma HandledStep()
    ensures var r := WithDeadline(ThePorting(), 7).request;
      ToAccept(r, HOLDER) && ToProcess(r, HOLDER) && CanAccept(r, HOLDER).Some? && CanProcess(r, HOLDER).Some?
  {}

  /** A request still in the a-accepter and a-traiter queues of its source, which may
    no longer accept it nor process it. */
  lemma QueueShowsAHandledStep()
    ensures var s' := Exec(Seeded(), Deferring());
      && Reaches(Seeded(), Deferring(), s') && PORTING in s'.requests
      && var r := s'.requests[PORTING].request;
        ToAccept(r, HOLDER) && ToProcess(r, HOLDER) && CanAccept(r, HOLDER).Some? && CanProcess(r, HOLDER).Some?
  {
    var s, run := Seeded(), Deferring();
    Creates();
    Defers();
    AllPossible();
    SeededIsInitial();
    assert PossibleRun(s, []) && Exec(s, []) == s && Possible(S1(), run[1]);
    assert run == [] + [run[0]] + [run[1]];
    HandledStep();
    hide Next, Possible, Exec, PossibleRun, Initial, BothWays, Deferring, ThePorting, ToAccept, ToProcess,
      CanAccept, CanProcess, WithDeadline;
    RunExtends(s, [], run[0]);
    RunExtends(s, [] + [run[0]], run[1]);
  }
}
