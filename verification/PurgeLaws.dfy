/** The sandbox purge: exactly what it removes, what it restores, and what it leaves
  alone. */
module PurgeLaws {
  import opened Entities
  import opened Tables
  import opened Operations
  import opened Lifecycle
  import opened Invariants
  import opened Safety
  import opened Runs

  /** At home, with no porting date and no restitution. */
  function SentHome(e: RegistryEntry): RegistryEntry {
    RegistryEntry(e.origin, e.origin, None, false)
  }

  /** Requests: exactly the caller's own go. Reverse requests: although the deletion
    also follows the foreign key, exactly the caller's own go, and none left refers
    to a deleted request. Registry: exactly the numbers named go home, with their
    porting date and restituted flag cleared. */
  lemma PurgeIsExact(s: Platform, run: seq<Event>, a: Platform, caller: OperatorId)
    requires Reaches(s, run, a)
    ensures var b := Purge(a, caller);
      && (forall id :: id in b.requests <==> id in a.requests && a.requests[id].request.creator != caller)
      && (forall id | id in b.requests :: b.requests[id] == a.requests[id])
      && (forall rid :: rid in b.reverses <==> rid in a.reverses && a.reverses[rid].operator != caller)
      && (forall rid | rid in b.reverses :: b.reverses[rid] == a.reverses[rid])
      && (forall rid | rid in b.reverses && b.reverses[rid].request.Some? ::
          b.reverses[rid].request.value in b.requests)
      && b.registry.Keys == a.registry.Keys
      && (forall n | n in b.registry ::
            b.registry[n] == if NamedBy(a, caller, n) then SentHome(a.registry[n]) else a.registry[n])
      && SoundPlatform(b) && QuorumPlatform(b)
  {
    RunKeeps(s, run);
    var b := Purge(a, caller);
    PurgeKeeps(a, caller);
    var ids := RequestsToPurge(a, caller);
    forall rid | rid in a.reverses
      ensures ReversePurged(a.reverses[rid], caller, ids) <==> a.reverses[rid].operator == caller
    {
      assert ReverseOk(a, rid, a.reverses[rid]);
    }
    forall rid | rid in b.reverses && b.reverses[rid].request.Some?
      ensures b.reverses[rid].request.value in b.requests
    {
      assert ReverseOk(a, rid, a.reverses[rid]);
    }
    forall n | n in b.registry
      ensures b.registry[n] == if NamedBy(a, caller, n) then SentHome(a.registry[n]) else a.registry[n]
    {
      RestoredNumbers(a, caller, n);
    }
  }

  /** Purging twice is purging once. */
  lemma PurgeIsIdempotent(s: Platform, caller: OperatorId)
    ensures Purge(Purge(s, caller), caller) == Purge(s, caller)
  {
    var b := Purge(s, caller);
    assert RequestsToPurge(b, caller) == {};
    assert NumbersToRestore(b, {}) == {};
    assert forall rid | rid in b.reverses :: !ReversePurged(b.reverses[rid], caller, {});
    assert Purge(b, caller).requests == b.requests;
    assert Purge(b, caller).reverses == b.reverses;
    assert Purge(b, caller).registry == b.registry;
  }

  // ---- What a purge does to other operators' requests ------------------------------

  /** The purge leaves other operators' requests alone, but not their numbers. In every
    reachable state, a number still claimed by one of them is afterwards where that
    request expects it exactly when, named by the caller, its home is there, or, not
    named, it was there before. */
  lemma PurgeKeepsHolderIff(s: Platform, run: seq<Event>, a: Platform, caller: OperatorId, id: RequestId, n: Msisdn)
    requires Reaches(s, run, a)
    requires id in a.requests && Claims(a.requests[id], n)
    requires a.requests[id].request.creator != caller
    ensures var b, expected := Purge(a, caller), ExpectedHolder(a.requests[id]);
      && id in b.requests && b.requests[id] == a.requests[id] && n in a.registry && n in b.registry
      && (b.registry[n].holder == expected
          <==> if NamedBy(a, caller, n) then a.registry[n].origin == expected else a.registry[n].holder == expected)
  {
    RunKeeps(s, run);
    assert n in a.requests[id].numbers;
    hide SoundPlatform, QuorumPlatform, Inv, NamedBy, Purge, ExpectedHolder;
    PurgeIsExact(s, run, a, caller);
  }

  const HOME: OperatorId := 0
  const HOLDER: OperatorId := 1
  const FIRST: OperatorId := 2
  const SECOND_ASKER: OperatorId := 3
  const NUMBER: Msisdn := 7

  function Seeded(): Platform {
    Platform(
      Market([HOME, HOLDER, FIRST, SECOND_ASKER], map[HOME := 10, HOLDER := 11, FIRST := 12, SECOND_ASKER := 13], {}),
      0, 0, false, map[], map[NUMBER := RegistryEntry(HOLDER, HOME, None, false)], map[])
  }

  /** An operator asks for the number, gives up, and another one asks for it. */
  function AskedTwice(): seq<Event> {
    [OperatorCall(FIRST, 1, CreateIndividualCall(NUMBER, HOLDER, FIRST, true)),
     OperatorCall(FIRST, 2, CancelCall(0)),
     OperatorCall(SECOND_ASKER, 3, CreateIndividualCall(NUMBER, HOLDER, SECOND_ASKER, true))]
  }

  function PortingOf(recipient: OperatorId, now: Time): Dossier {
    NewDossier(NewRequest(NUMBER, Individual, Porting, Acceptance, HOLDER, recipient, Some(11), now),
        SingleRow(NUMBER, Some(11)))
  }

  function Asked(clock: Time, requests: map<RequestId, Dossier>): Platform {
    Seeded().(clock := clock, nextId := |requests|, requests := requests)
  }

  function GivenUp(): Dossier {
    Withdrawn(PortingOf(FIRST, 1), RequestCancelled, FIRST, 2)
  }

  lemma FirstAsks()
    ensures Next(Seeded(), AskedTwice()[0]) == Asked(1, map[0 := PortingOf(FIRST, 1)])
  {}

  lemma FirstGivesUp()
    ensures Next(Asked(1, map[0 := PortingOf(FIRST, 1)]), AskedTwice()[1]) == Asked(2, map[0 := GivenUp()])
  {}

  lemma SecondAsks()
    ensures Next(Asked(2, map[0 := GivenUp()]), AskedTwice()[2])
            == Asked(3, map[0 := GivenUp(), 1 := PortingOf(SECOND_ASKER, 3)])
  {
    var s := Asked(2, map[0 := GivenUp()]);
    assert !RequestInProgressFor(s.requests, NUMBER);
    assert s.requests[1 := PortingOf(SECOND_ASKER, 3)] == map[0 := GivenUp(), 1 := PortingOf(SECOND_ASKER, 3)];
  }

  lemma AskedTwiceEnds()
    ensures PossibleRun(Seeded(), AskedTwice())
    ensures Exec(Seeded(), AskedTwice()) == Asked(3, map[0 := GivenUp(), 1 := PortingOf(SECOND_ASKER, 3)])
  {
    var s, run := Seeded(), AskedTwice();
    FirstAsks();
    FirstGivesUp();
    SecondAsks();
    assert PossibleRun(s, []) && Exec(s, []) == s;
    assert forall e | e in run :: e.OperatorCall? && e.caller in s.market.prefixes;
    assert run == (([] + [run[0]]) + [run[1]]) + [run[2]];
    hide Next, PortingOf, GivenUp, Exec, PossibleRun, AskedTwice;
    RunExtends(s, [], run[0]);
    RunExtends(s, [] + [run[0]], run[1]);
    RunExtends(s, ([] + [run[0]]) + [run[1]], run[2]);
  }

  lemma SeededIsInitial()
    ensures Initial(Seeded()) && PurgeFree(AskedTwice()) && NeverReverses(AskedTwice())
  {}

  lemma SecondStillClaims(a: Platform)
    requires a == Asked(3, map[0 := GivenUp(), 1 := PortingOf(SECOND_ASKER, 3)])
    ensures a.requests.Keys == {0, 1} && Claims(a.requests[1], NUMBER) && NamedBy(a, FIRST, NUMBER)
    ensures a.requests[1].request.source == ExpectedHolder(a.requests[1]) == HOLDER
    ensures a.requests[1].request.creator == SECOND_ASKER
    ensures NUMBER in a.registry && a.registry[NUMBER].holder == HOLDER && a.registry[NUMBER].origin == HOME
  {
    assert 0 in a.requests;
  }

  /** Hence a run after which a purge sends home a number that another operator's
    porting still expects from its source. */
  lemma PurgeMovesAClaimedNumber()
    ensures var a := Exec(Seeded(), AskedTwice()); var b := Purge(a, FIRST);
      && Initial(Seeded()) && PossibleRun(Seeded(), AskedTwice())
      && 1 in b.requests && Claims(b.requests[1], NUMBER) && b.requests[1].request.source == HOLDER
      && NUMBER in b.registry && a.registry[NUMBER].holder == HOLDER && b.registry[NUMBER].holder == HOME
  {
    AskedTwiceEnds();
    SeededIsInitial();
    SecondStillClaims(Exec(Seeded(), AskedTwice()));
    hide Seeded, AskedTwice, Exec, PossibleRun, Purge, Initial, PurgeFree, NeverReverses, NamedBy, Asked, Claims,
      SoundPlatform, QuorumPlatform;
    PurgeIsExact(Seeded(), AskedTwice(), Exec(Seeded(), AskedTwice()), FIRST);
  }
}
