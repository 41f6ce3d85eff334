/** The safety theorems: what holds in every state of every run, however long, for
  any number of requests, numbers and operators. */
module Runs {
  import opened Entities
  import opened Tables
  import opened Operations
  import opened Lifecycle
  import opened Invariants
  import opened Safety
  import opened Passes
  import opened Evolution
  import opened Frame

  /** A freshly seeded platform: no request yet, any registry over known operators. */
  ghost predicate Initial(s: Platform) {
    && MarketOk(s.market) && s.requests == map[] && s.reverses == map[]
    && forall n | n in s.registry ::
        s.registry[n].holder in s.market.prefixes && s.registry[n].origin in s.market.prefixes
  }

  lemma InitialInv(s: Platform)
    requires Initial(s)
    ensures Inv(s, s.registry) && QuorumPlatform(s)
  {}

  predicate IsPurge(e: Event) {
    e.OperatorCall? && e.call.PurgeCall?
  }

  /** What an event leaves of a registry: all of it, unless it is a purge. */
  ghost function Left(s: Platform, e: Event, initial: Registry): (r: Registry)
    ensures r.Keys <= initial.Keys
  {
    if IsPurge(e) then Unnamed(s, e.caller, initial) else initial
  }

  lemma NextKeeps(s: Platform, e: Event, initial: Registry)
    requires Inv(s, initial) && Possible(s, e)
    ensures Inv(Next(s, e), Left(s, e, initial))
    ensures QuorumPlatform(s) ==> QuorumPlatform(Next(s, e))
  {
    match e
    case OperatorCall(caller, at, call) =>
      AtKeeps(s, at, initial);
      PerformKeeps(At(s, at), caller, call, initial);
      assert Unnamed(At(s, at), caller, initial) == Unnamed(s, caller, initial)
          by { UnnamedAt(s, at, caller, initial); }
    case ArtpValidates(at, rid) =>
      AtKeeps(s, at, initial);
      ValidateReverseKeeps(At(s, at), rid, initial);
    case ArtpRejects(at, rid) =>
      AtKeeps(s, at, initial);
      RejectReverseKeeps(At(s, at), rid, initial);
    case IncidentChanges(at, frozen) =>
      AtKeeps(s, at, initial);
      FreezeKeeps(At(s, at), frozen, initial);
    case EngineTicks(plan) =>
      TickKeeps(s, plan, initial);
  }

  lemma NothingLeft(s: Platform, e: Event)
    ensures Left(s, e, map[]) == map[]
  {
    assert Left(s, e, map[]).Keys <= {};
  }

  /** Soundness alone, and the quorum, are kept by every event, purges included. */
  lemma SoundNext(s: Platform, e: Event)
    requires SoundPlatform(s) && Possible(s, e)
    ensures SoundPlatform(Next(s, e))
    ensures QuorumPlatform(s) ==> QuorumPlatform(Next(s, e))
  {
    SoundIsInv(s);
    SoundIsInv(Next(s, e));
    NothingLeft(s, e);
    hide SoundPlatform, QuorumPlatform, Inv, Next, Possible, Left;
    NextKeeps(s, e, map[]);
  }

  lemma UnnamedAt(s: Platform, at: Time, caller: OperatorId, initial: Registry)
    ensures Unnamed(At(s, at), caller, initial) == Unnamed(s, caller, initial)
  {
    assert forall n :: NamedBy(At(s, at), caller, n) == NamedBy(s, caller, n);
  }

  lemma FreezeKeeps(s: Platform, frozen: bool, initial: Registry)
    requires Inv(s, initial)
    ensures Inv(s.(frozen := frozen), initial)
    ensures QuorumPlatform(s) ==> QuorumPlatform(s.(frozen := frozen))
  {
    var s' := s.(frozen := frozen);
    assert forall rid | rid in s.reverses :: ReverseOk(s, rid, s.reverses[rid]) ==> ReverseOk(s', rid, s.reverses[rid]);
  }

  /** A step from the last state of a run makes a longer run. */
  lemma RunExtends(s: Platform, run: seq<Event>, e: Event)
    requires PossibleRun(s, run) && Possible(Exec(s, run), e)
    ensures PossibleRun(s, run + [e]) && Exec(s, run + [e]) == Next(Exec(s, run), e)
  {
    assert (run + [e])[..|run|] == run;
    hide Next, Possible;
  }

  /** No purge of the run names the number. */
  ghost predicate Spared(s: Platform, run: seq<Event>, n: Msisdn) {
    forall k | 0 <= k < |run| && IsPurge(run[k]) :: !NamedBy(Exec(s, run[..k]), run[k].caller, n)
  }

  /** What the purges of a run leave of the initial registry. */
  ghost function Kept(s: Platform, run: seq<Event>): Registry {
    if run == [] then s.registry
    else Left(Exec(s, run[..|run| - 1]), run[|run| - 1], Kept(s, run[..|run| - 1]))
  }

  lemma {:induction false} KeptIsSpared(s: Platform, run: seq<Event>, n: Msisdn)
    ensures n in Kept(s, run) <==> n in s.registry && Spared(s, run, n)
    ensures n in Kept(s, run) ==> Kept(s, run)[n] == s.registry[n]
  {
    hide NamedBy, Exec;
    if run != [] {
      var front := run[..|run| - 1];
      KeptIsSpared(s, front, n);
      assert forall k | 0 <= k < |front| :: front[..k] == run[..k] && front[k] == run[k];
    }
  }

  lemma PurgeFreeSpares(s: Platform, run: seq<Event>, n: Msisdn)
    requires PurgeFree(run)
    ensures Spared(s, run, n)
  {
    forall k | 0 <= k < |run| ensures !IsPurge(run[k]) { assert run[k] in run; }
  }

  /** Every state of a run satisfies the invariant, its registry half at every number
    that no purge of the run names. */
  lemma {:induction false} RunKeeps(s: Platform, run: seq<Event>)
    requires Initial(s) && PossibleRun(s, run)
    ensures Inv(Exec(s, run), Kept(s, run)) && QuorumPlatform(Exec(s, run))
  {
    if run == [] {
      InitialInv(s);
    } else {
      var front, last := run[..|run| - 1], run[|run| - 1];
      RunKeeps(s, front);
      hide Inv, Next, Left;
      NextKeeps(Exec(s, front), last, Kept(s, front));
    }
  }

  /** The state is reached from a seeded one by the run. */
  ghost predicate Reaches(s: Platform, run: seq<Event>, s': Platform) {
    Initial(s) && PossibleRun(s, run) && s' == Exec(s, run)
  }

  // ---- The theorems ------------------------------------------------------------------

  /** At most one porting or restitution in progress has a given number active. */
  lemma MutualExclusion(s: Platform, run: seq<Event>, s': Platform, i: RequestId, j: RequestId, n: Msisdn)
    requires Reaches(s, run, s')
    requires i in s'.requests && j in s'.requests
    requires Claims(s'.requests[i], n) && Claims(s'.requests[j], n)
    ensures i == j
  {
    RunKeeps(s, run);
  }

  /** A CONFIRMATION closed by an action was confirmed by exactly the expected
    operators: everyone but the recipient for a porting, everyone otherwise. */
  lemma CountImpliesCoverage(s: Platform, run: seq<Event>, s': Platform, id: RequestId, k: nat)
    requires Reaches(s, run, s') && id in s'.requests
    requires k < |s'.requests[id].history|
    requires s'.requests[id].history[k].step == Confirmation && s'.requests[id].history[k].origin == Action
    ensures var d := s'.requests[id];
      forall op :: op in d.confirmers
        <==> op in s'.market.operators && !(d.request.kind == Porting && op == d.request.recipient)
  {
    RunKeeps(s, run);
    assert QuorumOk(s'.requests[id], s'.market);
    ExpectedIsFilter(s'.requests[id].request, s'.market.operators);
  }

  /** A request's history is the contiguous run of the steps from its creation step,
    without gap in time, so it never has more than five rows; the status tells
    where it stops, and the deadline where it waits. */
  lemma HistoryIsContiguous(s: Platform, run: seq<Event>, s': Platform, id: RequestId)
    requires Reaches(s, run, s') && id in s'.requests
    ensures var d := s'.requests[id];
      && HistoryShape(d) && Timeline(d, s'.clock) && DeadlineOk(d)
      && (forall k | 0 <= k < |d.history| ::
            d.history[k].status == if d.history[k].origin == Expiration then StepExpired else StepCompleted)
      && |d.history| <= (if d.request.kind == Reverse then 2 else 5)
  {
    RunKeeps(s, run);
    assert Sound(s'.requests[id], s'.market, s'.clock);
  }

  /** No request in progress is without an active number, excluded rows are rejected
    ones, and routing follows the registry transfer. */
  lemma RowsAndRouting(s: Platform, run: seq<Event>, s': Platform, id: RequestId)
    requires Reaches(s, run, s') && id in s'.requests
    ensures var d := s'.requests[id];
      && RoutingOk(d, s'.market)
      && (InProgress(d) ==> HasActiveNumber(d) && exists n :: Active(d, n))
      && (forall n | n in d.numbers && d.numbers[n].exclusion.Some? :: d.numbers[n].status == RowRejected)
  {
    RunKeeps(s, run);
    assert Sound(s'.requests[id], s'.market, s'.clock);
    ActiveNotionsAgree(s'.requests[id]);
  }

  /** At a number that no purge names the registry is the ledger of the closed requests: the
    entry of a number is the initial one when no request moved it, otherwise it
    carries the date and the recipient of a latest mover; it is marked restituted
    exactly when it was initially or some restitution or reverse completed. */
  lemma RegistryIsLedger(s: Platform, run: seq<Event>, s': Platform, n: Msisdn)
    requires Reaches(s, run, s') && Spared(s, run, n)
    ensures n in s'.registry <==> n in s.registry
    ensures n in s'.registry ==> LedgerEntry(s.registry[n], s'.requests, n, s'.registry[n])
  {
    RunKeeps(s, run);
    RunFrames(s, run);
    hide Exec, PossibleRun, SoundPlatform, QuorumPlatform, LedgerEntry, Spaced, RestitutedOnce, HoldersOk;
    KeptIsSpared(s, run, n);
  }

  /** A cancelled or rejected request never moved anything. */
  lemma WithdrawnNeverMoved(s: Platform, run: seq<Event>, s': Platform, id: RequestId, n: Msisdn)
    requires Reaches(s, run, s') && id in s'.requests
    requires s'.requests[id].request.status == RequestCancelled || s'.requests[id].request.status == RequestRejected
    ensures !Moved(s'.requests[id], n)
  {
    RunKeeps(s, run);
    assert Sound(s'.requests[id], s'.market, s'.clock);
  }

  lemma KnownNumber(s: Platform, id: RequestId, n: Msisdn)
    requires SoundPlatform(s) && id in s.requests && (Moved(s.requests[id], n) || Claims(s.requests[id], n))
    ensures n in s.registry
  {
    assert n in s.requests[id].numbers || n == s.requests[id].request.msisdn;
  }

  /** Two portings move a number at least ninety days apart, unless a purge named it. */
  lemma PortingsNinetyDaysApart(s: Platform, run: seq<Event>, s': Platform, i: RequestId, j: RequestId, n: Msisdn)
    requires Reaches(s, run, s') && Spared(s, run, n)
    requires i in s'.requests && j in s'.requests && i != j
    requires s'.requests[i].request.kind == Porting && s'.requests[j].request.kind == Porting
    requires Moved(s'.requests[i], n) && Moved(s'.requests[j], n)
    ensures var a, b := MovedAt(s'.requests[i]), MovedAt(s'.requests[j]);
      a - b >= 90 * DAY || b - a >= 90 * DAY
  {
    RunKeeps(s, run);
    RunFrames(s, run);
    KeptIsSpared(s, run, n);
    hide Exec, PossibleRun, QuorumPlatform, Ledger, RestitutedOnce, HoldersOk;
    KnownNumber(s', j, n);
    assert SpacedPair(s'.requests[i], s'.requests[j], n) && SpacedPortings(s'.requests[i], s'.requests[j], n);
  }

  /** A restitution was created at least a hundred and eighty days after any move of its
    number that came before it, unless a purge named the number. */
  lemma RestitutionsWaitSixMonths(
    s: Platform, run: seq<Event>, s': Platform, i: RequestId, j: RequestId, n: Msisdn)
    requires Reaches(s, run, s') && Spared(s, run, n)
    requires i in s'.requests && j in s'.requests && i != j
    requires s'.requests[i].request.kind == Restitution && s'.requests[i].request.msisdn == n
    requires Moved(s'.requests[j], n) && MovedAt(s'.requests[j]) < s'.requests[i].request.createdAt
    ensures s'.requests[i].request.createdAt - MovedAt(s'.requests[j]) >= 180 * DAY
  {
    RunKeeps(s, run);
    RunFrames(s, run);
    KeptIsSpared(s, run, n);
    hide Exec, PossibleRun, QuorumPlatform, Ledger, RestitutedOnce, HoldersOk;
    KnownNumber(s', j, n);
    assert Sound(s'.requests[i], s'.market, s'.clock);
    assert SpacedPair(s'.requests[i], s'.requests[j], n) && SpacedRestitution(s'.requests[i], s'.requests[j], n);
  }

  /** A number completes at most one restitution, unless a purge named it. */
  lemma OneRestitutionPerNumber(s: Platform, run: seq<Event>, s': Platform, i: RequestId, j: RequestId)
    requires Reaches(s, run, s') && i in s'.requests && j in s'.requests
    requires Spared(s, run, s'.requests[i].request.msisdn)
    requires s'.requests[i].request.kind == Restitution && s'.requests[j].request.kind == Restitution
    requires s'.requests[i].request.status == RequestCompleted && s'.requests[j].request.status == RequestCompleted
    requires s'.requests[i].request.msisdn == s'.requests[j].request.msisdn
    ensures i == j
  {
    RunKeeps(s, run);
    RunFrames(s, run);
    var n := s'.requests[i].request.msisdn;
    KeptIsSpared(s, run, n);
    hide Exec, PossibleRun, QuorumPlatform, Ledger, Spaced, HoldersOk;
    KnownNumber(s', j, n);
    assert Moved(s'.requests[i], n) && Moved(s'.requests[j], n);
  }

  /** While a porting is in progress its active numbers are with its source until
    ACTIVATION is closed and with its recipient from then on, and a restitution's
    number is with its source, as long as no reverse completed on the number since;
    once one completed later, the number is with its origin. Ties of one instant
    aside, it is therefore where the request expects it if and only if no reverse
    completed since, or its origin is the expected holder anyway. */
  lemma HoldersFollowRequests(s: Platform, run: seq<Event>, s': Platform, id: RequestId, n: Msisdn)
    requires Reaches(s, run, s') && Spared(s, run, n)
    requires id in s'.requests && Claims(s'.requests[id], n)
    ensures var d := s'.requests[id];
      && n in s'.registry
      && (d.request.kind == Restitution ==> n == d.request.msisdn && s'.registry[n].origin == d.request.recipient)
    ensures var e, d := s'.registry[n], s'.requests[id];
      var expected := if Ported(d) then d.request.recipient else d.request.source;
      var since := ReversedSince(s'.requests, n, ExpectedSince(d));
      var later := ReversedAfter(s'.requests, n, ExpectedSince(d));
      && (!since ==> e.holder == expected)
      && (later ==> e.holder == e.origin)
      && (e.holder == expected || e.holder == e.origin)
      && ((since ==> later) ==> (e.holder == expected <==> !since || e.origin == expected))
  {
    RunKeeps(s, run);
    RunFrames(s, run);
    KeptIsSpared(s, run, n);
    hide Exec, PossibleRun, QuorumPlatform, Ledger, Spaced, RestitutedOnce, HolderOk;
    KnownNumber(s', id, n);
    assert HolderOk(s'.registry[n], s'.requests, s'.requests[id], n);
    RestitutionReturns(s', id, n);
    hide Inv, SoundPlatform;
    PlaceOfClaim(s'.registry[n], s'.requests, s'.requests[id], n);
  }

  lemma RestitutionReturns(s: Platform, id: RequestId, n: Msisdn)
    requires SoundPlatform(s) && id in s.requests && Claims(s.requests[id], n) && n in s.registry
    ensures var d := s.requests[id];
      d.request.kind == Restitution ==> n == d.request.msisdn && s.registry[n].origin == d.request.recipient
  {
    assert Sound(s.requests[id], s.market, s.clock);
  }

  lemma PlaceOfClaim(e: RegistryEntry, requests: map<RequestId, Dossier>, d: Dossier, n: Msisdn)
    requires HolderOk(e, requests, d, n)
    ensures var expected := ExpectedHolder(d);
      var since, later := ReversedSince(requests, n, ExpectedSince(d)), ReversedAfter(requests, n, ExpectedSince(d));
      && (!since ==> e.holder == expected) && (later ==> e.holder == e.origin)
      && (e.holder == expected || e.holder == e.origin)
      && ((since ==> later) ==> (e.holder == expected <==> !since || e.origin == expected))
  {
    hide ReversedSince, ReversedAfter;
  }

  predicate NeverReverses(run: seq<Event>) {
    forall e | e in run :: !e.ArtpValidates? && (e.EngineTicks? ==> e.plan.validate == [])
  }

  /** Without a reverse validation there is no REVERSE at all. */
  lemma {:induction false} NoReverseWithoutValidation(s: Platform, run: seq<Event>, s': Platform)
    requires Reaches(s, run, s') && NeverReverses(run)
    ensures forall id | id in s'.requests :: s'.requests[id].request.kind != Reverse
  {
    if run != [] {
      var front, last := run[..|run| - 1], run[|run| - 1];
      assert last in run;
      assert NeverReverses(front) by {
        forall e | e in front
            ensures !e.ArtpValidates? && (e.EngineTicks? ==> e.plan.validate == []) { assert e in run; }
      }
      NoReverseWithoutValidation(s, front, Exec(s, front));
      RunKeeps(s, front);
      NextEvolves(Exec(s, front), last);
    }
  }

  /** Hence, without a reverse validation nor a purge that names the number, holders
    follow the requests exactly. */
  lemma HoldersFollowRequestsExactly(s: Platform, run: seq<Event>, s': Platform, id: RequestId, n: Msisdn)
    requires Reaches(s, run, s') && Spared(s, run, n) && NeverReverses(run)
    requires id in s'.requests && Claims(s'.requests[id], n)
    ensures var d := s'.requests[id];
      n in s'.registry && s'.registry[n].holder == if Ported(d) then d.request.recipient else d.request.source
  {
    HoldersFollowRequests(s, run, s', id, n);
    NoReverseWithoutValidation(s, run, s');
  }

  /** No purge of the run is its creator's, so the request stays. */
  predicate Stays(run: seq<Event>, creator: OperatorId) {
    forall e | e in run && IsPurge(e) :: e.caller != creator
  }

  lemma StaysFront(run: seq<Event>, creator: OperatorId)
    requires run != [] && Stays(run, creator)
    ensures Stays(run[..|run| - 1], creator)
    ensures IsPurge(run[|run| - 1]) ==> run[|run| - 1].caller != creator
  {
    assert run[|run| - 1] in run && forall e | e in run[..|run| - 1] :: e in run;
  }

  /** The end of a request is final and its history only grows, as long as its creator
    does not purge it. */
  lemma {:induction false} EndIsFinal(s: Platform, run: seq<Event>, s': Platform, more: seq<Event>, id: RequestId)
    requires Reaches(s, run, s') && PossibleRun(s', more)
    requires id in s'.requests && Stays(more, s'.requests[id].request.creator)
    ensures var after := Exec(s', more);
      id in after.requests && Evolves(s'.requests[id], after.requests[id])
      && SoundPlatform(after)
  {
    if more == [] {
      RunKeeps(s, run);
    } else {
      var front, last := more[..|more| - 1], more[|more| - 1];
      StaysFront(more, s'.requests[id].request.creator);
      EndIsFinal(s, run, s', front, id);
      hide Next, Possible, SoundPlatform;
      var mid := Exec(s', front);
      EventEvolves(mid, last, id);
      SoundNext(mid, last);
      EvolvesTransitive(s'.requests[id], mid.requests[id], Next(mid, last).requests[id]);
    }
  }
}
