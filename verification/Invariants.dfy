/** What every reachable state satisfies across dossiers: mutual exclusion per
  number, the registry as a ledger of the closed requests, the delay between
  two portings, and who holds a number while a request moves it. Each way of
  changing the tables (put, insert, transition) is shown to keep it. */
module Invariants {
  import opened Entities
  import opened Tables
  import opened Operations
  import opened Lifecycle

  // ---- Claims and moves ----------------------------------------------------

  /** A porting or a restitution in progress with the number active. */
  predicate Claims(d: Dossier, n: Msisdn) {
    InProgress(d) && d.request.kind != Reverse && Active(d, n)
  }

  /** The request has moved the number in the registry. */
  predicate Moved(d: Dossier, n: Msisdn) {
    || (Ported(d) && Active(d, n))
    || (d.request.kind != Porting && d.request.status == RequestCompleted && n == d.request.msisdn)
  }

  /** When it did: the end of its ACTIVATION, or of its last step. */
  function MovedAt(d: Dossier): Time {
    if d.request.kind == Porting then (if |d.history| > Rank(Activation) then d.history[Rank(Activation)].end else 0)
    else if d.request.endedAt.Some? then d.request.endedAt.value else 0
  }

  // ---- The invariants --------------------------------------------------------

  ghost predicate Exclusive(requests: map<RequestId, Dossier>) {
    forall i, j, n | i in requests && j in requests && Claims(requests[i], n) && Claims(requests[j], n) :: i == j
  }

  ghost predicate DossiersSound(s: Platform) {
    forall id | id in s.requests :: id < s.nextId && Sound(s.requests[id], s.market, s.clock)
  }

  ghost predicate RegistryOk(s: Platform) {
    && (forall n | n in s.registry ::
        s.registry[n].holder in s.market.prefixes && s.registry[n].origin in s.market.prefixes)
    && (forall id, n | id in s.requests && n in s.requests[id].numbers :: n in s.registry)
  }

  /** A restitution or a reverse brings its number back to its origin. */
  ghost predicate HomeOk(s: Platform) {
    forall id | id in s.requests && s.requests[id].request.kind != Porting ::
      && s.requests[id].request.msisdn in s.registry
      && s.registry[s.requests[id].request.msisdn].origin == s.requests[id].request.recipient
  }

  /** A reverse request belongs to the origin operator of its number; the request
    it was validated into is one of that operator. */
  ghost predicate ReverseOk(s: Platform, rid: RequestId, rr: ReverseRequest) {
    && rid < s.nextId
    && rr.msisdn in s.registry
    && s.registry[rr.msisdn].origin == rr.operator
    && (rr.request.Some? <==> rr.status == ReverseValidated)
    && (rr.request.Some? ==>
          && rr.request.value in s.requests
          && s.requests[rr.request.value].request.kind == Reverse
          && s.requests[rr.request.value].request.creator == rr.operator
          && s.requests[rr.request.value].request.msisdn == rr.msisdn)
  }

  ghost predicate ReversesOk(s: Platform) {
    forall rid | rid in s.reverses :: ReverseOk(s, rid, s.reverses[rid])
  }

  ghost predicate SoundPlatform(s: Platform) {
    && MarketOk(s.market)
    && DossiersSound(s)
    && Exclusive(s.requests)
    && RegistryOk(s)
    && HomeOk(s)
    && ReversesOk(s)
  }

  ghost predicate QuorumPlatform(s: Platform) {
    forall id | id in s.requests :: QuorumOk(s.requests[id], s.market)
  }

  /** The dossier explains a registry entry: it is a mover of the number, the entry
    carries its date and its recipient. */
  ghost predicate Explains(d: Dossier, n: Msisdn, e: RegistryEntry) {
    Moved(d, n) && e.lastPorting == Some(MovedAt(d)) && e.holder == d.request.recipient
  }

  ghost predicate NeverMoved(requests: map<RequestId, Dossier>, n: Msisdn) {
    forall id | id in requests :: !Moved(requests[id], n)
  }

  ghost predicate Restituted(requests: map<RequestId, Dossier>, n: Msisdn) {
    exists id | id in requests :: requests[id].request.kind != Porting && Moved(requests[id], n)
  }

  ghost predicate Explained(requests: map<RequestId, Dossier>, n: Msisdn, e: RegistryEntry) {
    exists id | id in requests :: Explains(requests[id], n, e)
  }

  ghost predicate NoLaterMove(requests: map<RequestId, Dossier>, n: Msisdn, e: RegistryEntry) {
    forall id | id in requests && Moved(requests[id], n) ::
      e.lastPorting.Some? && MovedAt(requests[id]) <= e.lastPorting.value
  }

  /** The entry of a number follows from the requests alone: untouched when no
    request moved it, otherwise the latest mover's recipient and date. */
  ghost predicate LedgerEntry(initial: RegistryEntry, requests: map<RequestId, Dossier>, n: Msisdn, e: RegistryEntry) {
    && e.origin == initial.origin
    && (if NeverMoved(requests, n) then e == initial else Explained(requests, n, e))
    && NoLaterMove(requests, n, e)
    && (e.restituted <==> initial.restituted || Restituted(requests, n))
  }

  ghost predicate Ledger(initial: Registry, s: Platform) {
    && initial.Keys <= s.registry.Keys
    && forall n | n in initial :: LedgerEntry(initial[n], s.requests, n, s.registry[n])
  }

  /** Two portings that moved the same number did so at least the delay apart, and
    one still to move it was created that long after the earlier ones. */
  ghost predicate SpacedPair(d: Dossier, earlier: Dossier, n: Msisdn) {
    SpacedPortings(d, earlier, n) && SpacedRestitution(d, earlier, n)
  }

  /** A restitution was created at least its own delay after whatever moved the number
    before. */
  ghost predicate SpacedRestitution(d: Dossier, earlier: Dossier, n: Msisdn) {
    d.request.kind == Restitution && n in d.numbers && Moved(earlier, n) && MovedAt(earlier) < d.request.createdAt
    ==> MovedAt(earlier) + DELAY_BEFORE_RESTITUTION <= d.request.createdAt
  }

  ghost predicate SpacedPortings(d: Dossier, earlier: Dossier, n: Msisdn) {
    && d.request.kind == Porting && earlier.request.kind == Porting && Moved(earlier, n)
    ==>
    && (Claims(d, n) && !Ported(d) ==> MovedAt(earlier) + DELAY_BETWEEN_PORTINGS <= d.request.createdAt)
    && (Moved(d, n) ==> MovedAt(earlier) + DELAY_BETWEEN_PORTINGS <= MovedAt(d)
                        || MovedAt(d) + DELAY_BETWEEN_PORTINGS <= MovedAt(earlier))
  }

  ghost predicate Spaced(requests: map<RequestId, Dossier>, spared: set<Msisdn>) {
    forall i, j, n | i in requests && j in requests && i != j && n in spared :: SpacedPair(requests[i], requests[j], n)
  }

  /** A number that completed a restitution has no other, completed or not. */
  ghost predicate RestitutedOnce(requests: map<RequestId, Dossier>, spared: set<Msisdn>) {
    forall i, j, n | i in requests && j in requests && i != j && n in spared
        && requests[i].request.kind == Restitution && requests[j].request.kind == Restitution
            && Moved(requests[j], n) ::
      !Claims(requests[i], n) && !Moved(requests[i], n)
  }

  /** Where a claimed number must be: with the source until ACTIVATION is closed,
    with the recipient from then on. */
  function ExpectedHolder(d: Dossier): OperatorId {
    if Ported(d) then d.request.recipient else d.request.source
  }

  /** Since when the number is expected there. */
  function ExpectedSince(d: Dossier): Time {
    if Ported(d) then MovedAt(d) else d.request.createdAt
  }

  ghost predicate ReversedSince(requests: map<RequestId, Dossier>, n: Msisdn, since: Time) {
    exists id | id in requests ::
      requests[id].request.kind == Reverse && Moved(requests[id], n) && since <= MovedAt(requests[id])
  }

  ghost predicate ReversedAfter(requests: map<RequestId, Dossier>, n: Msisdn, since: Time) {
    exists id | id in requests ::
      requests[id].request.kind == Reverse && Moved(requests[id], n) && since < MovedAt(requests[id])
  }

  /** Where a claimed number is: where its request expects it unless a REVERSE
    completed on it since, and with its origin if one completed later. */
  ghost predicate HolderOk(e: RegistryEntry, requests: map<RequestId, Dossier>, d: Dossier, n: Msisdn) {
    && (e.holder == ExpectedHolder(d) || (ReversedSince(requests, n, ExpectedSince(d)) && e.holder == e.origin))
    && (ReversedAfter(requests, n, ExpectedSince(d)) ==> e.holder == e.origin)
  }

  ghost predicate HoldersOk(s: Platform, spared: set<Msisdn>) {
    forall id, n | id in s.requests && Claims(s.requests[id], n) && n in s.registry && n in spared ::
      HolderOk(s.registry[n], s.requests, s.requests[id], n)
  }

  /** The invariant of a run: `initial` is the registry the run started from, at the
    numbers that no purge has named; about the others only the first line is known. */
  ghost predicate Inv(s: Platform, initial: Registry) {
    && SoundPlatform(s)
    && Ledger(initial, s) && Spaced(s.requests, initial.Keys) && RestitutedOnce(s.requests, initial.Keys)
    && HoldersOk(s, initial.Keys)
  }

  /** With nothing spared, the invariant is soundness. */
  lemma SoundIsInv(s: Platform)
    ensures Inv(s, map[]) <==> SoundPlatform(s)
  {
    hide SoundPlatform;
  }

  // ---- Passing time ----------------------------------------------------------

  lemma AtKeeps(s: Platform, now: Time, initial: Registry)
    requires Inv(s, initial) && s.clock <= now
    ensures Inv(At(s, now), initial)
    ensures QuorumPlatform(s) ==> QuorumPlatform(At(s, now))
  {
    var s' := At(s, now);
    forall id | id in s'.requests ensures Sound(s'.requests[id], s'.market, now) {
      SoundLater(s.requests[id], s.market, s.clock, now);
    }
    assert forall rid | rid in s.reverses :: ReverseOk(s, rid, s.reverses[rid]) ==> ReverseOk(s', rid, s.reverses[rid]);
  }

  // ---- Rewriting one dossier without touching the registry ----------------------

  /** The new dossier claims and moves nothing the old one did not. */
  ghost predicate Quiet(d: Dossier, d': Dossier) {
    && d'.request.kind == d.request.kind && d'.request.msisdn == d.request.msisdn
    && d'.request.source == d.request.source && d'.request.recipient == d.request.recipient
    && d'.request.creator == d.request.creator && d'.request.createdAt == d.request.createdAt
    && d'.numbers.Keys == d.numbers.Keys
    && (forall n :: Claims(d', n) ==> Claims(d, n))
    && (forall n :: Moved(d', n) <==> Moved(d, n))
    && (Ported(d') <==> Ported(d))
    && (forall n :: Moved(d, n) ==> MovedAt(d') == MovedAt(d))
  }

  /** The tables with one dossier and the registry rewritten. */
  function Rewrite(s: Platform, id: RequestId, d: Dossier, registry: Registry): Platform {
    s.(requests := s.requests[id := d], registry := registry)
  }

  ghost predicate SameParties(d: Dossier, d': Dossier) {
    && d'.request.kind == d.request.kind && d'.request.msisdn == d.request.msisdn
    && d'.request.recipient == d.request.recipient && d'.request.creator == d.request.creator
    && d'.numbers.Keys == d.numbers.Keys
  }

  ghost predicate SameOrigins(s: Platform, registry: Registry) {
    && registry.Keys == s.registry.Keys
    && forall n | n in registry :: registry[n].origin == s.registry[n].origin && registry[n].holder in s.market.prefixes
  }

  lemma RewriteKeepsExclusion(requests: map<RequestId, Dossier>, id: RequestId, d: Dossier)
    requires Exclusive(requests) && id in requests
    requires forall n :: Claims(d, n) ==> Claims(requests[id], n)
    ensures Exclusive(requests[id := d])
  {
    var after := requests[id := d];
    forall i, j, n | i in after && j in after && Claims(after[i], n) && Claims(after[j], n) ensures i == j {
      assert Claims(requests[i], n) && Claims(requests[j], n);
    }
  }

  lemma RewriteKeepsReferences(s: Platform, id: RequestId, d: Dossier, registry: Registry)
    requires RegistryOk(s) && HomeOk(s) && ReversesOk(s) && id in s.requests
    requires SameParties(s.requests[id], d) && SameOrigins(s, registry)
    ensures var s' := Rewrite(s, id, d, registry); RegistryOk(s') && HomeOk(s') && ReversesOk(s')
  {
    var s' := Rewrite(s, id, d, registry);
    forall i, n | i in s'.requests && n in s'.requests[i].numbers ensures n in s'.registry {
      assert n in s.requests[i].numbers;
    }
    forall rid | rid in s'.reverses ensures ReverseOk(s', rid, s'.reverses[rid]) {
      assert ReverseOk(s, rid, s.reverses[rid]);
    }
  }

  lemma RewriteKeepsDossiers(s: Platform, id: RequestId, d: Dossier, registry: Registry)
    requires DossiersSound(s) && id in s.requests && Sound(d, s.market, s.clock)
    ensures DossiersSound(Rewrite(s, id, d, registry))
  {}

  lemma RewriteKeepsSound(s: Platform, id: RequestId, d: Dossier, registry: Registry)
    requires SoundPlatform(s) && id in s.requests && Sound(d, s.market, s.clock)
    requires SameParties(s.requests[id], d) && SameOrigins(s, registry)
    requires forall n :: Claims(d, n) ==> Claims(s.requests[id], n)
    ensures SoundPlatform(Rewrite(s, id, d, registry))
  {
    RewriteKeepsExclusion(s.requests, id, d);
    RewriteKeepsReferences(s, id, d, registry);
    RewriteKeepsDossiers(s, id, d, registry);
  }

  /** For the number, both dossiers tell the registry the same. */
  ghost predicate SameMove(d: Dossier, d': Dossier, n: Msisdn) {
    && d'.request.kind == d.request.kind && d'.request.recipient == d.request.recipient
    && (Moved(d', n) <==> Moved(d, n))
    && (Moved(d, n) ==> MovedAt(d') == MovedAt(d))
  }

  /** No request moves the number between the two tables. */
  ghost predicate SameMoves(before: map<RequestId, Dossier>, after: map<RequestId, Dossier>, n: Msisdn) {
    && (forall i | i in before && i in after :: SameMove(before[i], after[i], n))
    && (forall i | i in before && i !in after :: !Moved(before[i], n))
    && (forall i | i in after && i !in before :: !Moved(after[i], n))
  }

  lemma ExplainedStays(before: map<RequestId, Dossier>, after: map<RequestId, Dossier>, n: Msisdn, e: RegistryEntry)
    requires SameMoves(before, after, n) && Explained(before, n, e)
    ensures Explained(after, n, e)
  {
    var i :| i in before && Explains(before[i], n, e);
    assert SameMove(before[i], after[i], n);
    assert Explains(after[i], n, e);
  }

  lemma RestitutedStays(before: map<RequestId, Dossier>, after: map<RequestId, Dossier>, n: Msisdn)
    requires SameMoves(before, after, n)
    ensures Restituted(before, n) <==> Restituted(after, n)
    ensures NeverMoved(before, n) <==> NeverMoved(after, n)
  {
    if i :| i in before && before[i].request.kind != Porting && Moved(before[i], n) {
      assert SameMove(before[i], after[i], n);
      assert after[i].request.kind != Porting && Moved(after[i], n);
    }
    if i :| i in after && after[i].request.kind != Porting && Moved(after[i], n) {
      assert SameMove(before[i], after[i], n);
      assert before[i].request.kind != Porting && Moved(before[i], n);
    }
    if NeverMoved(before, n) {
      forall i | i in after ensures !Moved(after[i], n) {
        if i in before { assert SameMove(before[i], after[i], n); }
      }
    }
    if NeverMoved(after, n) {
      forall i | i in before ensures !Moved(before[i], n) {
        if i in after { assert SameMove(before[i], after[i], n); }
      }
    }
  }

  lemma LedgerStays(initial: RegistryEntry, before: map<RequestId, Dossier>, after: map<RequestId, Dossier>,
      n: Msisdn, e: RegistryEntry)
    requires SameMoves(before, after, n) && LedgerEntry(initial, before, n, e)
    ensures LedgerEntry(initial, after, n, e)
  {
    RestitutedStays(before, after, n);
    if !NeverMoved(before, n) {
      ExplainedStays(before, after, n, e);
    }
    forall i | i in after && Moved(after[i], n)
        ensures e.lastPorting.Some? && MovedAt(after[i]) <= e.lastPorting.value {
      assert SameMove(before[i], after[i], n);
    }
  }

  lemma LedgerStaysAll(initial: Registry, s: Platform, s': Platform)
    requires Ledger(initial, s) && s'.registry == s.registry
    requires forall n | n in initial :: SameMoves(s.requests, s'.requests, n)
    ensures Ledger(initial, s')
  {
    forall n | n in initial ensures LedgerEntry(initial[n], s'.requests, n, s.registry[n]) {
      LedgerStays(initial[n], s.requests, s'.requests, n, s.registry[n]);
    }
  }

  lemma PutSameMoves(before: map<RequestId, Dossier>, id: RequestId, d: Dossier, n: Msisdn)
    requires id in before && SameMove(before[id], d, n)
    ensures SameMoves(before, before[id := d], n)
  {}

  lemma PutKeepsSpacing(s: Platform, id: RequestId, d: Dossier, spared: set<Msisdn>)
    requires id in s.requests && Quiet(s.requests[id], d)
    requires Spaced(s.requests, spared) && RestitutedOnce(s.requests, spared)
    ensures Spaced(Put(s, id, d).requests, spared) && RestitutedOnce(Put(s, id, d).requests, spared)
  {
    var before, after := s.requests, Put(s, id, d).requests;
    forall i, j, n | i in after && j in after && i != j && n in spared ensures SpacedPair(after[i], after[j], n) {
      assert SpacedPair(before[i], before[j], n);
    }
    forall i, j, n | i in after && j in after && i != j && n in spared
        && after[i].request.kind == Restitution && after[j].request.kind == Restitution && Moved(after[j], n)
      ensures !Claims(after[i], n) && !Moved(after[i], n)
    {
      assert Moved(before[j], n);
    }
  }

  /** The same REVERSE completions on the number, before and after. */
  lemma SameReverses(before: map<RequestId, Dossier>, id: RequestId, d: Dossier, n: Msisdn, since: Time)
    requires id in before ==> SameMove(before[id], d, n)
    requires id !in before ==> !Moved(d, n)
    ensures ReversedSince(before[id := d], n, since) <==> ReversedSince(before, n, since)
    ensures ReversedAfter(before[id := d], n, since) <==> ReversedAfter(before, n, since)
  {
    var after := before[id := d];
    forall k ensures k in before && before[k].request.kind == Reverse && Moved(before[k], n)
                     <==> k in after && after[k].request.kind == Reverse && Moved(after[k], n) {}
    assert forall k | k in before && Moved(before[k], n) :: MovedAt(after[k]) == MovedAt(before[k]);
  }

  lemma PutKeepsHolders(s: Platform, id: RequestId, d: Dossier, spared: set<Msisdn>)
    requires id in s.requests && Quiet(s.requests[id], d) && HoldersOk(s, spared)
    ensures HoldersOk(Put(s, id, d), spared)
  {
    var before, s' := s.requests, Put(s, id, d);
    forall i, n | i in s'.requests && Claims(s'.requests[i], n) && n in s'.registry && n in spared
      ensures HolderOk(s'.registry[n], s'.requests, s'.requests[i], n)
    {
      assert Claims(before[i], n) && HolderOk(s.registry[n], before, before[i], n);
      assert Ported(before[i]) ==> Moved(before[i], n);
      SameReverses(before, id, d, n, ExpectedSince(before[i]));
    }
  }

  lemma PutKeeps(s: Platform, id: RequestId, d: Dossier, initial: Registry)
    requires Inv(s, initial) && id in s.requests
    requires Quiet(s.requests[id], d) && Sound(d, s.market, s.clock)
    ensures Inv(Put(s, id, d), initial)
    ensures QuorumPlatform(s) && QuorumOk(d, s.market) ==> QuorumPlatform(Put(s, id, d))
  {
    RewriteKeepsSound(s, id, d, s.registry);
    assert Put(s, id, d) == Rewrite(s, id, d, s.registry);
    var s' := Put(s, id, d);
    forall n | n in initial ensures SameMoves(s.requests, s'.requests, n) {
      PutSameMoves(s.requests, id, d, n);
    }
    LedgerStaysAll(initial, s, s');
    PutKeepsSpacing(s, id, d, initial.Keys);
    PutKeepsHolders(s, id, d, initial.Keys);
  }

  // ---- A transition -----------------------------------------------------------

  lemma AdvanceMoves(d: Dossier, m: Market, origin: Origin, before: Time, now: Time)
    requires Sound(d, m, before) && InProgress(d) && before <= now
    ensures var d' := Advance(m, d, origin, now);
      && (forall n :: Claims(d', n) ==> Claims(d, n))
      && (forall n :: Moved(d', n) <==> Moved(d, n) || n in Departing(d))
      && (forall n | n in Departing(d) :: MovedAt(d') == now && (d.request.kind != Reverse ==> Claims(d, n)))
      && (forall n | n in Departing(d) :: !Moved(d, n))
      && (forall n | Moved(d, n) :: MovedAt(d') == MovedAt(d))
      && (forall n | Claims(d', n) && n !in Departing(d) :: Ported(d') == Ported(d))
      && (forall n | Claims(d', n) && n in Departing(d) :: Ported(d'))
  {
    AdvanceRouting(d, m, origin, now);
    AdvanceShape(d, m, origin, now);
    if d.request.kind != Porting {
      var n :| Active(d, n);
      assert n == d.request.msisdn;
    }
  }

  lemma TransferKeepsOrigins(s: Platform, departing: set<Msisdn>, recipient: OperatorId, restitution: bool)
    requires RegistryOk(s) && recipient in s.market.prefixes
    ensures SameOrigins(s, Transfer(s.registry, departing, recipient, restitution, s.clock))
  {}

  lemma TransitionKeepsSound(s: Platform, id: RequestId, origin: Origin)
    requires SoundPlatform(s)
    ensures SoundPlatform(ApplyTransition(s, id, origin))
  {
    if id in s.requests && InProgress(s.requests[id]) {
      var d := s.requests[id];
      var d' := Advance(s.market, d, origin, s.clock);
      var registry := Transfer(s.registry, Departing(d), d.request.recipient, d.request.kind != Porting, s.clock);
      assert Sound(d, s.market, s.clock);
      AdvanceSound(d, s.market, origin, s.clock, s.clock);
      AdvanceMoves(d, s.market, origin, s.clock, s.clock);
      assert d.request.recipient in s.market.prefixes by { assert RoutingOk(d, s.market); }
      TransferKeepsOrigins(s, Departing(d), d.request.recipient, d.request.kind != Porting);
      RewriteKeepsSound(s, id, d', registry);
    }
  }

  /** A move at the latest date makes its request the one that explains the entry. */
  lemma LedgerMovedBy(requests: map<RequestId, Dossier>, id: RequestId, d: Dossier, n: Msisdn, initial: RegistryEntry,
                      e: RegistryEntry, e': RegistryEntry)
    requires id in requests && LedgerEntry(initial, requests, n, e)
    requires Moved(d, n) && !Moved(requests[id], n) && d.request.kind == requests[id].request.kind
    requires var restituted := d.request.kind != Porting || e.restituted;
             e' == RegistryEntry(d.request.recipient, e.origin, Some(MovedAt(d)), restituted)
    requires forall i | i in requests && Moved(requests[i], n) :: MovedAt(requests[i]) <= MovedAt(d)
    ensures LedgerEntry(initial, requests[id := d], n, e')
  {
    hide Moved, MovedAt;
    assert Explains(requests[id := d][id], n, e');
    RestitutedByMove(requests, id, d, n);
  }

  /** The entry of a number that the closed step hands over. */
  lemma LedgerMoved(s: Platform, id: RequestId, origin: Origin, n: Msisdn, initial: RegistryEntry)
    requires SoundPlatform(s) && id in s.requests && InProgress(s.requests[id])
    requires n in s.registry && n in Departing(s.requests[id])
    requires LedgerEntry(initial, s.requests, n, s.registry[n])
    ensures var s' := ApplyTransition(s, id, origin); LedgerEntry(initial, s'.requests, n, s'.registry[n])
  {
    var s' := ApplyTransition(s, id, origin);
    AdvanceMoves(s.requests[id], s.market, origin, s.clock, s.clock);
    AllMovedBefore(s, n);
    hide SoundPlatform, LedgerEntry, Moved, MovedAt, Departing;
    LedgerMovedBy(s.requests, id, s'.requests[id], n, initial, s.registry[n], s'.registry[n]);
  }

  lemma AllMovedBefore(s: Platform, n: Msisdn)
    requires DossiersSound(s)
    ensures forall i | i in s.requests && Moved(s.requests[i], n) :: MovedAt(s.requests[i]) <= s.clock
  {
    forall i | i in s.requests && Moved(s.requests[i], n) ensures MovedAt(s.requests[i]) <= s.clock {
      MovedBefore(s.requests[i], s.market, s.clock, n);
    }
  }

  lemma RestitutedByMove(before: map<RequestId, Dossier>, id: RequestId, d: Dossier, n: Msisdn)
    requires id in before && Moved(d, n) && !Moved(before[id], n) && d.request.kind == before[id].request.kind
    ensures Restituted(before[id := d], n) <==> Restituted(before, n) || d.request.kind != Porting
  {
    var after := before[id := d];
    if d.request.kind != Porting { assert after[id].request.kind != Porting && Moved(after[id], n); }
    if i :| i in before && before[i].request.kind != Porting && Moved(before[i], n) {
      assert after[i].request.kind != Porting && Moved(after[i], n);
    }
    if i :| i in after && i != id && after[i].request.kind != Porting && Moved(after[i], n) {
      assert before[i].request.kind != Porting && Moved(before[i], n);
    }
  }

  lemma LedgerUnmoved(s: Platform, id: RequestId, origin: Origin, n: Msisdn, initial: RegistryEntry)
    requires SoundPlatform(s) && id in s.requests && InProgress(s.requests[id])
    requires n in s.registry && n !in Departing(s.requests[id])
    requires LedgerEntry(initial, s.requests, n, s.registry[n])
    ensures var s' := ApplyTransition(s, id, origin); LedgerEntry(initial, s'.requests, n, s'.registry[n])
  {
    var d' := Advance(s.market, s.requests[id], origin, s.clock);
    AdvanceMoves(s.requests[id], s.market, origin, s.clock, s.clock);
    PutSameMoves(s.requests, id, d', n);
    LedgerStays(initial, s.requests, s.requests[id := d'], n, s.registry[n]);
  }

  lemma LedgerEntryKept(s: Platform, id: RequestId, origin: Origin, n: Msisdn, initial: Registry)
    requires SoundPlatform(s) && Ledger(initial, s) && id in s.requests && InProgress(s.requests[id])
    requires n in initial
    ensures var s' := ApplyTransition(s, id, origin);
      n in s'.registry && LedgerEntry(initial[n], s'.requests, n, s'.registry[n])
  {
    if n in Departing(s.requests[id]) {
      LedgerMoved(s, id, origin, n, initial[n]);
    } else {
      LedgerUnmoved(s, id, origin, n, initial[n]);
    }
  }

  lemma TransitionKeepsLedger(s: Platform, id: RequestId, origin: Origin, initial: Registry)
    requires SoundPlatform(s) && Ledger(initial, s)
    requires id in s.requests && InProgress(s.requests[id])
    ensures Ledger(initial, ApplyTransition(s, id, origin))
  {
    var s' := ApplyTransition(s, id, origin);
    assert s'.registry.Keys == s.registry.Keys;
    forall n | n in initial
      ensures n in s'.registry && LedgerEntry(initial[n], s'.requests, n, s'.registry[n])
    {
      LedgerEntryKept(s, id, origin, n, initial);
    }
  }

  lemma MovedBefore(d: Dossier, m: Market, now: Time, n: Msisdn)
    requires Sound(d, m, now) && Moved(d, n)
    ensures d.request.createdAt <= MovedAt(d) <= now
  {
    var k := if d.request.kind == Porting then Rank(Activation) else |d.history| - 1;
    assert MovedAt(d) == d.history[k].end;
    EndAfterCreation(d, m, now, k);
  }

  lemma {:induction false} EndAfterCreation(d: Dossier, m: Market, now: Time, k: nat)
    requires Timeline(d, now) && k < |d.history|
    ensures d.request.createdAt <= d.history[k].end
  {
    assert d.history[k].start == StartOfRow(d, k) <= d.history[k].end;
    if k > 0 {
      EndAfterCreation(d, m, now, k - 1);
    }
  }

  /** What one transition does to a number's claims and moves, at instant `now`. */
  ghost predicate MoveStep(d: Dossier, d': Dossier, n: Msisdn, now: Time) {
    && d'.request.kind == d.request.kind && d'.request.createdAt == d.request.createdAt
    && d'.numbers.Keys == d.numbers.Keys
    && (Claims(d', n) ==> Claims(d, n))
    && (Claims(d', n) && !Ported(d') ==> !Ported(d))
    && (Moved(d, n) ==> Moved(d', n) && MovedAt(d') == MovedAt(d) && MovedAt(d) <= now)
    && (Moved(d', n) && !Moved(d, n)
        ==> MovedAt(d') == now && (d.request.kind != Reverse ==> Claims(d, n) && !Ported(d)))
    && d.request.createdAt <= now
  }

  lemma AdvanceMoveStep(d: Dossier, m: Market, origin: Origin, n: Msisdn, now: Time)
    requires Sound(d, m, now) && InProgress(d)
    ensures MoveStep(d, Advance(m, d, origin, now), n, now)
  {
    AdvanceMoves(d, m, origin, now, now);
    if Moved(d, n) { MovedBefore(d, m, now, n); }
  }

  lemma SpacedPairStep(d: Dossier, d': Dossier, e: Dossier, e': Dossier, n: Msisdn, now: Time)
    requires MoveStep(d, d', n, now) && MoveStep(e, e', n, now)
    requires !(Claims(d, n) && Claims(e, n))
    requires SpacedPair(d, e, n) && SpacedPair(e, d, n)
    ensures SpacedPair(d', e', n)
  {}

  lemma TransitionKeepsSpacing(s: Platform, id: RequestId, origin: Origin, spared: set<Msisdn>)
    requires SoundPlatform(s) && Spaced(s.requests, spared) && RestitutedOnce(s.requests, spared)
    requires id in s.requests && InProgress(s.requests[id])
    ensures var after := ApplyTransition(s, id, origin).requests;
      Spaced(after, spared) && RestitutedOnce(after, spared)
  {
    var before, after := s.requests, ApplyTransition(s, id, origin).requests;
    forall i, n | i in before ensures MoveStep(before[i], after[i], n, s.clock) {
      assert Sound(before[i], s.market, s.clock);
      if i == id {
        AdvanceMoveStep(before[i], s.market, origin, n, s.clock);
      } else if Moved(before[i], n) {
        MovedBefore(before[i], s.market, s.clock, n);
      }
    }
    StepKeepsSpacing(before, after, s.clock, spared);
  }

  lemma StepKeepsSpacing(before: map<RequestId, Dossier>, after: map<RequestId, Dossier>, now: Time,
      spared: set<Msisdn>)
    requires before.Keys == after.Keys && Exclusive(before) && Spaced(before, spared) && RestitutedOnce(before, spared)
    requires forall i, n | i in before :: MoveStep(before[i], after[i], n, now)
    ensures Spaced(after, spared) && RestitutedOnce(after, spared)
  {
    forall i, j, n | i in after && j in after && i != j && n in spared ensures SpacedPair(after[i], after[j], n) {
      assert MoveStep(before[i], after[i], n, now) && MoveStep(before[j], after[j], n, now);
      assert SpacedPair(before[i], before[j], n) && SpacedPair(before[j], before[i], n);
      SpacedPairStep(before[i], after[i], before[j], after[j], n, now);
    }
    forall i, j, n | i in after && j in after && i != j && n in spared
        && after[i].request.kind == Restitution && after[j].request.kind == Restitution && Moved(after[j], n)
      ensures !Claims(after[i], n) && !Moved(after[i], n)
    {
      assert MoveStep(before[i], after[i], n, now) && MoveStep(before[j], after[j], n, now);
    }
  }

  lemma NoReverseAfterNow(s: Platform, n: Msisdn)
    requires DossiersSound(s)
    ensures !ReversedAfter(s.requests, n, s.clock)
  {
    AllMovedBefore(s, n);
  }

  lemma ClaimBefore(s: Platform, i: RequestId, n: Msisdn)
    requires DossiersSound(s) && i in s.requests && Claims(s.requests[i], n)
    ensures ExpectedSince(s.requests[i]) <= s.clock
    ensures Ported(s.requests[i]) ==> Moved(s.requests[i], n)
  {
    assert Sound(s.requests[i], s.market, s.clock);
    if Ported(s.requests[i]) { MovedBefore(s.requests[i], s.market, s.clock, n); }
  }

  /** A number that another request takes away: only a REVERSE does, and home. */
  lemma TakenAway(s: Platform, id: RequestId, origin: Origin, i: RequestId, n: Msisdn)
    requires SoundPlatform(s) && id in s.requests && InProgress(s.requests[id]) && n in Departing(s.requests[id])
    requires i in s.requests && i != id && Claims(s.requests[i], n) && n in s.registry
    ensures var s' := ApplyTransition(s, id, origin); HolderOk(s'.registry[n], s'.requests, s'.requests[i], n)
  {
    var s' := ApplyTransition(s, id, origin);
    AdvanceMoves(s.requests[id], s.market, origin, s.clock, s.clock);
    ClaimBefore(s, i, n);
    assert s.requests[id].request.kind == Reverse && n == s.requests[id].request.msisdn;
    assert s'.requests[id].request.kind == Reverse && Moved(s'.requests[id], n) && MovedAt(s'.requests[id]) == s.clock;
  }

  /** A number its own request hands over. */
  lemma HandedOver(s: Platform, id: RequestId, origin: Origin, n: Msisdn)
    requires SoundPlatform(s) && id in s.requests && InProgress(s.requests[id]) && n in Departing(s.requests[id])
    requires n in s.registry && Claims(ApplyTransition(s, id, origin).requests[id], n)
    ensures var s' := ApplyTransition(s, id, origin); HolderOk(s'.registry[n], s'.requests, s'.requests[id], n)
  {
    var s' := ApplyTransition(s, id, origin);
    AdvanceMoves(s.requests[id], s.market, origin, s.clock, s.clock);
    TransitionKeepsSound(s, id, origin);
    NoReverseAfterNow(s', n);
  }

  lemma NotDeparting(s: Platform, id: RequestId, origin: Origin, i: RequestId, n: Msisdn)
    requires SoundPlatform(s) && id in s.requests && InProgress(s.requests[id]) && n !in Departing(s.requests[id])
    requires i in s.requests && Claims(ApplyTransition(s, id, origin).requests[i], n) && n in s.registry
    requires Claims(s.requests[i], n) && HolderOk(s.registry[n], s.requests, s.requests[i], n)
    ensures var s' := ApplyTransition(s, id, origin); HolderOk(s'.registry[n], s'.requests, s'.requests[i], n)
  {
    hide Departing;
    var s' := ApplyTransition(s, id, origin);
    AdvanceMoves(s.requests[id], s.market, origin, s.clock, s.clock);
    ClaimBefore(s, i, n);
    hide SoundPlatform;
    SameReverses(s.requests, id, s'.requests[id], n, ExpectedSince(s.requests[i]));
  }

  lemma TransitionKeepsHolders(s: Platform, id: RequestId, origin: Origin, spared: set<Msisdn>)
    requires SoundPlatform(s) && HoldersOk(s, spared)
    requires id in s.requests && InProgress(s.requests[id])
    ensures HoldersOk(ApplyTransition(s, id, origin), spared)
  {
    var s' := ApplyTransition(s, id, origin);
    AdvanceMoves(s.requests[id], s.market, origin, s.clock, s.clock);
    hide HolderOk, Departing, Moved, MovedAt;
    forall i, n | i in s'.requests && Claims(s'.requests[i], n) && n in s'.registry && n in spared
      ensures HolderOk(s'.registry[n], s'.requests, s'.requests[i], n)
    {
      assert Claims(s.requests[i], n);
      if n !in Departing(s.requests[id]) {
        NotDeparting(s, id, origin, i, n);
      } else if i == id {
        HandedOver(s, id, origin, n);
      } else {
        TakenAway(s, id, origin, i, n);
      }
    }
  }

  /** A transition keeps the invariant whatever authorized it, fresh or stale. */
  lemma TransitionKeeps(s: Platform, id: RequestId, origin: Origin, initial: Registry)
    requires Inv(s, initial)
    ensures Inv(ApplyTransition(s, id, origin), initial)
  {
    TransitionKeepsSound(s, id, origin);
    if id in s.requests && InProgress(s.requests[id]) {
      TransitionKeepsLedger(s, id, origin, initial);
      TransitionKeepsSpacing(s, id, origin, initial.Keys);
      TransitionKeepsHolders(s, id, origin, initial.Keys);
    }
  }

  /** The quorum is kept too, provided an action that closes a CONFIRMATION closes
    a covered one. */
  lemma TransitionKeepsQuorum(s: Platform, id: RequestId, origin: Origin)
    requires SoundPlatform(s)
    requires forall i | i in s.requests && i != id :: QuorumOk(s.requests[i], s.market)
    requires id in s.requests ==> QuorumHistory(s.requests[id], s.market)
    requires origin == Action && id in s.requests && InProgress(s.requests[id])
             ==> (s.requests[id].request.step == Confirmation ==> Covered(s.requests[id], s.market))
    ensures QuorumPlatform(ApplyTransition(s, id, origin))
  {
    if id in s.requests && InProgress(s.requests[id]) {
      AdvanceQuorum(s.requests[id], s.market, origin, s.clock, s.clock);
    }
  }

  // ---- Purging ------------------------------------------------------------------

  /** The numbers named by the caller's requests: their own, and every number of
    their fleets, excluded ones included. */
  ghost predicate NamedBy(s: Platform, caller: OperatorId, n: Msisdn) {
    exists id | id in s.requests && s.requests[id].request.creator == caller ::
      n == s.requests[id].request.msisdn || n in s.requests[id].numbers
  }

  /** What is left of a registry at the numbers that the caller does not name. */
  ghost function Unnamed(s: Platform, caller: OperatorId, initial: Registry): (r: Registry)
    ensures r.Keys <= initial.Keys
  {
    map n | n in initial && !NamedBy(s, caller, n) :: initial[n]
  }

  lemma RestoredNumbers(s: Platform, caller: OperatorId, n: Msisdn)
    ensures n in NumbersToRestore(s, RequestsToPurge(s, caller)) <==> NamedBy(s, caller, n)
  {
    var ids := RequestsToPurge(s, caller);
    if NamedBy(s, caller, n) {
      var id :| id in s.requests && s.requests[id].request.creator == caller
                && (n == s.requests[id].request.msisdn || n in s.requests[id].numbers);
      assert id in ids;
    }
  }

  /** A purge leaves every number it does not name as it was: its entry, and every
    request that claims it or moved it. */
  lemma PurgeSpares(s: Platform, caller: OperatorId, n: Msisdn)
    requires DossiersSound(s) && !NamedBy(s, caller, n)
    ensures var s' := Purge(s, caller);
      && SameMoves(s.requests, s'.requests, n)
      && (n in s.registry ==> n in s'.registry && s'.registry[n] == s.registry[n])
      && (forall i | i in s.requests && (Claims(s.requests[i], n) || Moved(s.requests[i], n)) :: i in s'.requests)
      && (forall i | i in s'.requests :: i in s.requests && s'.requests[i] == s.requests[i])
  {
    PurgeSparesEntry(s, caller, n);
    PurgeSparesOthers(s, caller);
    hide Purge;
    forall i | i in s.requests && (Claims(s.requests[i], n) || Moved(s.requests[i], n))
      ensures s.requests[i].request.creator != caller
    {
      assert n == s.requests[i].request.msisdn || n in s.requests[i].numbers;
    }
    hide Claims, Moved, MovedAt, NamedBy, DossiersSound;
  }

  lemma PurgeSparesEntry(s: Platform, caller: OperatorId, n: Msisdn)
    requires !NamedBy(s, caller, n)
    ensures n in s.registry ==> n in Purge(s, caller).registry && Purge(s, caller).registry[n] == s.registry[n]
  {
    RestoredNumbers(s, caller, n);
    hide NamedBy, NumbersToRestore, RequestsToPurge, ReversePurged;
  }

  lemma PurgeSparesOthers(s: Platform, caller: OperatorId)
    ensures var s' := Purge(s, caller);
      && (forall i | i in s'.requests :: i in s.requests && s'.requests[i] == s.requests[i])
      && (forall i | i in s.requests && s.requests[i].request.creator != caller :: i in s'.requests)
  {
    hide NumbersToRestore, ReversePurged, Restored;
  }

  lemma PurgeSparesReverses(s: Platform, caller: OperatorId, n: Msisdn, since: Time)
    requires DossiersSound(s) && !NamedBy(s, caller, n)
    ensures var after := Purge(s, caller).requests;
      && (ReversedSince(after, n, since) <==> ReversedSince(s.requests, n, since))
      && (ReversedAfter(after, n, since) <==> ReversedAfter(s.requests, n, since))
  {
    PurgeSpares(s, caller, n);
    var after := Purge(s, caller).requests;
    hide Moved, MovedAt, Purge, DossiersSound, NamedBy;
    if ReversedSince(s.requests, n, since) {
      var k :| k in s.requests && s.requests[k].request.kind == Reverse && Moved(s.requests[k], n)
               && since <= MovedAt(s.requests[k]);
      assert k in after && after[k] == s.requests[k];
    }
    if ReversedAfter(s.requests, n, since) {
      var k :| k in s.requests && s.requests[k].request.kind == Reverse && Moved(s.requests[k], n)
               && since < MovedAt(s.requests[k]);
      assert k in after && after[k] == s.requests[k];
    }
  }

  lemma PurgeKeepsLedger(s: Platform, caller: OperatorId, initial: Registry)
    requires DossiersSound(s) && Ledger(initial, s)
    ensures Ledger(Unnamed(s, caller, initial), Purge(s, caller))
  {
    var s', spared := Purge(s, caller), Unnamed(s, caller, initial);
    forall n | n in spared ensures LedgerEntry(spared[n], s'.requests, n, s'.registry[n]) {
      PurgeSpares(s, caller, n);
      LedgerStays(initial[n], s.requests, s'.requests, n, s.registry[n]);
    }
  }

  lemma PurgeKeepsHolders(s: Platform, caller: OperatorId, initial: Registry)
    requires DossiersSound(s) && Ledger(initial, s) && HoldersOk(s, initial.Keys)
    ensures HoldersOk(Purge(s, caller), Unnamed(s, caller, initial).Keys)
  {
    var s', spared := Purge(s, caller), Unnamed(s, caller, initial).Keys;
    forall i, n | i in s'.requests && Claims(s'.requests[i], n) && n in s'.registry && n in spared
      ensures HolderOk(s'.registry[n], s'.requests, s'.requests[i], n)
    {
      PurgeSpares(s, caller, n);
      PurgeSparesReverses(s, caller, n, ExpectedSince(s.requests[i]));
      assert n in s.registry && HolderOk(s.registry[n], s.requests, s.requests[i], n);
    }
  }

  lemma PurgeKeepsSpacing(s: Platform, caller: OperatorId, initial: Registry)
    requires Spaced(s.requests, initial.Keys) && RestitutedOnce(s.requests, initial.Keys)
    ensures var after, spared := Purge(s, caller).requests, Unnamed(s, caller, initial).Keys;
      Spaced(after, spared) && RestitutedOnce(after, spared)
  {
    var after, spared := Purge(s, caller).requests, Unnamed(s, caller, initial).Keys;
    assert forall i | i in after :: i in s.requests && after[i] == s.requests[i];
    hide SpacedPair, Claims, Moved, Purge, NamedBy;
    forall i, j, n | i in after && j in after && i != j && n in spared ensures SpacedPair(after[i], after[j], n) {
      assert SpacedPair(s.requests[i], s.requests[j], n);
    }
  }

  // ---- Opening a request --------------------------------------------------------

  /** What a new dossier must satisfy with respect to the tables it enters. */
  ghost predicate Admissible(s: Platform, d: Dossier) {
    && Sound(d, s.market, s.clock) && InProgress(d) && d.history == [] && d.request.createdAt == s.clock
    && QuorumOk(d, s.market)
    && (forall n | n in d.numbers :: n in s.registry)
    && (d.request.kind != Porting ==> s.registry[d.request.msisdn].origin == d.request.recipient)
    && (d.request.kind != Reverse ==>
          forall n | Active(d, n) ::
            && !RequestInProgressFor(s.requests, n)
            && s.registry[n].holder == d.request.source
            && (d.request.kind == Porting && s.registry[n].lastPorting.Some?
                ==> s.registry[n].lastPorting.value + DELAY_BETWEEN_PORTINGS <= s.clock)
            && (d.request.kind == Restitution ==>
                  && !s.registry[n].restituted
                  && (s.registry[n].lastPorting.Some?
                      ==> s.registry[n].lastPorting.value + DELAY_BEFORE_RESTITUTION <= s.clock)))
  }

  lemma InsertKeepsSound(s: Platform, d: Dossier)
    requires SoundPlatform(s) && Admissible(s, d)
    ensures SoundPlatform(Insert(s, d))
  {
    var s' := Insert(s, d);
    assert s.nextId !in s.requests;
    forall i, j, n | i in s'.requests && j in s'.requests && Claims(s'.requests[i], n) && Claims(s'.requests[j], n)
      ensures i == j
    {
      assert i in s.requests ==> InProgress(s.requests[i]) && Active(s.requests[i], n);
      assert j in s.requests ==> InProgress(s.requests[j]) && Active(s.requests[j], n);
    }
    forall rid | rid in s'.reverses ensures ReverseOk(s', rid, s'.reverses[rid]) {
      assert ReverseOk(s, rid, s.reverses[rid]);
    }
    assert d.request.kind != Porting ==> d.request.msisdn in d.numbers;
  }

  lemma InsertSameMoves(before: map<RequestId, Dossier>, id: RequestId, d: Dossier, n: Msisdn)
    requires id !in before && !Moved(d, n)
    ensures SameMoves(before, before[id := d], n)
  {}

  lemma InsertKeepsLedger(s: Platform, d: Dossier, initial: Registry)
    requires SoundPlatform(s) && Admissible(s, d) && Ledger(initial, s)
    ensures Ledger(initial, Insert(s, d))
  {
    forall n | n in initial ensures SameMoves(s.requests, Insert(s, d).requests, n) {
      InsertSameMoves(s.requests, s.nextId, d, n);
    }
    LedgerStaysAll(initial, s, Insert(s, d));
  }

  /** A newcomer is spaced from every request that moved one of its numbers. */
  lemma NewcomerSpaced(s: Platform, d: Dossier, initial: Registry, j: RequestId, n: Msisdn)
    requires Admissible(s, d) && Ledger(initial, s) && j in s.requests && n in initial
    ensures SpacedPair(d, s.requests[j], n) && SpacedPair(s.requests[j], d, n)
    ensures d.request.kind == Restitution && s.requests[j].request.kind == Restitution && Moved(s.requests[j], n)
        ==> !Claims(d, n)
    ensures !Moved(d, n)
  {
    if Moved(s.requests[j], n) && Claims(d, n) {
      assert LedgerEntry(initial[n], s.requests, n, s.registry[n]);
    }
  }

  lemma InsertKeepsSpacing(s: Platform, d: Dossier, initial: Registry)
    requires s.nextId !in s.requests && Admissible(s, d) && Ledger(initial, s)
    requires Spaced(s.requests, initial.Keys) && RestitutedOnce(s.requests, initial.Keys)
    ensures Spaced(Insert(s, d).requests, initial.Keys) && RestitutedOnce(Insert(s, d).requests, initial.Keys)
  {
    hide SpacedPair, Admissible, Ledger, Claims, Moved;
    var before, after := s.requests, Insert(s, d).requests;
    forall i, j, n | i in after && j in after && i != j && n in initial.Keys ensures SpacedPair(after[i], after[j], n) {
      if i !in before {
        NewcomerSpaced(s, d, initial, j, n);
      } else if j !in before {
        NewcomerSpaced(s, d, initial, i, n);
      }
    }
    forall i, j, n | i in after && j in after && i != j && n in initial.Keys
        && after[i].request.kind == Restitution && after[j].request.kind == Restitution && Moved(after[j], n)
      ensures !Claims(after[i], n) && !Moved(after[i], n)
    {
      if j !in before {
        NewcomerSpaced(s, d, initial, i, n);
      } else if i !in before {
        NewcomerSpaced(s, d, initial, j, n);
      }
    }
  }

  lemma InsertKeepsHolders(s: Platform, d: Dossier, spared: set<Msisdn>)
    requires SoundPlatform(s) && Admissible(s, d) && HoldersOk(s, spared)
    ensures HoldersOk(Insert(s, d), spared)
  {
    var s' := Insert(s, d);
    assert s.nextId !in s.requests;
    forall i, n | i in s'.requests && Claims(s'.requests[i], n) && n in s'.registry && n in spared
      ensures HolderOk(s'.registry[n], s'.requests, s'.requests[i], n)
    {
      SameReverses(s.requests, s.nextId, d, n, ExpectedSince(s'.requests[i]));
      if i in s.requests {
        assert Claims(s.requests[i], n);
      } else {
        NoReverseAfterNow(s, n);
      }
    }
  }

  lemma InsertKeeps(s: Platform, d: Dossier, initial: Registry)
    requires Inv(s, initial) && Admissible(s, d)
    ensures Inv(Insert(s, d), initial)
    ensures QuorumPlatform(s) ==> QuorumPlatform(Insert(s, d))
  {
    InsertKeepsSound(s, d);
    InsertKeepsLedger(s, d, initial);
    InsertKeepsSpacing(s, d, initial);
    InsertKeepsHolders(s, d, initial.Keys);
  }
}
