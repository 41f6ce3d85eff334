/** A deferred transition through a whole tick: where it leaves the request, and where it
  leaves the numbers. */
module Deferral {
  import opened Entities
  import opened Tables
  import opened Operations
  import opened Lifecycle
  import opened Invariants
  import opened Passes
  import opened Ticks

  /** The request once a step is settled: a REVERSE that leaves CONFIRMATION is completed
    in the same tick, since nobody else may complete it. */
  function SettledAtOnce(s: Platform, id: RequestId): Platform {
    var s1 := ScheduleTransition(s, id, Immediate);
    if id in s1.requests && s1.requests[id].request.kind == Reverse then ApplyTransition(s1, id, Action) else s1
  }

  /** The ARTP's pass completes a REVERSE at COMPLETION by one transition. */
  lemma CompletedOnce(s: Platform, p: TickPlan, id: RequestId)
    requires CompletePossible(s, p) && id in s.requests && AwaitsArtp(s.requests[id], s.market)
    requires s.requests[id].request.step == Completion
    ensures var s' := CompleteAll(s, p.complete);
      id in s'.requests && AdvancedOnce(s.market, s.requests[id], s'.requests[id], Action, s.clock, s'.clock)
  {
    var s' := CompleteAll(s, p.complete);
    var i := ItsCompletion(s, p, id);
    CompleteEffect(s, p.complete);
    hide CompleteAll, CompletePossible;
    assert s'.requests[id] == Advance(s.market, s.requests[id], Action, p.complete[i].second);
  }

  lemma ItsCompletion(s: Platform, p: TickPlan, id: RequestId) returns (i: nat)
    requires CompletePossible(s, p) && id in s.requests && AwaitsArtp(s.requests[id], s.market)
    ensures i < |p.complete| && p.complete[i].id == id && DistinctCompletions(p.complete)
    ensures p.complete[i].fromConfirmation <==> s.requests[id].request.step == Confirmation
    ensures s.clock <= p.complete[i].second <= p.complete[|p.complete| - 1].second
  {
    assert id in PendingReverseCompletions(s);
    i :| 0 <= i < |p.complete| && p.complete[i].id == id;
  }

  lemma CompletedInTick(s: Platform, p: TickPlan, id: RequestId)
    requires SoundPlatform(s) && TickPossible(s, p) && !s.frozen && id in Expired(s, p).requests
    requires AwaitsArtp(Expired(s, p).requests[id], s.market) && Expired(s, p).requests[id].request.step == Completion
    ensures var d2, s' := Expired(s, p).requests[id], Tick(s, p);
      && id in s'.requests && Expired(s, p).clock <= s'.clock
      && AdvancedOnce(s.market, d2, s'.requests[id], Action, Expired(s, p).clock, s'.clock)
  {
    SameAfterValidation(s, p, id);
    assert Tick(s, p) == CompleteAll(Validated(s, p), p.complete);
    hide SoundPlatform, TickPossible, AwaitsArtp, Tick, Expired, Validated, CompletePossible, AdvancedOnce;
    CompletedOnce(Validated(s, p), p, id);
    OnceEarlier(s.market, Expired(s, p).requests[id], Tick(s, p).requests[id], Validated(s, p).clock, Tick(s, p).clock,
                Expired(s, p).clock);
  }

  lemma OnceEarlier(m: Market, d: Dossier, d': Dossier, from: Time, to: Time, earlier: Time)
    requires AdvancedOnce(m, d, d', Action, from, to) && earlier <= from
    ensures AdvancedOnce(m, d, d', Action, earlier, to)
  {}

  lemma SameAfterValidation(s: Platform, p: TickPlan, id: RequestId)
    requires SoundPlatform(s) && TickPossible(s, p) && !s.frozen && id in Expired(s, p).requests
    ensures var s2, s3 := Expired(s, p), Validated(s, p);
      && id in s3.requests && s3.requests[id] == s2.requests[id] && s3.market == s.market
      && s2.clock <= s3.clock <= Tick(s, p).clock && CompletePossible(s3, p)
  {
    Stages(s, p);
    ValidateEffect(At(Expired(s, p), p.validateAt), p.validate);
    hide SoundPlatform, ValidateAll, CompleteAll, ApplyAll;
  }

  lemma UndatedTwice(m: Market, d: Dossier, deadline: Time, t1: Time, t2: Time, now: Time)
    requires InProgress(d) && d.request.step == Confirmation
    ensures Undated(Advance(m, Advance(m, WithDeadline(d, deadline), Action, t1), Action, t2))
            == Undated(Advance(m, Advance(m, d, Action, now), Action, now))
  {
    var a := Advance(m, Advance(m, WithDeadline(d, deadline), Action, t1), Action, t2);
    var b := Advance(m, Advance(m, d, Action, now), Action, now);
    assert Undated(a).history == Undated(b).history;
  }

  /** Two transitions, whenever. */
  ghost predicate AdvancedTwice(m: Market, d: Dossier, d': Dossier) {
    exists t1, t2 :: d' == Advance(m, Advance(m, d, Action, t1), Action, t2)
  }

  lemma TwiceFromOnce(m: Market, d: Dossier, d1: Dossier, d2: Dossier, a: Time, b: Time, a': Time, b': Time)
    requires AdvancedOnce(m, d, d1, Action, a, b) && AdvancedOnce(m, d1, d2, Action, a', b')
    ensures AdvancedTwice(m, d, d2)
  {
    var t1 :| a <= t1 <= b && d1 == Advance(m, d, Action, t1);
    var t2 :| a' <= t2 <= b' && d2 == Advance(m, d1, Action, t2);
  }

  lemma OpensCompletion(m: Market, d: Dossier, d': Dossier, from: Time, to: Time)
    requires AdvancedOnce(m, d, d', Action, from, to) && InProgress(d)
    requires d.request.kind == Reverse && d.request.step == Confirmation
    ensures AwaitsArtp(d', m) && d'.request.step == Completion
  {}

  /** The tick that finds a REVERSE's deadline passed takes it through both its steps. */
  lemma ConvergedReverse(s: Platform, p: TickPlan, id: RequestId)
    requires SoundPlatform(s) && TickPossible(s, p) && !s.frozen && id in s.requests
    requires s.requests[id].request.kind == Reverse && Due(s.requests[id], p.dueAt)
    ensures id in Tick(s, p).requests && s.requests[id].request.step == Confirmation
    ensures AdvancedTwice(s.market, s.requests[id], Tick(s, p).requests[id])
  {
    var d, s2 := s.requests[id], Expired(s, p);
    assert Sound(d, s.market, s.clock);
    assert d.request.step == Confirmation by { assert DeadlineOk(d); }
    AfterExpire(s, p, id);
    hide SoundPlatform, TickPossible, Sound, AdvancedOnce, AdvancedTwice, Expired, Tick, AwaitsArtp;
    OpensCompletion(s.market, d, s2.requests[id], p.dueAt, s2.clock);
    CompletedInTick(s, p, id);
    TwiceFromOnce(s.market, d, s2.requests[id], Tick(s, p).requests[id], p.dueAt, s2.clock, s2.clock, Tick(s, p).clock);
  }

  lemma WaitingStays(s: Platform, p: TickPlan, id: RequestId)
    requires SoundPlatform(s) && TickPossible(s, p) && !s.frozen && id in s.requests
    requires s.requests[id].request.deadline.Some? && p.dueAt < s.requests[id].request.deadline.value
    ensures id in Tick(s, p).requests && Tick(s, p).requests[id] == s.requests[id]
  {
    AfterExpire(s, p, id);
    ThroughTick(s, p, id);
  }

  lemma ImmediateTwice(s: Platform, id: RequestId)
    requires id in s.requests && InProgress(s.requests[id])
    requires s.requests[id].request.kind == Reverse && s.requests[id].request.step == Confirmation
    ensures id in SettledAtOnce(s, id).requests
    ensures SettledAtOnce(s, id).requests[id]
            == Advance(s.market, Advance(s.market, s.requests[id], Action, s.clock), Action, s.clock)
  {}

  lemma OneStepDeferred(s: Platform, p: TickPlan, id: RequestId, d: Dossier, deadline: Time, now: Time)
    requires SoundPlatform(s) && TickPossible(s, p) && !s.frozen && id in s.requests
    requires s.requests[id] == WithDeadline(d, deadline) && InProgress(d) && d.request.kind != Reverse
    requires deadline <= p.dueAt
    ensures id in Tick(s, p).requests && Undated(Tick(s, p).requests[id]) == Undated(Advance(s.market, d, Action, now))
  {
    hide SoundPlatform, TickPossible, Tick, Undated, Advance;
    OneStepPerTick(s, p, id);
    var t :| p.dueAt <= t <= Tick(s, p).clock
        && Tick(s, p).requests[id] == Advance(s.market, s.requests[id], Action, t);
    AdvanceUndated(s.market, d, deadline, t, now);
  }

  lemma ReverseDeferred(s: Platform, p: TickPlan, id: RequestId, d: Dossier, deadline: Time, now: Time)
    requires SoundPlatform(s) && TickPossible(s, p) && !s.frozen && id in s.requests
    requires s.requests[id] == WithDeadline(d, deadline) && InProgress(d) && d.request.kind == Reverse
    requires deadline <= p.dueAt
    ensures id in Tick(s, p).requests && d.request.step == Confirmation
    ensures Undated(Tick(s, p).requests[id])
            == Undated(Advance(s.market, Advance(s.market, d, Action, now), Action, now))
  {
    hide SoundPlatform, TickPossible, Tick, Undated, Advance, AdvancedTwice;
    ConvergedReverse(s, p, id);
    TwiceUndated(s.market, d, deadline, Tick(s, p).requests[id], now);
  }

  /** Through a whole tick, in whatever state the rest of the tables has reached by then:
    a tick that finds the deadline passed leaves the request, dates aside, exactly where
    settling the step at once would have, and no earlier tick moves it. */
  lemma TickConvergesDeferred(
    s: Platform, id: RequestId, deadline: Time, before: Platform, p: TickPlan, after: Platform)
    requires id in s.requests && InProgress(s.requests[id])
    requires id in before.requests && before.requests[id] == WithDeadline(s.requests[id], deadline)
    requires before.market == s.market
    requires SoundPlatform(before) && TickPossible(before, p) && !before.frozen && after == Tick(before, p)
    ensures id in after.requests && id in SettledAtOnce(s, id).requests
    ensures if deadline <= p.dueAt then Undated(after.requests[id]) == Undated(SettledAtOnce(s, id).requests[id])
            else after.requests[id] == before.requests[id]
  {
    hide SoundPlatform, TickPossible, Tick, Undated, Advance, SettledAtOnce;
    var d := s.requests[id];
    if d.request.kind == Reverse {
      DeferredAtConfirmation(before, id, d, deadline);
      ImmediateTwice(s, id);
    } else {
      SettledOnce(s, id);
    }
    if p.dueAt < deadline {
      WaitingStays(before, p, id);
    } else if d.request.kind == Reverse {
      ReverseDeferred(before, p, id, d, deadline, s.clock);
    } else {
      OneStepDeferred(before, p, id, d, deadline, s.clock);
    }
  }

  lemma DeferredAtConfirmation(s: Platform, id: RequestId, d: Dossier, deadline: Time)
    requires SoundPlatform(s) && id in s.requests && s.requests[id] == WithDeadline(d, deadline)
    requires d.request.kind == Reverse
    ensures d.request.step == Confirmation
  {
    assert DeadlineOk(s.requests[id]) by { assert Sound(s.requests[id], s.market, s.clock); }
  }

  lemma TwiceUndated(m: Market, d: Dossier, deadline: Time, d': Dossier, now: Time)
    requires InProgress(d) && d.request.step == Confirmation && AdvancedTwice(m, WithDeadline(d, deadline), d')
    ensures Undated(d') == Undated(Advance(m, Advance(m, d, Action, now), Action, now))
  {
    var t1, t2 :| d' == Advance(m, Advance(m, WithDeadline(d, deadline), Action, t1), Action, t2);
    UndatedTwice(m, d, deadline, t1, t2, now);
  }

  lemma SettledOnce(s: Platform, id: RequestId)
    requires id in s.requests && InProgress(s.requests[id]) && s.requests[id].request.kind != Reverse
    ensures id in SettledAtOnce(s, id).requests
    ensures SettledAtOnce(s, id).requests[id] == Advance(s.market, s.requests[id], Action, s.clock)
  {}

  // ---- The numbers ---------------------------------------------------------------------

  /** The porting has handed the number over and still claims it, and the number is with
    the recipient unless a REVERSE completed on it since. */
  ghost predicate Placed(s: Platform, id: RequestId, n: Msisdn) {
    && id in s.requests && Claims(s.requests[id], n) && n in s.registry
    && s.requests[id].request.kind == Porting && Ported(s.requests[id])
    && HolderOk(s.registry[n], s.requests, s.requests[id], n)
  }

  /** A porting at ACTIVATION, about to hand the number over. */
  ghost predicate Handing(s: Platform, id: RequestId, n: Msisdn) {
    && id in s.requests && Claims(s.requests[id], n) && n in s.registry
    && s.requests[id].request.kind == Porting && s.requests[id].request.step == Activation
  }

  lemma TransitionPlaces(s: Platform, id: RequestId, origin: Origin, n: Msisdn)
    requires SoundPlatform(s) && Handing(s, id, n)
    ensures Placed(ApplyTransition(s, id, origin), id, n)
  {
    AdvanceRouting(s.requests[id], s.market, origin, s.clock) by {
      assert Sound(s.requests[id], s.market, s.clock);
    }
    assert n in Departing(s.requests[id]);
    hide HolderOk, SoundPlatform;
    HandedOver(s, id, origin, n);
  }

  lemma OtherLeavesPlaced(s: Platform, job: RequestId, origin: Origin, id: RequestId, n: Msisdn)
    requires SoundPlatform(s) && Placed(s, id, n) && job != id
    ensures Placed(ApplyTransition(s, job, origin), id, n)
  {
    hide HolderOk, SoundPlatform, Departing;
    if job in s.requests && InProgress(s.requests[job]) {
      if n in Departing(s.requests[job]) {
        TakenAway(s, job, origin, id, n);
      } else {
        NotDeparting(s, job, origin, id, n);
      }
    }
  }

  lemma OtherLeavesHanding(s: Platform, job: RequestId, origin: Origin, id: RequestId, n: Msisdn)
    requires Handing(s, id, n) && job != id
    ensures Handing(ApplyTransition(s, job, origin), id, n)
  {}

  lemma PlacedAt(s: Platform, t: Time, id: RequestId, n: Msisdn)
    ensures Placed(At(s, t), id, n) <==> Placed(s, id, n)
    ensures Handing(At(s, t), id, n) <==> Handing(s, id, n)
  {}

  /** A pass hands the numbers of the porting over if it handles it, and leaves them in
    their place if it was handled before. */
  lemma {:induction false} PassPlaces(s: Platform, jobs: seq<Job>, origin: Origin, id: RequestId, n: Msisdn)
    requires Inv(s, map[]) && InOrder(s.clock, jobs) && DistinctJobs(jobs)
    ensures Placed(s, id, n) && !Handles(jobs, id) ==> Placed(ApplyAll(s, jobs, origin), id, n)
    ensures Handing(s, id, n) ==>
      if Handles(jobs, id) then Placed(ApplyAll(s, jobs, origin), id, n) else Handing(ApplyAll(s, jobs, origin), id, n)
  {
    hide SoundPlatform, Placed, Handing, ApplyTransition;
    if jobs != [] {
      var front, last := jobs[..|jobs| - 1], jobs[|jobs| - 1];
      var s1 := ApplyAll(s, front, origin);
      PassPlaces(s, front, origin, id, n);
      PassKeeps(s, front, origin, map[]);
      AtKeeps(s1, last.at, map[]);
      PlacedAt(s1, last.at, id, n);
      HandlesLast(jobs, id);
      if last.id != id {
        if Placed(s1, id, n) { OtherLeavesPlaced(At(s1, last.at), last.id, origin, id, n); }
        if Handing(s1, id, n) { OtherLeavesHanding(At(s1, last.at), last.id, origin, id, n); }
      } else if Handing(s1, id, n) {
        TransitionPlaces(At(s1, last.at), id, origin, n);
      }
    }
  }

  lemma HandlesLast(jobs: seq<Job>, id: RequestId)
    requires jobs != [] && DistinctJobs(jobs)
    ensures Handles(jobs, id) <==> Handles(jobs[..|jobs| - 1], id) || jobs[|jobs| - 1].id == id
    ensures !(Handles(jobs[..|jobs| - 1], id) && jobs[|jobs| - 1].id == id)
  {
    var front := jobs[..|jobs| - 1];
    assert jobs == front + [jobs[|jobs| - 1]];
    if i :| 0 <= i < |front| && front[i].id == id { assert jobs[i].id == id; }
  }

  /** Opening a REVERSE moves nothing. */
  lemma ValidationsLeavePlaced(s: Platform, jobs: seq<Job>, id: RequestId, n: Msisdn)
    requires Inv(s, map[]) && Placed(s, id, n)
    ensures Placed(ValidateAll(s, jobs), id, n)
  {
    ValidateEffect(s, jobs);
    hide ValidateAll, Inv, HolderOk, Claims;
    var after := ValidateAll(s, jobs).requests;
    SameReversesOpened(s.requests, after, n, ExpectedSince(s.requests[id]));
    SameHolderOk(s.registry[n], s.requests, after, s.requests[id], n);
  }

  lemma SameReversesOpened(before: map<RequestId, Dossier>, after: map<RequestId, Dossier>, n: Msisdn, since: Time)
    requires forall k | k in before :: k in after && after[k] == before[k]
    requires forall k | k in after && k !in before :: InProgress(after[k]) && after[k].request.kind == Reverse
    ensures ReversedSince(after, n, since) <==> ReversedSince(before, n, since)
    ensures ReversedAfter(after, n, since) <==> ReversedAfter(before, n, since)
  {
    forall k ensures k in before && before[k].request.kind == Reverse && Moved(before[k], n)
                     <==> k in after && after[k].request.kind == Reverse && Moved(after[k], n) {}
  }

  lemma SameHolderOk(e: RegistryEntry, before: map<RequestId, Dossier>, after: map<RequestId, Dossier>, d: Dossier,
      n: Msisdn)
    requires ReversedSince(after, n, ExpectedSince(d)) <==> ReversedSince(before, n, ExpectedSince(d))
    requires ReversedAfter(after, n, ExpectedSince(d)) <==> ReversedAfter(before, n, ExpectedSince(d))
    ensures HolderOk(e, after, d, n) <==> HolderOk(e, before, d, n)
  {
    hide ReversedSince, ReversedAfter;
  }

  lemma {:induction false} CompletionsLeavePlaced(s: Platform, jobs: seq<CompletionJob>, id: RequestId, n: Msisdn)
    requires Inv(s, map[]) && CompletionsInOrder(s.clock, jobs) && Placed(s, id, n)
    requires forall i | 0 <= i < |jobs| :: jobs[i].id != id
    ensures Placed(CompleteAll(s, jobs), id, n)
  {
    hide SoundPlatform, Placed, Advance, Transfer;
    if jobs != [] {
      var front, j := jobs[..|jobs| - 1], jobs[|jobs| - 1];
      var s0 := CompleteAll(s, front);
      CompletionsLeavePlaced(s, front, id, n);
      CompleteAllKeeps(s, front, map[]);
      var s1 := if j.fromConfirmation then ApplyTransition(At(s0, j.first), j.id, Action) else s0;
      AtKeeps(s0, j.first, map[]);
      PlacedAt(s0, j.first, id, n);
      OtherLeavesPlaced(At(s0, j.first), j.id, Action, id, n);
      TransitionKeeps(At(s0, j.first), j.id, Action, map[]);
      AtKeeps(s1, j.second, map[]);
      PlacedAt(s1, j.second, id, n);
      OtherLeavesPlaced(At(s1, j.second), j.id, Action, id, n);
    }
  }

  lemma ConvergenceHandles(s: Platform, p: TickPlan, id: RequestId)
    requires ConvergePossible(s, p) && id in s.requests && Due(s.requests[id], p.dueAt)
    ensures Handles(p.converge, id) && DistinctJobs(p.converge)
  {
    assert id in DueConvergences(s, p.dueAt);
  }

  lemma ExpirationSkips(s: Platform, p: TickPlan, id: RequestId)
    requires ConvergePossible(s, p) && ExpirePossible(Converged(s, p), p)
    requires id in s.requests && Due(s.requests[id], p.dueAt)
    ensures !Handles(p.expire, id) && DistinctJobs(p.expire)
  {
    ConvergeOne(s, p, id);
    JustAdvanced(s.market, s.requests[id], Converged(s, p).requests[id], p, Converged(s, p).clock);
  }

  lemma EnginePlaces(s: Platform, p: TickPlan, id: RequestId, n: Msisdn)
    requires SoundPlatform(s) && ConvergePossible(s, p) && ExpirePossible(Converged(s, p), p)
    requires Handing(s, id, n) && Due(s.requests[id], p.dueAt)
    ensures Placed(Expired(s, p), id, n)
  {
    ConvergenceHandles(s, p, id);
    ExpirationSkips(s, p, id);
    AtKeeps(s, p.dueAt, map[]);
    ConvergeKeeps(s, p, map[]);
    PlacedAt(s, p.dueAt, id, n);
    hide SoundPlatform, Placed, Handing, ApplyAll;
    PassPlaces(At(s, p.dueAt), p.converge, Action, id, n);
    PassPlaces(Converged(s, p), p.expire, Expiration, id, n);
  }

  lemma ActsPlace(s: Platform, p: TickPlan, id: RequestId, n: Msisdn)
    requires SoundPlatform(s) && TickPossible(s, p) && !s.frozen && Placed(Expired(s, p), id, n)
    ensures Placed(Tick(s, p), id, n)
  {
    var s2, s3 := Expired(s, p), Validated(s, p);
    Stages(s, p);
    Acts(s, p);
    AtStillSound(s, p);
    SameAfterValidation(s, p, id);
    PlacedAt(s2, p.validateAt, id, n);
    assert Placed(s3, id, n) by {
      hide Placed, SoundPlatform;
      ValidationsLeavePlaced(At(s2, p.validateAt), p.validate, id, n);
    }
    NotCompleted(s3, p, id, n);
    hide Placed, SoundPlatform, TickPossible, OnlyReverses, CompleteAll;
    CompletionsLeavePlaced(s3, p.complete, id, n);
  }

  lemma AtStillSound(s: Platform, p: TickPlan)
    requires SoundPlatform(s) && TickPossible(s, p) && !s.frozen
    ensures Inv(At(Expired(s, p), p.validateAt), map[])
  {
    Stages(s, p);
    AtKeeps(Expired(s, p), p.validateAt, map[]);
  }

  lemma NotCompleted(s: Platform, p: TickPlan, id: RequestId, n: Msisdn)
    requires OnlyReverses(s, p.complete) && Placed(s, id, n)
    ensures forall i | 0 <= i < |p.complete| :: p.complete[i].id != id
  {}

  /** The numbers of a porting whose ACTIVATION the tick converges are with the recipient
    at its end, unless a REVERSE completed on them since, which sends them home. */
  lemma TickHandsOver(s: Platform, p: TickPlan, s': Platform, id: RequestId, n: Msisdn)
    requires SoundPlatform(s) && TickPossible(s, p) && !s.frozen && s' == Tick(s, p)
    requires id in s.requests && Due(s.requests[id], p.dueAt) && Active(s.requests[id], n)
    requires s.requests[id].request.kind == Porting && s.requests[id].request.step == Activation
    ensures id in s'.requests && n in s'.registry && MovedAt(s'.requests[id]) >= p.dueAt
    ensures var d, e := s.requests[id], s'.registry[n];
      && (e.holder == d.request.recipient
          || (e.holder == e.origin && ReversedSince(s'.requests, n, MovedAt(s'.requests[id]))))
      && (ReversedAfter(s'.requests, n, MovedAt(s'.requests[id])) ==> e.holder == e.origin)
  {
    assert Handing(s, id, n) by { assert n in s.requests[id].numbers; }
    Stages(s, p);
    OneStepPerTick(s, p, id);
    hide TickPossible, Tick, SoundPlatform, Placed, Handing, ApplyAll;
    assert Placed(s', id, n) by {
      TickStarts(s, p);
      EnginePlaces(s, p, id, n);
      ActsPlace(s, p, id, n);
    }
    Activated(s, s', id, n, p.dueAt, s'.clock);
    PlacedIs(s', id, n);
  }

  lemma TickStarts(s: Platform, p: TickPlan)
    requires TickPossible(s, p) && !s.frozen
    ensures ConvergePossible(s, p) && ExpirePossible(Converged(s, p), p)
  {}

  lemma PlacedIs(s: Platform, id: RequestId, n: Msisdn)
    requires Placed(s, id, n)
    ensures n in s.registry && HolderOk(s.registry[n], s.requests, s.requests[id], n) && Ported(s.requests[id])
  {}

  lemma Activated(s: Platform, s': Platform, id: RequestId, n: Msisdn, from: Time, to: Time)
    requires SoundPlatform(s) && SoundPlatform(s') && id in s.requests && id in s'.requests
    requires InProgress(s.requests[id])
    requires AdvancedOnce(s.market, s.requests[id], s'.requests[id], Action, from, to) && Active(s.requests[id], n)
    requires s.requests[id].request.kind == Porting && s.requests[id].request.step == Activation
    ensures var d' := s'.requests[id];
      && n in s'.registry && Claims(d', n) && Ported(d') && MovedAt(d') >= from
      && d'.request.recipient == s.requests[id].request.recipient
  {
    var d := s.requests[id];
    var t :| from <= t <= to && s'.requests[id] == Advance(s.market, d, Action, t);
    assert Sound(d, s.market, s.clock);
    AdvanceRouting(d, s.market, Action, t);
    assert n in s'.requests[id].numbers && n in s'.registry;
    assert |s.requests[id].history| == Rank(Activation) by { assert HistoryShape(d); }
    hide SoundPlatform, Sound;
  }

  ghost predicate Home(s: Platform, n: Msisdn) {
    n in s.registry && s.registry[n].holder == s.registry[n].origin
  }

  ghost predicate NoPortingClaims(s: Platform, n: Msisdn) {
    forall i | i in s.requests && s.requests[i].request.kind == Porting :: !Claims(s.requests[i], n)
  }

  /** Whatever is not a porting of the number leaves it home, and a closing COMPLETION
    sends it there. */
  lemma TransitionHome(s: Platform, id: RequestId, origin: Origin, n: Msisdn)
    requires SoundPlatform(s) && !HandsOverNow(s.requests, id, n)
    ensures Home(s, n) ==> Home(ApplyTransition(s, id, origin), n)
    ensures Returns(s, id, n) && InProgress(s.requests[id]) && !InProgress(ApplyTransition(s, id, origin).requests[id])
            ==> Home(ApplyTransition(s, id, origin), n)
  {
    if id in s.requests {
      assert s.requests[id].request.kind != Porting ==> s.requests[id].request.msisdn in s.registry;
    }
  }

  lemma TransitionClaims(s: Platform, id: RequestId, origin: Origin, n: Msisdn)
    requires SoundPlatform(s) && NoPortingClaims(s, n)
    ensures NoPortingClaims(ApplyTransition(s, id, origin), n)
  {
    if id in s.requests && InProgress(s.requests[id]) {
      assert Sound(s.requests[id], s.market, s.clock);
      AdvanceMoves(s.requests[id], s.market, origin, s.clock, s.clock);
    }
  }

  /** Between the two states the request stayed or ended, and if the number was home, or
    the request ended, the number is home. */
  ghost predicate SentHome(a: Platform, b: Platform, id: RequestId, n: Msisdn) {
    && id in a.requests && id in b.requests
    && b.requests[id].request.kind == a.requests[id].request.kind
    && b.requests[id].request.msisdn == a.requests[id].request.msisdn
    && (!InProgress(a.requests[id]) ==> !InProgress(b.requests[id]))
    && (Home(a, n) ==> Home(b, n))
    && (InProgress(a.requests[id]) && !InProgress(b.requests[id]) ==> Home(b, n))
  }

  lemma SentHomeTransitive(a: Platform, b: Platform, c: Platform, id: RequestId, n: Msisdn)
    requires SentHome(a, b, id, n) && SentHome(b, c, id, n)
    ensures SentHome(a, c, id, n)
  {}

  /** A REVERSE or a restitution, to which the number belongs. */
  predicate Returns(s: Platform, id: RequestId, n: Msisdn) {
    id in s.requests && s.requests[id].request.kind != Porting && s.requests[id].request.msisdn == n
  }

  lemma OneSendsHome(s: Platform, at: Time, job: RequestId, origin: Origin, id: RequestId, n: Msisdn)
    requires Inv(s, map[]) && s.clock <= at && Returns(s, id, n)
    requires !HandsOverNow(s.requests, job, n)
    ensures SentHome(s, ApplyTransition(At(s, at), job, origin), id, n)
  {
    AtKeeps(s, at, map[]);
    TransitionHome(At(s, at), job, origin, n);
    hide Inv, Transfer, Departing, Claims;
  }

  lemma {:induction false} PassSendsHome(s: Platform, jobs: seq<Job>, origin: Origin, id: RequestId, n: Msisdn)
    requires Inv(s, map[]) && InOrder(s.clock, jobs) && NoPortingClaims(s, n) && Returns(s, id, n)
    ensures SentHome(s, ApplyAll(s, jobs, origin), id, n) && NoPortingClaims(ApplyAll(s, jobs, origin), n)
  {
    hide SoundPlatform, SentHome, ApplyTransition;
    if jobs == [] {
      StaysHome(s, s, id, n);
    } else {
      var front, last := jobs[..|jobs| - 1], jobs[|jobs| - 1];
      var s1 := ApplyAll(s, front, origin);
      PassSendsHome(s, front, origin, id, n);
      PassKeeps(s, front, origin, map[]);
      StillReturns(s, s1, id, n);
      OneSendsHome(s1, last.at, last.id, origin, id, n);
      SentHomeTransitive(s, s1, ApplyAll(s, jobs, origin), id, n);
      AtKeeps(s1, last.at, map[]);
      TransitionClaims(At(s1, last.at), last.id, origin, n);
    }
  }

  lemma StillReturns(a: Platform, b: Platform, id: RequestId, n: Msisdn)
    requires SentHome(a, b, id, n) && Returns(a, id, n)
    ensures Returns(b, id, n)
  {}

  lemma StaysHome(a: Platform, b: Platform, id: RequestId, n: Msisdn)
    requires id in a.requests && id in b.requests && b.requests[id] == a.requests[id] && b.registry == a.registry
    ensures SentHome(a, b, id, n)
  {}

  ghost predicate OnlyReverses(s: Platform, jobs: seq<CompletionJob>) {
    forall i | 0 <= i < |jobs| :: jobs[i].id in s.requests && s.requests[jobs[i].id].request.kind == Reverse
  }

  lemma CompletionSendsHome(s: Platform, j: CompletionJob, id: RequestId, n: Msisdn)
    requires Inv(s, map[]) && s.clock <= j.first <= j.second && Returns(s, id, n)
    requires j.id in s.requests && s.requests[j.id].request.kind == Reverse
    ensures SentHome(s, CompleteOne(s, j), id, n)
  {
    hide SoundPlatform, SentHome, Transfer, Departing;
    var s1 := if j.fromConfirmation then ApplyTransition(At(s, j.first), j.id, Action) else s;
    AtKeeps(s, j.first, map[]);
    TransitionKeeps(At(s, j.first), j.id, Action, map[]);
    if j.fromConfirmation {
      OneSendsHome(s, j.first, j.id, Action, id, n);
    } else {
      StaysHome(s, s, id, n);
    }
    StillReturns(s, s1, id, n);
    OneSendsHome(s1, j.second, j.id, Action, id, n);
    SentHomeTransitive(s, s1, CompleteOne(s, j), id, n);
  }

  lemma {:induction false} CompletionsSendHome(s: Platform, jobs: seq<CompletionJob>, id: RequestId, n: Msisdn)
    requires Inv(s, map[]) && CompletionsInOrder(s.clock, jobs) && DistinctCompletions(jobs) && OnlyReverses(s, jobs)
    requires Returns(s, id, n)
    ensures SentHome(s, CompleteAll(s, jobs), id, n)
  {
    hide Inv, SentHome, CompleteOne;
    if jobs == [] {
      StaysHome(s, s, id, n);
    } else {
      var front, last := jobs[..|jobs| - 1], jobs[|jobs| - 1];
      var s1 := CompleteAll(s, front);
      CompletionsSendHome(s, front, id, n);
      CompleteAllKeeps(s, front, map[]);
      CompleteEffect(s, front);
      assert jobs[|front|] == last && !HandlesCompletion(front, last.id);
      StillReturns(s, s1, id, n);
      CompletionSendsHome(s1, last, id, n);
      SentHomeTransitive(s, s1, CompleteAll(s, jobs), id, n);
    }
  }

  lemma ActsSendHome(s: Platform, p: TickPlan, id: RequestId, n: Msisdn)
    requires SoundPlatform(s) && TickPossible(s, p) && !s.frozen && Returns(Expired(s, p), id, n)
    ensures SentHome(Expired(s, p), Tick(s, p), id, n)
  {
    var s2, s3 := Expired(s, p), Validated(s, p);
    Acts(s, p);
    SameAfterValidation(s, p, id);
    hide TickPossible, SentHome, SoundPlatform, Expired, Validated, Tick, CompletePossible, Returns;
    hide OnlyReverses, DistinctCompletions, CompletionsInOrder;
    StaysHome(s2, s3, id, n);
    StillReturns(s2, s3, id, n);
    CompletionsSendHome(s3, p.complete, id, n);
    SentHomeTransitive(s2, s3, Tick(s, p), id, n);
  }

  lemma Acts(s: Platform, p: TickPlan)
    requires SoundPlatform(s) && TickPossible(s, p) && !s.frozen
    ensures var s3 := Validated(s, p);
      && Inv(s3, map[]) && s3.registry == Expired(s, p).registry && Tick(s, p) == CompleteAll(s3, p.complete)
      && OnlyReverses(s3, p.complete) && DistinctCompletions(p.complete) && CompletionsInOrder(s3.clock, p.complete)
  {
    Stages(s, p);
    SoundIsInv(Validated(s, p));
    hide Inv, SoundPlatform, ValidateAll, ApplyAll, CompleteAll, ConvergePossible, ExpirePossible, ValidatePossible,
      CompletePossible, OnlyReverses, DistinctCompletions, CompletionsInOrder;
    SameRegistry(s, p);
    CompletesReverses(Validated(s, p), p);
  }

  lemma SameRegistry(s: Platform, p: TickPlan)
    requires SoundPlatform(Expired(s, p))
    ensures Validated(s, p).registry == Expired(s, p).registry
  {
    assert forall x | x in Expired(s, p).requests :: x < Expired(s, p).nextId;
    hide SoundPlatform;
    ValidateEffect(At(Expired(s, p), p.validateAt), p.validate);
  }

  lemma CompletesReverses(s: Platform, p: TickPlan)
    requires CompletePossible(s, p)
    ensures OnlyReverses(s, p.complete) && DistinctCompletions(p.complete) && CompletionsInOrder(s.clock, p.complete)
  {}

  lemma EngineSendsHome(s: Platform, p: TickPlan, id: RequestId, n: Msisdn)
    requires SoundPlatform(s) && TickPossible(s, p) && !s.frozen && Returns(s, id, n) && NoPortingClaims(s, n)
    ensures SentHome(s, Expired(s, p), id, n)
  {
    var s0, s1 := At(s, p.dueAt), Converged(s, p);
    AtKeeps(s, p.dueAt, map[]);
    ConvergeKeeps(s, p, map[]);
    hide SoundPlatform, SentHome, ApplyAll;
    StaysHome(s, s0, id, n);
    PassSendsHome(s0, p.converge, Action, id, n);
    StillReturns(s0, s1, id, n);
    PassSendsHome(s1, p.expire, Expiration, id, n);
    SentHomeTransitive(s, s0, s1, id, n);
    SentHomeTransitive(s, s1, Expired(s, p), id, n);
  }

  lemma RestitutionExcludes(s: Platform, id: RequestId)
    requires SoundPlatform(s) && id in s.requests && InProgress(s.requests[id])
    requires s.requests[id].request.kind == Restitution
    ensures NoPortingClaims(s, s.requests[id].request.msisdn)
  {
    var d := s.requests[id];
    assert Sound(d, s.market, s.clock);
    var n :| Active(d, n);
    assert n == d.request.msisdn && Claims(d, n);
  }

  /** A REVERSE that no expiration closes during the tick is still open when the ARTP's
    pass starts. */
  lemma StillOpen(s: Platform, p: TickPlan, id: RequestId)
    requires SoundPlatform(s) && TickPossible(s, p) && !s.frozen && id in s.requests && InProgress(s.requests[id])
    requires s.requests[id].request.kind == Reverse
    requires s.requests[id].request.step == Confirmation || !Expires(s.requests[id], p)
    ensures Returns(Expired(s, p), id, s.requests[id].request.msisdn) && InProgress(Expired(s, p).requests[id])
  {
    assert Sound(s.requests[id], s.market, s.clock);
    AfterExpire(s, p, id);
  }

  /** A REVERSE that the tick finds at COMPLETION ends in it. */
  lemma AwaitedEnds(s: Platform, p: TickPlan, id: RequestId)
    requires SoundPlatform(s) && TickPossible(s, p) && !s.frozen && id in s.requests && InProgress(s.requests[id])
    requires s.requests[id].request.kind == Reverse && s.requests[id].request.step == Completion
    ensures id in Tick(s, p).requests && !InProgress(Tick(s, p).requests[id])
  {
    assert Sound(s.requests[id], s.market, s.clock);
    AfterExpire(s, p, id);
    ThroughTick(s, p, id);
  }

  /** A restitution, or a REVERSE not overdue at COMPLETION, that ends during a tick has
    its number home with its origin operator at the end of the tick, whatever else the
    tick does; and a REVERSE found at COMPLETION does end. */
  lemma TickSendsHome(s: Platform, p: TickPlan, s': Platform, id: RequestId)
    requires SoundPlatform(s) && TickPossible(s, p) && !s.frozen && s' == Tick(s, p)
    requires id in s.requests && InProgress(s.requests[id]) && s.requests[id].request.kind != Porting
    requires s.requests[id].request.kind == Reverse && s.requests[id].request.step == Completion
             ==> !Expires(s.requests[id], p)
    ensures id in s'.requests
    ensures !InProgress(s'.requests[id]) ==> Home(s', s.requests[id].request.msisdn)
    ensures s.requests[id].request.kind == Reverse && s.requests[id].request.step == Completion
            ==> !InProgress(s'.requests[id])
  {
    hide SoundPlatform, TickPossible, Tick, Expired, Home, Expires, SentHome;
    var d := s.requests[id];
    var n := d.request.msisdn;
    if d.request.kind == Restitution {
      RestitutionExcludes(s, id);
      EngineSendsHome(s, p, id, n);
      StillReturns(s, Expired(s, p), id, n);
      ActsSendHome(s, p, id, n);
      SentHomeTransitive(s, Expired(s, p), s', id, n);
      SentHomeEnds(s, s', id, n);
    } else {
      ReverseSteps(s, id);
      StillOpen(s, p, id);
      ActsSendHome(s, p, id, n);
      SentHomeEnds(Expired(s, p), s', id, n);
      if d.request.step == Completion { AwaitedEnds(s, p, id); }
    }
  }

  lemma ReverseSteps(s: Platform, id: RequestId)
    requires SoundPlatform(s) && id in s.requests && s.requests[id].request.kind == Reverse
    ensures s.requests[id].request.step == Confirmation || s.requests[id].request.step == Completion
  {
    assert Sound(s.requests[id], s.market, s.clock);
  }

  // ---- A REVERSE overdue at COMPLETION ---------------------------------------------------

  /** A porting about to hand the number over. */
  predicate HandsOverNow(requests: map<RequestId, Dossier>, id: RequestId, n: Msisdn) {
    id in requests && requests[id].request.kind == Porting && requests[id].request.step == Activation
    && Claims(requests[id], n)
  }

  lemma {:induction false} TailKeepsHome(s: Platform, jobs: seq<Job>, i: nat, origin: Origin, id: RequestId, n: Msisdn)
    requires Inv(s, map[]) && InOrder(s.clock, jobs) && DistinctJobs(jobs) && i < |jobs| && jobs[i].id == id
    requires Returns(s, id, n) && InProgress(s.requests[id]) && s.requests[id].request.step == Completion
    requires forall j | i < j < |jobs| :: !HandsOverNow(s.requests, jobs[j].id, n)
    ensures var s' := ApplyAll(s, jobs, origin); Returns(s', id, n) && !InProgress(s'.requests[id]) && Home(s', n)
  {
    hide SoundPlatform, ApplyAll, Home, ApplyTransition, SentHome, HandsOverNow;
    var front, last := jobs[..|jobs| - 1], jobs[|jobs| - 1];
    var s1 := ApplyAll(s, front, origin);
    PassKeeps(s, front, origin, map[]);
    UnhandledByFront(jobs);
    FrontLeaves(s, front, origin, last.id);
    if i < |front| {
      TailKeepsHome(s, front, i, origin, id, n);
    }
    ReturnsNotHands(s, id, n);
    assert jobs[|front|] == last && !HandsOverNow(s.requests, last.id, n);
    SameHands(s.requests, s1.requests, last.id, n);
    OneSendsHome(s1, last.at, last.id, origin, id, n);
    SentHomeEnds(s1, ApplyTransition(At(s1, last.at), last.id, origin), id, n);
    if i == |front| {
      ClosesCompletion(s1, last.at, id, origin);
    }
    ApplyLast(s, jobs, origin);
  }

  lemma ReturnsNotHands(s: Platform, id: RequestId, n: Msisdn)
    requires Returns(s, id, n)
    ensures !HandsOverNow(s.requests, id, n)
  {}

  lemma FrontLeaves(s: Platform, jobs: seq<Job>, origin: Origin, id: RequestId)
    requires DistinctJobs(jobs) && !Handles(jobs, id)
    ensures var s' := ApplyAll(s, jobs, origin);
      s'.requests.Keys == s.requests.Keys && (id in s.requests ==> s'.requests[id] == s.requests[id])
  {
    PassEffect(s, jobs, origin);
  }

  lemma UnhandledByFront(jobs: seq<Job>)
    requires jobs != [] && DistinctJobs(jobs)
    ensures !Handles(jobs[..|jobs| - 1], jobs[|jobs| - 1].id)
  {}

  lemma ApplyLast(s: Platform, jobs: seq<Job>, origin: Origin)
    requires jobs != []
    ensures var j, front := jobs[|jobs| - 1], jobs[..|jobs| - 1];
      ApplyAll(s, jobs, origin) == ApplyTransition(At(ApplyAll(s, front, origin), j.at), j.id, origin)
  {}

  lemma SameHands(a: map<RequestId, Dossier>, b: map<RequestId, Dossier>, id: RequestId, n: Msisdn)
    requires a.Keys == b.Keys && (id in a ==> b[id] == a[id])
    ensures HandsOverNow(a, id, n) <==> HandsOverNow(b, id, n)
  {}

  lemma SentHomeEnds(a: Platform, b: Platform, id: RequestId, n: Msisdn)
    requires SentHome(a, b, id, n) && Returns(a, id, n)
    ensures id in b.requests && Returns(b, id, n)
    ensures !InProgress(a.requests[id]) && Home(a, n) ==> !InProgress(b.requests[id]) && Home(b, n)
    ensures InProgress(a.requests[id]) && !InProgress(b.requests[id]) ==> Home(b, n)
  {}

  lemma ClosesCompletion(s: Platform, at: Time, id: RequestId, origin: Origin)
    requires id in s.requests && InProgress(s.requests[id]) && s.requests[id].request.step == Completion
    ensures var s' := ApplyTransition(At(s, at), id, origin); id in s'.requests && !InProgress(s'.requests[id])
  {}

  /** The case left: a REVERSE overdue at COMPLETION is closed by an expiration. Its
    number is home at the end of the tick unless a porting closes its ACTIVATION on the
    number later in the same pass. */
  lemma OverdueReverseSendsHome(s: Platform, p: TickPlan, s': Platform, id: RequestId, i: nat)
    requires SoundPlatform(s) && TickPossible(s, p) && !s.frozen && s' == Tick(s, p)
    requires id in s.requests && InProgress(s.requests[id]) && s.requests[id].request.kind == Reverse
    requires s.requests[id].request.step == Completion && i < |p.expire| && p.expire[i].id == id
    requires forall j | i < j < |p.expire| ::
               !HandsOverNow(Converged(s, p).requests, p.expire[j].id, s.requests[id].request.msisdn)
    ensures id in s'.requests && !InProgress(s'.requests[id]) && Home(s', s.requests[id].request.msisdn)
  {
    hide SoundPlatform, ConvergePossible, ExpirePossible, TickPossible, Tick, Home, SentHome, Converged, InOrder,
      HandsOverNow;
    var n, s1 := s.requests[id].request.msisdn, Converged(s, p);
    TickStarts(s, p);
    NotConverged(s, p, id);
    SoundIsInv(s);
    SoundIsInv(s1);
    ConvergeKeeps(s, p, map[]);
    ExpirationOrder(s1, p);
    hide Inv, ApplyAll;
    TailKeepsHome(s1, p.expire, i, Expiration, id, n);
    ActsSendHome(s, p, id, n);
    SentHomeEnds(Expired(s, p), s', id, n);
  }

  lemma ExpirationOrder(s: Platform, p: TickPlan)
    requires ExpirePossible(s, p)
    ensures InOrder(s.clock, p.expire) && DistinctJobs(p.expire)
  {}

  lemma NotConverged(s: Platform, p: TickPlan, id: RequestId)
    requires SoundPlatform(s) && ConvergePossible(s, p) && id in s.requests && InProgress(s.requests[id])
    requires s.requests[id].request.kind == Reverse && s.requests[id].request.step == Completion
    ensures id in Converged(s, p).requests && Converged(s, p).requests[id] == s.requests[id]
  {
    assert Sound(s.requests[id], s.market, s.clock);
    ConvergeOne(s, p, id);
  }
}
