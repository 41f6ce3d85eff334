/** Laws of the engine's tick: exactly what it does to each request, that a REVERSE
  is never stranded, that left alone it completes every request, and that a
  deferred transition ends where an immediate one does. */
module Ticks {
  import opened Entities
  import opened Tables
  import opened Operations
  import opened Lifecycle
  import opened Invariants
  import opened Passes

  // ---- One request through one tick ----------------------------------------------

  /** The request was advanced once, during the tick. */
  ghost predicate AdvancedOnce(m: Market, d: Dossier, d': Dossier, origin: Origin, from: Time, to: Time) {
    exists t :: from <= t <= to && d' == Advance(m, d, origin, t)
  }

  predicate Expires(d: Dossier, p: TickPlan) {
    p.timeout > 0 && Overdue(d, p.timeout, p.start)
  }

  lemma ConvergeOne(s: Platform, p: TickPlan, id: RequestId)
    requires ConvergePossible(s, p) && id in s.requests
    ensures var s1 := Converged(s, p); var d, d1 := s.requests[id], s1.requests[id];
      && SameFrame(s, s1) && p.dueAt <= s1.clock
      && (if Due(d, p.dueAt) then AdvancedOnce(s.market, d, d1, Action, p.dueAt, s1.clock) else d1 == d)
  {
    PassEffect(At(s, p.dueAt), p.converge, Action);
    if Due(s.requests[id], p.dueAt) {
      assert id in DueConvergences(s, p.dueAt);
      var i :| 0 <= i < |p.converge| && p.converge[i].id == id;
      assert p.converge[i].at <= p.converge[|p.converge| - 1].at;
      assert Converged(s, p).requests[id] == Advance(s.market, s.requests[id], Action, p.converge[i].at);
    } else {
      assert !Handles(p.converge, id);
    }
  }

  lemma ExpireOne(s: Platform, p: TickPlan, id: RequestId)
    requires ExpirePossible(s, p) && id in s.requests
    ensures var s1 := ApplyAll(s, p.expire, Expiration); var d, d1 := s.requests[id], s1.requests[id];
      && SameFrame(s, s1) && s.clock <= s1.clock
      && (if Expires(d, p) then AdvancedOnce(s.market, d, d1, Expiration, s.clock, s1.clock) else d1 == d)
  {
    PassEffect(s, p.expire, Expiration);
    if Expires(s.requests[id], p) {
      assert id in OverdueSteps(s, p.timeout, p.start);
      var i :| 0 <= i < |p.expire| && p.expire[i].id == id;
      assert p.expire[i].at <= p.expire[|p.expire| - 1].at;
      assert ApplyAll(s, p.expire, Expiration).requests[id] == Advance(s.market, s.requests[id], Expiration,
          p.expire[i].at);
    } else {
      assert !Handles(p.expire, id);
    }
  }

  lemma FinishedCompletes(m: Market, d: Dossier, j: CompletionJob)
    requires Ready(d, m, j)
    ensures Finished(m, d, j).request.status == RequestCompleted
  {}

  /** The ARTP's pass completes every REVERSE that awaits it and touches nothing
    else. */
  lemma CompletionsTail(s: Platform, p: TickPlan, id: RequestId)
    requires CompletePossible(s, p) && id in s.requests
    ensures var s' := CompleteAll(s, p.complete);
      && SameFrame(s, s') && s.clock <= s'.clock
      && (if AwaitsArtp(s.requests[id], s.market) then s'.requests[id].request.status == RequestCompleted
          else s'.requests[id] == s.requests[id])
  {
    CompleteEffect(s, p.complete);
    if AwaitsArtp(s.requests[id], s.market) {
      assert id in PendingReverseCompletions(s);
      var i :| 0 <= i < |p.complete| && p.complete[i].id == id;
      FinishedCompletes(s.market, s.requests[id], p.complete[i]);
    } else {
      assert !HandlesCompletion(p.complete, id);
    }
  }

  /** A step opened during the tick starts after the instant the expirations are
    judged at, so it cannot expire in the same tick. */
  lemma JustAdvanced(m: Market, d: Dossier, d1: Dossier, p: TickPlan, to: Time)
    requires AdvancedOnce(m, d, d1, Action, p.dueAt, to) && p.start <= p.dueAt
    ensures !Expires(d1, p)
  {}

  /** After convergence and expiration: a request due is advanced by an action, one
    overdue by an expiration, and no request by both. */
  lemma AfterExpire(s: Platform, p: TickPlan, id: RequestId)
    requires TickPossible(s, p) && !s.frozen && id in s.requests
    ensures var s2 := Expired(s, p); var d, d2 := s.requests[id], s2.requests[id];
      && SameFrame(s, s2) && p.dueAt <= s2.clock
      && (if Due(d, p.dueAt) then AdvancedOnce(s.market, d, d2, Action, p.dueAt, s2.clock)
          else if Expires(d, p) then AdvancedOnce(s.market, d, d2, Expiration, p.dueAt, s2.clock)
          else d2 == d)
  {
    var s1 := Converged(s, p);
    ConvergeOne(s, p, id);
    ExpireOne(s1, p, id);
    if Due(s.requests[id], p.dueAt) {
      JustAdvanced(s.market, s.requests[id], s1.requests[id], p, s1.clock);
    }
    hide ConvergePossible, ExpirePossible, ValidatePossible, CompletePossible, ApplyAll, Advance, Due, Expires;
    assert Expired(s, p) == ApplyAll(s1, p.expire, Expiration);
  }

  /** The stages of an unfrozen tick are possible one after the other and sound. */
  lemma Stages(s: Platform, p: TickPlan)
    requires SoundPlatform(s) && TickPossible(s, p) && !s.frozen
    ensures SoundPlatform(Expired(s, p)) && SoundPlatform(Validated(s, p)) && SoundPlatform(Tick(s, p))
    ensures Expired(s, p).clock <= Validated(s, p).clock <= Tick(s, p).clock
    ensures SameFrame(s, Expired(s, p))
  {
    SoundIsInv(s);
    SoundIsInv(Expired(s, p));
    SoundIsInv(Validated(s, p));
    SoundIsInv(Tick(s, p));
    hide Inv, SoundPlatform, QuorumPlatform;
    ConvergeKeeps(s, p, map[]);
    ExpireKeeps(Converged(s, p), p, map[]);
    ValidateKeeps(Expired(s, p), p, map[]);
    CompleteKeeps(Validated(s, p), p, map[]);
    PassEffect(At(s, p.dueAt), p.converge, Action);
    PassEffect(Converged(s, p), p.expire, Expiration);
  }

  lemma ValidateOne(s: Platform, p: TickPlan, id: RequestId)
    requires (forall x | x in s.requests :: x < s.nextId) && id in ValidateAll(At(s, p.validateAt), p.validate).requests
    ensures var s' := ValidateAll(At(s, p.validateAt), p.validate);
      && s'.market == s.market && s'.frozen == s.frozen
      && (if id in s.requests then s'.requests[id] == s.requests[id] else s'.requests[id].request.deadline.None?)
  {
    ValidateEffect(At(s, p.validateAt), p.validate);
    ValidatedHaveNoDeadline(At(s, p.validateAt), p.validate);
  }

  /** The second half of a tick, on one request. */
  lemma TickTail(s: Platform, p: TickPlan, id: RequestId)
    requires SoundPlatform(s) && TickPossible(s, p) && !s.frozen && id in Validated(s, p).requests
    ensures var s2, s' := Expired(s, p), Tick(s, p);
      && s'.market == s2.market == s.market && s'.frozen == s.frozen && id in s'.requests
      && s2.clock <= s'.clock && SoundPlatform(s')
      && (if id in s2.requests && !AwaitsArtp(s2.requests[id], s.market) then s'.requests[id] == s2.requests[id]
          else if id in s2.requests then s'.requests[id].request.status == RequestCompleted
          else s'.requests[id].request.status == RequestCompleted || s'.requests[id].request.deadline.None?)
  {
    Stages(s, p);
    ValidateOne(Expired(s, p), p, id);
    CompletionsTail(Validated(s, p), p, id);
  }

  lemma {:induction false} ValidatedHaveNoDeadline(s: Platform, jobs: seq<Job>)
    requires forall id | id in s.requests :: id < s.nextId
    ensures forall id | id in ValidateAll(s, jobs).requests && id !in s.requests ::
        ValidateAll(s, jobs).requests[id].request.deadline.None?
  {
    if jobs != [] {
      ValidatedHaveNoDeadline(s, jobs[..|jobs| - 1]);
      ValidateEffect(s, jobs[..|jobs| - 1]);
    }
  }

  /** A request of before the tick, at its end: only the ARTP's pass may still change
    what the first two passes made of it. */
  lemma ThroughTick(s: Platform, p: TickPlan, id: RequestId)
    requires SoundPlatform(s) && TickPossible(s, p) && !s.frozen && id in s.requests
    ensures var s2, s' := Expired(s, p), Tick(s, p);
      && id in s2.requests && id in s'.requests && s'.market == s.market && !s'.frozen
      && s2.clock <= s'.clock && SoundPlatform(s')
      && (if AwaitsArtp(s2.requests[id], s.market) then s'.requests[id].request.status == RequestCompleted
          else s'.requests[id] == s2.requests[id])
  {
    Stages(s, p);
    ValidateEffect(At(Expired(s, p), p.validateAt), p.validate);
    hide SoundPlatform, TickPossible, AwaitsArtp;
    TickTail(s, p, id);
  }

  lemma AdvancedLater(m: Market, d: Dossier, d': Dossier, origin: Origin, from: Time, to: Time, later: Time)
    requires AdvancedOnce(m, d, d', origin, from, to) && to <= later
    ensures AdvancedOnce(m, d, d', origin, from, later)
    ensures d'.request.kind == d.request.kind && |d'.history| == |d.history| + 1
  {
    var t :| from <= t <= to && d' == Advance(m, d, origin, t);
  }

  /** What a tick does to a porting or a restitution: at most one transition, by an
    action exactly when its deadline is due, by an expiration exactly when it is
    overdue. A frozen tick does nothing at all. */
  lemma OneStepPerTick(s: Platform, p: TickPlan, id: RequestId)
    requires SoundPlatform(s) && TickPossible(s, p)
    requires id in s.requests && s.requests[id].request.kind != Reverse
    ensures var s' := Tick(s, p); var d := s.requests[id];
      && id in s'.requests
      && (if s.frozen then s' == At(s, p.start)
          else if Due(d, p.dueAt) then AdvancedOnce(s.market, d, s'.requests[id], Action, p.dueAt, s'.clock)
          else if Expires(d, p) then AdvancedOnce(s.market, d, s'.requests[id], Expiration, p.dueAt, s'.clock)
          else s'.requests[id] == d)
      && |d.history| <= |s'.requests[id].history| <= |d.history| + 1
  {
    if !s.frozen {
      AfterExpire(s, p, id);
      ThroughTick(s, p, id);
      hide SoundPlatform, TickPossible;
      var d, d2, s2, s' := s.requests[id], Expired(s, p).requests[id], Expired(s, p), Tick(s, p);
      if Due(d, p.dueAt) {
        AdvancedLater(s.market, d, d2, Action, p.dueAt, s2.clock, s'.clock);
      } else if Expires(d, p) {
        AdvancedLater(s.market, d, d2, Expiration, p.dueAt, s2.clock, s'.clock);
      }
      assert s'.requests[id] == d2;
    }
  }

  // ---- The REVERSE -------------------------------------------------------------------

  lemma NotAwaiting(d: Dossier, m: Market, now: Time)
    requires MarketOk(m) && Sound(d, m, now) && QuorumOk(d, m) && d.request.kind == Reverse && InProgress(d)
    requires !AwaitsArtp(d, m)
    ensures d.request.step == Confirmation && (d.request.deadline.Some? || !Covered(d, m))
  {
    CountIsCoverage(d, m);
  }

  /** The ARTP's pass leaves no REVERSE awaiting it. */
  lemma NobodyAwaits(s: Platform, p: TickPlan, id: RequestId)
    requires SoundPlatform(s) && TickPossible(s, p) && !s.frozen
    requires id in Tick(s, p).requests && InProgress(Tick(s, p).requests[id])
    ensures !AwaitsArtp(Tick(s, p).requests[id], s.market)
  {
    var s2, s3 := Expired(s, p), Validated(s, p);
    Stages(s, p);
    ValidateEffect(At(s2, p.validateAt), p.validate);
    CompleteEffect(s3, p.complete);
    hide SoundPlatform, AwaitsArtp;
    CompletionsTail(s3, p, id);
  }

  /** After an unfrozen tick no REVERSE in progress is left where no operator could
    move it: neither at COMPLETION, nor fully confirmed at CONFIRMATION with nothing
    pending. */
  lemma ReverseNeverStranded(s: Platform, p: TickPlan, id: RequestId)
    requires SoundPlatform(s) && QuorumPlatform(s) && TickPossible(s, p) && !s.frozen
    requires id in Tick(s, p).requests && Tick(s, p).requests[id].request.kind == Reverse
    requires InProgress(Tick(s, p).requests[id])
    ensures var d := Tick(s, p).requests[id];
      d.request.step == Confirmation && (d.request.deadline.Some? || !Covered(d, s.market))
  {
    NobodyAwaits(s, p, id);
    TickKeeps(s, p, map[]);
    TickMarket(s, p);
    hide Sound, AwaitsArtp, QuorumOk, Tick, TickPossible;
    NotAwaiting(Tick(s, p).requests[id], s.market, Tick(s, p).clock);
  }

  lemma TickMarket(s: Platform, p: TickPlan)
    requires SoundPlatform(s) && TickPossible(s, p)
    ensures Tick(s, p).market == s.market && Tick(s, p).frozen == s.frozen
  {
    if !s.frozen {
      Stages(s, p);
      ValidateEffect(At(Expired(s, p), p.validateAt), p.validate);
      hide SoundPlatform, TickPossible, ValidateAll, ApplyAll;
      assert EnumeratesCompletions(p.complete, Validated(s, p)) by { CompletionsArePossible(s, p); }
      CompleteEffect(Validated(s, p), p.complete);
    }
  }

  lemma CompletionsArePossible(s: Platform, p: TickPlan)
    requires TickPossible(s, p) && !s.frozen
    ensures EnumeratesCompletions(p.complete, Validated(s, p))
  {}

  /** The moment a REVERSE or a restitution ends, its number is back with its origin
    operator, which is the request's recipient, and carries its prefix. */
  lemma EndsAtHome(s: Platform, id: RequestId, origin: Origin)
    requires SoundPlatform(s) && id in s.requests && InProgress(s.requests[id])
    requires s.requests[id].request.kind != Porting && s.requests[id].request.step == Completion
    ensures var s' := ApplyTransition(s, id, origin); var r := s'.requests[id].request;
      && r.status == RequestCompleted
      && r.msisdn in s'.registry && s'.registry[r.msisdn].holder == s'.registry[r.msisdn].origin == r.recipient
      && s'.registry[r.msisdn].restituted && s'.registry[r.msisdn].lastPorting == Some(s.clock)
      && r.routing == RoutingPrefix(s.market, r.recipient)
      && forall n | n in s'.registry && n != r.msisdn :: s'.registry[n] == s.registry[n]
  {}

  lemma NeverReadyAtConfirmation(d: Dossier, m: Market)
    requires MarketOk(m) && QuorumOk(d, m) && AwaitsArtp(d, m) && m.operators != []
    ensures d.request.step == Completion
  {
    CountIsCoverage(d, m);
    ExpectedIsFilter(d.request, m.operators);
    assert m.operators[0] in ExpectedSet(d, m);
  }

  lemma ValidatedKeeps(s: Platform, p: TickPlan)
    requires SoundPlatform(s) && QuorumPlatform(s) && TickPossible(s, p) && !s.frozen
    ensures SoundPlatform(Validated(s, p)) && QuorumPlatform(Validated(s, p)) && Validated(s, p).market == s.market
  {
    SoundIsInv(s);
    SoundIsInv(Validated(s, p));
    assert SameFrame(s, Expired(s, p)) && forall x | x in Expired(s, p).requests :: x < Expired(s, p).nextId by {
      Stages(s, p);
    }
    hide Inv, SoundPlatform, QuorumPlatform, ApplyAll;
    ConvergeKeeps(s, p, map[]);
    ExpireKeeps(Converged(s, p), p, map[]);
    ValidateKeeps(Expired(s, p), p, map[]);
    ValidateEffect(At(Expired(s, p), p.validateAt), p.validate);
  }

  /** When every call is atomic the engine only ever has to finish a REVERSE that is
    already at COMPLETION: the branch that starts from CONFIRMATION is never taken. */
  lemma CompletionsStartAtCompletion(s: Platform, p: TickPlan, i: nat)
    requires SoundPlatform(s) && QuorumPlatform(s) && TickPossible(s, p) && !s.frozen
    requires s.market.operators != [] && i < |p.complete|
    ensures !p.complete[i].fromConfirmation
  {
    var s3 := Validated(s, p);
    ValidatedKeeps(s, p);
    CompletionsArePossible(s, p);
    hide Validated, DossiersSound, Exclusive, RegistryOk, HomeOk, ReversesOk, TickPossible, AwaitsArtp;
    NeverReadyAtConfirmation(s3.requests[p.complete[i].id], s3.market);
  }

  // ---- Progress ------------------------------------------------------------------------

  function ExecTicks(s: Platform, plans: seq<TickPlan>): Platform {
    if plans == [] then s else Tick(ExecTicks(s, plans[..|plans| - 1]), plans[|plans| - 1])
  }

  /** Ticks that leave every step the time to expire: each starts at least its
    timeout after everything written before it. */
  ghost predicate Unhurried(s: Platform, plans: seq<TickPlan>) {
    plans == [] ||
      var front, last := plans[..|plans| - 1], plans[|plans| - 1];
      var s1 := ExecTicks(s, front);
      Unhurried(s, front) && TickPossible(s1, last) && last.timeout > 0 && s1.clock + last.timeout <= last.start
  }

  ghost predicate DeadlinesBy(s: Platform, t: Time) {
    forall id | id in s.requests && s.requests[id].request.deadline.Some? :: s.requests[id].request.deadline.value <= t
  }

  /** What one transition leaves, and whether it awaits the ARTP. */
  lemma AdvancedFacts(m: Market, d: Dossier, d': Dossier, origin: Origin, from: Time, to: Time)
    requires AdvancedOnce(m, d, d', origin, from, to) && InProgress(d)
    requires d.request.kind == Reverse ==> Rank(d.request.step) >= Rank(Confirmation)
    ensures d'.request.kind == d.request.kind && d'.request.deadline.None?
    ensures if d.request.step == Completion then d'.request.status == RequestCompleted
            else InProgress(d') && NextStep(d.request.step) == Some(d'.request.step)
    ensures AwaitsArtp(d', m) <==> d.request.kind == Reverse && d.request.step == Confirmation
  {}

  /** The tick starts at least its timeout after the request's step, and after its
    pending deadline if it has one. */
  predicate LateFor(d: Dossier, p: TickPlan) {
    && p.timeout > 0 && d.request.stepStart + p.timeout <= p.start
    && (d.request.deadline.Some? ==> d.request.deadline.value <= p.start)
  }

  lemma DueOrExpires(d: Dossier, m: Market, p: TickPlan, now: Time)
    requires Sound(d, m, now) && InProgress(d) && LateFor(d, p) && p.start <= p.dueAt
    ensures Due(d, p.dueAt) || Expires(d, p)
    ensures d.request.kind == Reverse ==> Rank(d.request.step) >= Rank(Confirmation)
  {}

  /** A porting or restitution that a late enough tick finds in progress closes exactly
    one step; a REVERSE completes. */
  lemma LateTickAdvances(s: Platform, p: TickPlan, id: RequestId)
    requires SoundPlatform(s) && TickPossible(s, p) && !s.frozen
    requires id in s.requests && InProgress(s.requests[id]) && LateFor(s.requests[id], p)
    ensures var d' := Tick(s, p).requests;
      && id in d'
      && (if s.requests[id].request.kind == Reverse || s.requests[id].request.step == Completion
          then d'[id].request.status == RequestCompleted
          else InProgress(d'[id]) && NextStep(s.requests[id].request.step) == Some(d'[id].request.step)
               && d'[id].request.kind == s.requests[id].request.kind && d'[id].request.deadline.None?)
  {
    var d, s2 := s.requests[id], Expired(s, p);
    assert p.start <= p.dueAt && Sound(d, s.market, s.clock);
    AfterExpire(s, p, id);
    ThroughTick(s, p, id);
    hide SoundPlatform, TickPossible, Sound, AdvancedOnce, Due, Expires, Tick, Expired, AwaitsArtp;
    DueOrExpires(d, s.market, p, s.clock);
    AdvancedFacts(s.market, d, s2.requests[id], if Due(d, p.dueAt) then Action else Expiration, p.dueAt, s2.clock);
  }

  lemma LateForAll(s: Platform, p: TickPlan, id: RequestId)
    requires SoundPlatform(s) && DeadlinesBy(s, p.start) && p.timeout > 0 && s.clock + p.timeout <= p.start
    requires id in s.requests
    ensures LateFor(s.requests[id], p)
  {
    assert Sound(s.requests[id], s.market, s.clock);
  }

  lemma EndedHasNoDeadline(s: Platform, id: RequestId)
    requires SoundPlatform(s) && id in s.requests && !InProgress(s.requests[id])
    ensures s.requests[id].request.deadline.None?
  {
    assert Sound(s.requests[id], s.market, s.clock);
  }

  lemma NothingPendingAfter(s: Platform, p: TickPlan)
    requires SoundPlatform(s) && TickPossible(s, p) && !s.frozen && DeadlinesBy(s, p.start)
    requires p.timeout > 0 && s.clock + p.timeout <= p.start
    ensures forall id | id in Tick(s, p).requests :: Tick(s, p).requests[id].request.deadline.None?
  {
    var s' := Tick(s, p);
    Stages(s, p);
    CompleteEffect(Validated(s, p), p.complete);
    AfterExpireKeys(s, p);
    hide SoundPlatform, TickPossible, Tick, Expired, Validated, AwaitsArtp, DeadlinesBy;
    forall id | id in s'.requests ensures s'.requests[id].request.deadline.None? {
      if id in s.requests && InProgress(s.requests[id]) {
        LateForAll(s, p, id);
        LateTickAdvances(s, p, id);
      } else if id in s.requests {
        CompletedStays(s, p, id);
      } else {
        TickTail(s, p, id);
      }
      if !InProgress(s'.requests[id]) {
        EndedHasNoDeadline(s', id);
      }
    }
  }

  lemma AfterExpireKeys(s: Platform, p: TickPlan)
    ensures Expired(s, p).requests.Keys == s.requests.Keys
  {}

  /** Where a request in progress is after some ticks: a porting or restitution at
    step k of the sequence is at step k + j after j ticks, and completed from the
    (5 - k)-th on; a REVERSE is completed by the first one. */
  predicate Reached(r: Request, ticks: nat, r': Request) {
    if ticks < (if r.kind == Reverse then 1 else 5 - Rank(r.step))
    then r'.status == RequestInProgress && Rank(r'.step) == Rank(r.step) + ticks && r'.kind == r.kind
    else r'.status == RequestCompleted
  }

  lemma ReachedNext(r: Request, ticks: nat, r1: Request, r2: Request)
    requires Reached(r, ticks, r1)
    requires r1.status == RequestInProgress ==>
               if r1.kind == Reverse || r1.step == Completion then r2.status == RequestCompleted
               else r2.status == RequestInProgress && NextStep(r1.step) == Some(r2.step) && r2.kind == r1.kind
    requires r1.status != RequestInProgress ==> r2 == r1
    ensures Reached(r, ticks + 1, r2)
  {}

  /** Left alone, the engine finishes every request, one step a tick. */
  lemma {:induction false} Progress(s: Platform, plans: seq<TickPlan>, id: RequestId)
    requires SoundPlatform(s) && !s.frozen && Unhurried(s, plans)
    requires plans != [] ==> DeadlinesBy(s, plans[0].start)
    requires id in s.requests && InProgress(s.requests[id])
    ensures var s' := ExecTicks(s, plans);
      && SoundPlatform(s') && !s'.frozen && id in s'.requests
      && (plans != [] ==> forall x | x in s'.requests :: s'.requests[x].request.deadline.None?)
      && Reached(s.requests[id].request, |plans|, s'.requests[id].request)
  {
    hide SoundPlatform, TickPossible, Tick, Reached;
    if plans == [] {
      StartReached(s.requests[id].request);
    } else {
      var front, last := plans[..|plans| - 1], plans[|plans| - 1];
      assert front != [] ==> front[0] == plans[0];
      Progress(s, front, id);
      var s1 := ExecTicks(s, front);
      assert DeadlinesBy(s1, last.start);
      Stages(s1, last);
      NothingPendingAfter(s1, last);
      TickMarket(s1, last);
      if InProgress(s1.requests[id]) {
        LateForAll(s1, last, id);
        LateTickAdvances(s1, last, id);
      } else {
        CompletedStays(s1, last, id);
      }
      ReachedNext(s.requests[id].request, |front|, s1.requests[id].request, Tick(s1, last).requests[id].request);
    }
  }

  lemma StartReached(r: Request)
    requires r.status == RequestInProgress
    ensures Reached(r, 0, r)
  {}

  lemma CompletedStays(s: Platform, p: TickPlan, id: RequestId)
    requires SoundPlatform(s) && TickPossible(s, p) && !s.frozen && id in s.requests && !InProgress(s.requests[id])
    ensures id in Tick(s, p).requests && Tick(s, p).requests[id] == s.requests[id]
  {
    AfterExpire(s, p, id);
    ThroughTick(s, p, id);
  }

  // ---- Deferred and immediate ------------------------------------------------------------

  /** A dossier with its dates and its pending deadline forgotten. */
  function Undated(d: Dossier): Dossier {
    d.(request := d.request.(stepStart := 0, deadline := None,
        endedAt := if d.request.endedAt.Some? then Some(0) else None),
       history := seq(|d.history|, i requires 0 <= i < |d.history| => d.history[i].(start := 0, end := 0)))
  }

  lemma AdvanceUndated(m: Market, d: Dossier, deadline: Time, t: Time, t': Time)
    requires InProgress(d)
    ensures Undated(Advance(m, WithDeadline(d, deadline), Action, t)) == Undated(Advance(m, d, Action, t'))
  {
    var a, b := Advance(m, WithDeadline(d, deadline), Action, t), Advance(m, d, Action, t');
    assert Undated(a).history == Undated(b).history;
  }

  /** Applying a deferred transition in whatever state the rest of the tables has reached
    by then does, dates aside, what applying it at once would have done: to the request,
    to the numbers it hands over, and to nothing else. */
  lemma DeferredRefinesImmediate(s: Platform, id: RequestId, deadline: Time, later: Platform)
    requires id in s.requests && InProgress(s.requests[id])
    requires later.market == s.market && later.registry.Keys == s.registry.Keys
    requires id in later.requests && later.requests[id] == WithDeadline(s.requests[id], deadline)
    ensures
      var deferred, immediate := ApplyTransition(later, id, Action), ApplyTransition(s, id, Action);
      && deferred.requests.Keys == later.requests.Keys
      && Undated(deferred.requests[id]) == Undated(immediate.requests[id])
      && (forall x | x in later.requests && x != id :: deferred.requests[x] == later.requests[x])
      && (forall n | n in s.registry && n in Departing(s.requests[id]) ::
            && deferred.registry[n].holder == immediate.registry[n].holder == s.requests[id].request.recipient
            && deferred.registry[n].lastPorting == Some(later.clock)
                && immediate.registry[n].lastPorting == Some(s.clock)
            && (later.registry[n] == s.registry[n]
                ==> deferred.registry[n].(lastPorting := None) == immediate.registry[n].(lastPorting := None)))
      && (forall n | n in s.registry && n !in Departing(s.requests[id]) ::
            deferred.registry[n] == later.registry[n] && immediate.registry[n] == s.registry[n])
  {
    var d := s.requests[id];
    AdvanceUndated(s.market, d, deadline, later.clock, s.clock);
    assert forall n :: Active(WithDeadline(d, deadline), n) == Active(d, n);
    assert Departing(WithDeadline(d, deadline)) == Departing(d);
    hide Undated, Advance, Departing;
  }
}
