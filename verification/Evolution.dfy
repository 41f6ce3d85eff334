/** How a single request evolves from one state of a run to the next: its history
  only grows, its end is final, and a step with a pending deadline is never
  closed by an expiration. */
module Evolution {
  import opened Entities
  import opened Tables
  import opened Operations
  import opened Lifecycle
  import opened Invariants
  import opened Passes

  ghost predicate SameIdentity(d: Dossier, d': Dossier) {
    && d'.request.kind == d.request.kind && d'.request.msisdn == d.request.msisdn
        && d'.request.subscriber == d.request.subscriber
    && d'.request.source == d.request.source && d'.request.recipient == d.request.recipient
    && d'.request.creator == d.request.creator && d'.request.createdAt == d.request.createdAt
    && d'.numbers.Keys == d.numbers.Keys
  }

  ghost predicate Evolves(d: Dossier, d': Dossier) {
    && SameIdentity(d, d')
    && d.history <= d'.history
    && (!InProgress(d) ==> d' == d)
    && (d.request.deadline.Some? && |d.history| < |d'.history| ==> d'.history[|d.history|].origin == Action)
    && (d.request.deadline.Some? && |d.history| == |d'.history| ==> d'.request.deadline.Some?)
    && (|d.history| == |d'.history| ==> d'.request.step == d.request.step && d'.request.status == d.request.status)
  }

  lemma EvolvesTransitive(d: Dossier, d1: Dossier, d2: Dossier)
    requires Evolves(d, d1) && Evolves(d1, d2)
    ensures Evolves(d, d2)
  {}

  /** Requests of before are still there and have evolved; the others are new. */
  ghost predicate Grows(s: Platform, s': Platform) {
    forall id | id in s.requests :: id in s'.requests && Evolves(s.requests[id], s'.requests[id])
  }

  lemma GrowsTransitive(s: Platform, s1: Platform, s2: Platform)
    requires Grows(s, s1) && Grows(s1, s2)
    ensures Grows(s, s2)
  {
    forall id | id in s.requests ensures id in s2.requests && Evolves(s.requests[id], s2.requests[id]) {
      EvolvesTransitive(s.requests[id], s1.requests[id], s2.requests[id]);
    }
  }

  ghost predicate NoNewReverse(s: Platform, s': Platform) {
    forall id | id in s'.requests && s'.requests[id].request.kind == Reverse ::
      id in s.requests && s.requests[id].request.kind == Reverse
  }

  lemma AdvanceEvolves(m: Market, d: Dossier, origin: Origin, now: Time)
    requires InProgress(d) && (origin == Action || d.request.deadline.None?)
    ensures Evolves(d, Advance(m, d, origin, now))
  {}

  lemma PutEvolves(s: Platform, id: RequestId, d: Dossier)
    requires id in s.requests && Evolves(s.requests[id], d)
    ensures Grows(s, Put(s, id, d)) && NoNewReverse(s, Put(s, id, d))
  {}

  lemma TransitionEvolves(s: Platform, id: RequestId, origin: Origin)
    requires origin == Action || (id in s.requests ==> s.requests[id].request.deadline.None?)
    ensures Grows(s, ApplyTransition(s, id, origin)) && NoNewReverse(s, ApplyTransition(s, id, origin))
  {
    if id in s.requests && InProgress(s.requests[id]) {
      AdvanceEvolves(s.market, s.requests[id], origin, s.clock);
      PutEvolves(s, id, Advance(s.market, s.requests[id], origin, s.clock));
    }
  }

  lemma ScheduleEvolves(s: Platform, id: RequestId, window: Window)
    requires id in s.requests && InProgress(s.requests[id])
    ensures Grows(s, ScheduleTransition(s, id, window)) && NoNewReverse(s, ScheduleTransition(s, id, window))
  {
    match window
    case Immediate => TransitionEvolves(s, id, Action);
    case Deferred(delay) => PutEvolves(s, id, WithDeadline(s.requests[id], s.clock + delay));
  }

  lemma RejectNumbersEvolves(d: Dossier, rejected: seq<RejectedNumber>, caller: OperatorId, now: Time)
    requires InProgress(d) && d.request.deadline.None?
    ensures Evolves(d, RejectNumbers(d, rejected))
    ensures Evolves(d, Reject(RejectNumbers(d, rejected), caller, now))
  {
    RejectNumbersEffect(d, rejected);
  }

  lemma AcceptFleetEvolves(
    s: Platform, caller: OperatorId, id: RequestId, accept: bool, rejected: seq<RejectedNumber>,
    reason: Option<ReasonId>, window: Window)
    ensures var s' := AcceptFleet(s, caller, id, accept, rejected, reason, window); Grows(s, s') && NoNewReverse(s, s')
  {
    if AcceptFleetFault(s, caller, id, accept, rejected, reason).None? {
      var d := s.requests[id];
      RejectNumbersEvolves(d, [], caller, s.clock);
      RejectNumbersEvolves(d, rejected, caller, s.clock);
      if !accept {
        PutEvolves(s, id, Reject(d, caller, s.clock));
      } else {
        var d' := RejectNumbers(d, rejected);
        if HasActiveNumber(d') {
          RejectNumbersEffect(d, rejected);
          PutEvolves(s, id, d');
          ScheduleEvolves(Put(s, id, d'), id, window);
          GrowsTransitive(s, Put(s, id, d'), ScheduleTransition(Put(s, id, d'), id, window));
        } else {
          PutEvolves(s, id, Reject(d', caller, s.clock));
        }
      }
    }
  }

  lemma AcceptEvolves(s: Platform, caller: OperatorId, id: RequestId, accept: bool, reason: Option<ReasonId>,
      window: Window)
    ensures var s' := Accept(s, caller, id, accept, reason, window); Grows(s, s') && NoNewReverse(s, s')
  {
    if AcceptFault(s, caller, id, accept, reason).None? {
      if accept {
        ScheduleEvolves(s, id, window);
      } else {
        RejectNumbersEvolves(s.requests[id], [], caller, s.clock);
        PutEvolves(s, id, Reject(s.requests[id], caller, s.clock));
      }
    }
  }

  lemma ConfirmEvolves(s: Platform, caller: OperatorId, id: RequestId, window: Window)
    ensures var s' := Confirm(s, caller, id, window); Grows(s, s') && NoNewReverse(s, s')
  {
    if ConfirmFault(s, caller, id).None? {
      var s1 := Put(s, id, Confirmed(s.requests[id], caller));
      PutEvolves(s, id, Confirmed(s.requests[id], caller));
      if CountReached(s1.requests[id], s.market) {
        ScheduleEvolves(s1, id, window);
        GrowsTransitive(s, s1, ScheduleTransition(s1, id, window));
      }
    }
  }

  lemma CancelEvolves(s: Platform, caller: OperatorId, id: RequestId)
    ensures Grows(s, Cancel(s, caller, id)) && NoNewReverse(s, Cancel(s, caller, id))
  {
    if CancelFault(s, caller, id).None? {
      PutEvolves(s, id, CancelWrite(s.requests[id], s.requests[id].request.step, caller, s.clock).value);
    }
  }

  lemma CreationsEvolve(
    s: Platform, caller: OperatorId, n: Msisdn, source: OperatorId, recipient: OperatorId, numbers: seq<Msisdn>,
    otp: bool)
    requires s.nextId !in s.requests
    ensures Grows(s, CreateIndividual(s, caller, n, source, recipient, otp))
    ensures NoNewReverse(s, CreateIndividual(s, caller, n, source, recipient, otp))
    ensures Grows(s, CreateFleet(s, caller, n, source, recipient, numbers, otp))
    ensures NoNewReverse(s, CreateFleet(s, caller, n, source, recipient, numbers, otp))
    ensures Grows(s, CreateRestitution(s, caller, n)) && NoNewReverse(s, CreateRestitution(s, caller, n))
  {
    hide Deduplicate, Retained, Excluded, FleetRows, FleetCheck, AllKnown, SameHolder, State,
      CheckPortingEligibility, CheckRestitutionEligibility, RoutingPrefix, SingleRow;
  }

  lemma PurgeOpensNothing(s: Platform, caller: OperatorId)
    ensures NoNewReverse(s, Purge(s, caller))
  {}

  lemma SubmitEvolves(s: Platform, caller: OperatorId, n: Msisdn)
    ensures Grows(s, SubmitReverse(s, caller, n)) && NoNewReverse(s, SubmitReverse(s, caller, n))
  {}

  lemma ProcessEvolves(s: Platform, caller: OperatorId, id: RequestId, window: Window)
    ensures Grows(s, Process(s, caller, id, window)) && NoNewReverse(s, Process(s, caller, id, window))
  {
    if ProcessFault(s, caller, id).None? {
      ScheduleEvolves(s, id, window);
    }
  }

  lemma PerformEvolves(s: Platform, caller: OperatorId, call: Call)
    requires s.nextId !in s.requests
    ensures !call.PurgeCall? ==> Grows(s, Perform(s, caller, call))
    ensures NoNewReverse(s, Perform(s, caller, call))
  {
    PurgeOpensNothing(s, caller);
    SubmitEvolves(s, caller, if call.SubmitReverseCall? then call.msisdn else 0);
    hide Grows, NoNewReverse, ScheduleTransition;
    hide CreateIndividual, CreateFleet, CreateRestitution, Accept, AcceptFleet, Confirm, Cancel, SubmitReverse,
      Purge;
    match call
    case CreateIndividualCall(n, source, recipient, otp) => CreationsEvolve(s, caller, n, source, recipient, [], otp);
    case CreateFleetCall(carrier, source, recipient, numbers, otp) =>
      CreationsEvolve(s, caller, carrier, source, recipient, numbers, otp);
    case CreateRestitutionCall(n) => CreationsEvolve(s, caller, n, caller, caller, [], false);
    case AcceptCall(id, accept, reason, window) => AcceptEvolves(s, caller, id, accept, reason, window);
    case AcceptFleetCall(id, accept, rejected, reason, window) =>
      AcceptFleetEvolves(s, caller, id, accept, rejected, reason, window);
    case ConfirmCall(id, window) => ConfirmEvolves(s, caller, id, window);
    case ProcessCall(id, window) => ProcessEvolves(s, caller, id, window);
    case CancelCall(id) => CancelEvolves(s, caller, id);
    case SubmitReverseCall(n) =>
    case PurgeCall =>
  }

  // ---- The tick --------------------------------------------------------------------

  lemma PassEvolves(s: Platform, jobs: seq<Job>, origin: Origin)
    requires DistinctJobs(jobs)
    requires origin == Expiration ==> forall i | 0 <= i < |jobs| && jobs[i].id in s.requests ::
        s.requests[jobs[i].id].request.deadline.None?
    ensures Grows(s, ApplyAll(s, jobs, origin)) && NoNewReverse(s, ApplyAll(s, jobs, origin))
  {
    var s' := ApplyAll(s, jobs, origin);
    PassEffect(s, jobs, origin);
    forall id | id in s.requests ensures Evolves(s.requests[id], s'.requests[id]) {
      if Handles(jobs, id) {
        var i :| 0 <= i < |jobs| && jobs[i].id == id;
        if InProgress(s.requests[id]) {
          AdvanceEvolves(s.market, s.requests[id], origin, jobs[i].at);
        }
      }
    }
    forall id | id in s'.requests && s'.requests[id].request.kind == Reverse
        ensures s.requests[id].request.kind == Reverse {
      assert Evolves(s.requests[id], s'.requests[id]);
    }
  }

  lemma CompleteEvolves(s: Platform, jobs: seq<CompletionJob>)
    requires DistinctCompletions(jobs)
    ensures Grows(s, CompleteAll(s, jobs)) && NoNewReverse(s, CompleteAll(s, jobs))
  {
    var s' := CompleteAll(s, jobs);
    CompleteEffect(s, jobs);
    forall id | id in s.requests ensures Evolves(s.requests[id], s'.requests[id]) {
      if HandlesCompletion(jobs, id) {
        var i :| 0 <= i < |jobs| && jobs[i].id == id;
        FinishedEvolves(s.market, s.requests[id], jobs[i]);
      }
    }
    forall id | id in s'.requests && s'.requests[id].request.kind == Reverse
        ensures s.requests[id].request.kind == Reverse {
      assert Evolves(s.requests[id], s'.requests[id]);
    }
  }

  lemma FinishedEvolves(m: Market, d: Dossier, j: CompletionJob)
    ensures Evolves(d, Finished(m, d, j))
  {
    var d1 := if j.fromConfirmation && InProgress(d) then Advance(m, d, Action, j.first) else d;
    if j.fromConfirmation && InProgress(d) { AdvanceEvolves(m, d, Action, j.first); }
    if InProgress(d1) { AdvanceEvolves(m, d1, Action, j.second); }
    EvolvesTransitive(d, d1, Finished(m, d, j));
  }

  lemma ConvergeEvolves(s: Platform, p: TickPlan)
    requires ConvergePossible(s, p)
    ensures Grows(s, Converged(s, p)) && NoNewReverse(s, Converged(s, p)) && SameFrame(s, Converged(s, p))
  {
    PassEvolves(At(s, p.dueAt), p.converge, Action);
    PassEffect(At(s, p.dueAt), p.converge, Action);
  }

  lemma ExpireEvolves(s: Platform, p: TickPlan)
    requires ExpirePossible(s, p)
    ensures var s' := ApplyAll(s, p.expire, Expiration); Grows(s, s') && NoNewReverse(s, s') && SameFrame(s, s')
  {
    PassEvolves(s, p.expire, Expiration);
    PassEffect(s, p.expire, Expiration);
  }

  lemma ValidateEvolves(s: Platform, jobs: seq<Job>, now: Time)
    requires forall id | id in s.requests :: id < s.nextId
    ensures var s' := ValidateAll(At(s, now), jobs); Grows(s, s') && (jobs == [] ==> NoNewReverse(s, s'))
  {
    ValidateEffect(At(s, now), jobs);
  }

  lemma TickEvolves(s: Platform, p: TickPlan)
    requires TickPossible(s, p) && forall id | id in s.requests :: id < s.nextId
    ensures Grows(s, Tick(s, p))
    ensures p.validate == [] ==> NoNewReverse(s, Tick(s, p))
  {
    if !s.frozen {
      var s1, s2, s3 := Converged(s, p), Expired(s, p), Validated(s, p);
      ConvergeEvolves(s, p);
      ExpireEvolves(s1, p);
      ValidateEvolves(s2, p.validate, p.validateAt);
      CompleteEvolves(s3, p.complete);
      GrowsTransitive(s, s1, s2);
      GrowsTransitive(s, s2, s3);
      GrowsTransitive(s, s3, Tick(s, p));
    }
  }

  lemma AtGrows(s: Platform, now: Time, s': Platform)
    ensures Grows(At(s, now), s') <==> Grows(s, s')
    ensures NoNewReverse(At(s, now), s') <==> NoNewReverse(s, s')
  {}

  lemma ArtpEvolves(s: Platform, rid: RequestId)
    requires s.nextId !in s.requests
    ensures Grows(s, ValidateReverse(s, rid)) && Grows(s, RejectReverse(s, rid))
    ensures NoNewReverse(s, RejectReverse(s, rid))
  {}

  lemma FreezeEvolves(s: Platform, frozen: bool)
    ensures Grows(s, s.(frozen := frozen)) && NoNewReverse(s, s.(frozen := frozen))
  {}

  /** One event: unless it is a purge, every request of before is still there and has
    evolved. */
  lemma NextEvolves(s: Platform, e: Event)
    requires SoundPlatform(s) && Possible(s, e)
    ensures !(e.OperatorCall? && e.call.PurgeCall?) ==> Grows(s, Next(s, e))
    ensures !e.ArtpValidates? && (e.EngineTicks? ==> e.plan.validate == []) ==> NoNewReverse(s, Next(s, e))
  {
    assert s.nextId !in s.requests;
    hide Grows, NoNewReverse, Perform, Tick, SoundPlatform, TickPossible;
    match e
    case OperatorCall(caller, at, call) =>
      PerformEvolves(At(s, at), caller, call);
      AtGrows(s, at, Next(s, e));
    case ArtpValidates(at, rid) =>
      ArtpEvolves(At(s, at), rid);
      AtGrows(s, at, Next(s, e));
    case ArtpRejects(at, rid) =>
      ArtpEvolves(At(s, at), rid);
      AtGrows(s, at, Next(s, e));
    case IncidentChanges(at, frozen) =>
      FreezeEvolves(At(s, at), frozen);
      AtGrows(s, at, Next(s, e));
    case EngineTicks(plan) =>
      TickEvolves(s, plan);
  }

  /** One request through one event: it has evolved, unless its creator purged it. */
  lemma EventEvolves(s: Platform, e: Event, id: RequestId)
    requires SoundPlatform(s) && Possible(s, e) && id in s.requests
    requires e.OperatorCall? && e.call.PurgeCall? ==> e.caller != s.requests[id].request.creator
    ensures id in Next(s, e).requests && Evolves(s.requests[id], Next(s, e).requests[id])
  {
    hide SoundPlatform, Possible, Perform, Tick, Evolves;
    if e.OperatorCall? && e.call.PurgeCall? {
      PurgeLeaves(At(s, e.at), e.caller, id);
      PurgeEvent(s, e);
    } else {
      NextEvolves(s, e);
    }
  }

  lemma PurgeEvent(s: Platform, e: Event)
    requires e.OperatorCall? && e.call.PurgeCall?
    ensures Next(s, e) == Purge(At(s, e.at), e.caller)
  {
    hide Purge;
  }

  lemma PurgeLeaves(s: Platform, caller: OperatorId, id: RequestId)
    requires id in s.requests && s.requests[id].request.creator != caller
    ensures id in Purge(s, caller).requests && Purge(s, caller).requests[id] == s.requests[id]
    ensures Evolves(s.requests[id], Purge(s, caller).requests[id])
  {
    hide NumbersToRestore, ReversePurged, Restored;
  }
}
