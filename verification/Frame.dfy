/** What no event ever changes: the market, the numbers of the registry, and the freshness
  of identifiers. */
module Frame {
  import opened Entities
  import opened Tables
  import opened Operations

  ghost predicate Framed(a: Platform, b: Platform) {
    && b.market == a.market && b.registry.Keys == a.registry.Keys && a.nextId <= b.nextId
    && forall id | id in b.requests :: id in a.requests || a.nextId <= id
  }

  lemma TransitionFrames(s: Platform, id: RequestId, origin: Origin)
    ensures Framed(s, ApplyTransition(s, id, origin))
  {
    hide Advance;
  }

  lemma ScheduleFrames(s: Platform, id: RequestId, window: Window)
    ensures Framed(s, ScheduleTransition(s, id, window))
  {
    hide ApplyTransition;
    TransitionFrames(s, id, Action);
  }

  lemma PutFrames(s: Platform, id: RequestId, d: Dossier, window: Window)
    requires id in s.requests
    ensures Framed(s, Put(s, id, d)) && Framed(s, ScheduleTransition(Put(s, id, d), id, window))
  {
    ScheduleFrames(Put(s, id, d), id, window);
    hide ScheduleTransition;
  }

  lemma TargetFrames(s: Platform, caller: OperatorId, c: Call)
    requires c.AcceptCall? || c.AcceptFleetCall? || c.ConfirmCall? || c.ProcessCall? || c.CancelCall?
    ensures Framed(s, Perform(s, caller, c))
  {
    hide Framed, ScheduleTransition, Put, RejectNumbers, Reject, CancelWrite, AcceptFault, AcceptFleetFault,
      ConfirmFault, ProcessFault, CancelFault;
    assert Framed(s, s) by { FramedSame(s); }
    if c.AcceptCall? && AcceptFault(s, caller, c.id, c.accept, c.reason).None? {
      assert c.id in s.requests by { Found(s, caller, c); }
      PutFrames(s, c.id, Reject(s.requests[c.id], caller, s.clock), c.window);
      ScheduleFrames(s, c.id, c.window);
    } else if c.AcceptFleetCall? && AcceptFleetFault(s, caller, c.id, c.accept, c.rejected, c.reason).None? {
      assert c.id in s.requests by { Found(s, caller, c); }
      var d := RejectNumbers(s.requests[c.id], c.rejected);
      PutFrames(s, c.id, Reject(s.requests[c.id], caller, s.clock), c.window);
      PutFrames(s, c.id, d, c.window);
      PutFrames(s, c.id, Reject(d, caller, s.clock), c.window);
    } else if c.ConfirmCall? && ConfirmFault(s, caller, c.id).None? {
      assert c.id in s.requests by { Found(s, caller, c); }
      PutFrames(s, c.id, Confirmed(s.requests[c.id], caller), c.window);
    } else if c.ProcessCall? {
      ScheduleFrames(s, c.id, c.window);
    } else if c.CancelCall? && CancelFault(s, caller, c.id).None? {
      assert c.id in s.requests by { Found(s, caller, c); }
      var w := CancelWrite(s.requests[c.id], s.requests[c.id].request.step, caller, s.clock);
      if w.Some? {
        PutFrames(s, c.id, w.value, Immediate);
      }
    }
  }

  lemma FramedSame(s: Platform)
    ensures Framed(s, s)
  {}

  lemma Found(s: Platform, caller: OperatorId, c: Call)
    requires c.AcceptCall? ==> AcceptFault(s, caller, c.id, c.accept, c.reason).None?
    requires c.AcceptFleetCall? ==> AcceptFleetFault(s, caller, c.id, c.accept, c.rejected, c.reason).None?
    requires c.ConfirmCall? ==> ConfirmFault(s, caller, c.id).None?
    requires c.CancelCall? ==> CancelFault(s, caller, c.id).None?
    ensures c.AcceptCall? || c.AcceptFleetCall? || c.ConfirmCall? || c.CancelCall? ==> c.id in s.requests
  {}

  lemma PerformFrames(s: Platform, caller: OperatorId, c: Call)
    ensures Framed(s, Perform(s, caller, c))
  {
    if c.AcceptCall? || c.AcceptFleetCall? || c.ConfirmCall? || c.ProcessCall? || c.CancelCall? {
      TargetFrames(s, caller, c);
    } else {
      hide CreateIndividualFault, CreateFleetFault, CreateRestitutionFault, SubmitReverseFault, Deduplicate,
        Retained, Excluded, FleetRows, RequestsToPurge, NumbersToRestore, ReversePurged;
    }
  }

  lemma {:induction false} PassFrames(s: Platform, jobs: seq<Job>, origin: Origin)
    ensures Framed(s, ApplyAll(s, jobs, origin))
  {
    hide ApplyTransition;
    if jobs != [] {
      var front, last := jobs[..|jobs| - 1], jobs[|jobs| - 1];
      PassFrames(s, front, origin);
      TransitionFrames(At(ApplyAll(s, front, origin), last.at), last.id, origin);
    }
  }

  lemma {:induction false} ValidationsFrame(s: Platform, jobs: seq<Job>)
    ensures Framed(s, ValidateAll(s, jobs))
  {
    if jobs != [] {
      ValidationsFrame(s, jobs[..|jobs| - 1]);
    }
  }

  lemma {:induction false} CompletionsFrame(s: Platform, jobs: seq<CompletionJob>)
    ensures Framed(s, CompleteAll(s, jobs))
  {
    hide ApplyTransition;
    if jobs != [] {
      var j, s0 := jobs[|jobs| - 1], CompleteAll(s, jobs[..|jobs| - 1]);
      CompletionsFrame(s, jobs[..|jobs| - 1]);
      var s1 := if j.fromConfirmation then ApplyTransition(At(s0, j.first), j.id, Action) else s0;
      TransitionFrames(At(s0, j.first), j.id, Action);
      TransitionFrames(At(s1, j.second), j.id, Action);
    }
  }

  lemma TickFrames(s: Platform, p: TickPlan)
    ensures Framed(s, Tick(s, p))
  {
    hide ApplyAll, ValidateAll, CompleteAll;
    PassFrames(At(s, p.dueAt), p.converge, Action);
    PassFrames(Converged(s, p), p.expire, Expiration);
    ValidationsFrame(At(Expired(s, p), p.validateAt), p.validate);
    CompletionsFrame(Validated(s, p), p.complete);
  }

  lemma NextFrames(s: Platform, e: Event)
    ensures Framed(s, Next(s, e))
  {
    hide Perform, Tick;
    match e
    case OperatorCall(caller, at, call) => PerformFrames(At(s, at), caller, call);
    case ArtpValidates(at, rid) =>
    case ArtpRejects(at, rid) =>
    case IncidentChanges(at, frozen) =>
    case EngineTicks(p) => TickFrames(s, p);
  }

  /** In every run. */
  lemma {:induction false} RunFrames(s: Platform, run: seq<Event>)
    ensures Framed(s, Exec(s, run))
  {
    hide Next;
    if run != [] {
      RunFrames(s, run[..|run| - 1]);
      NextFrames(Exec(s, run[..|run| - 1]), run[|run| - 1]);
    }
  }
}
