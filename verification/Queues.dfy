/** The operators' work queues against the rules that decide who may act. The
  queues never read the pending deadline; what that costs is stated exactly. */
module Queues {
  import opened Entities
  import opened Tables
  import opened Operations
  import opened Lifecycle
  import opened Invariants
  import opened Runs

  /** In every reachable state a request is in an operator's confirmation queue
    exactly when that operator's confirmation would be accepted (the freeze
    aside), although only the latter looks at the deadline. */
  lemma ConfirmationQueueIsExact(s: Platform, run: seq<Event>, s': Platform, id: RequestId, caller: OperatorId)
    requires Reaches(s, run, s') && id in s'.requests
    ensures ToConfirm(s'.requests[id], s'.market, caller) <==> ConfirmFault(s'.(frozen := false), caller, id).None?
  {
    RunKeeps(s, run);
    assert QuorumOk(s'.requests[id], s'.market);
  }

  /** The acceptance and processing queues show exactly the requests the operator may
    act on, plus those whose step was already handled and waits for its deadline. */
  lemma WorkQueuesUpToDeadline(s: Platform, run: seq<Event>, s': Platform, id: RequestId, caller: OperatorId)
    requires Reaches(s, run, s') && id in s'.requests
    ensures var r := s'.requests[id].request;
      && (CanAccept(r, caller).None? <==> ToAccept(r, caller) && r.deadline.None?)
      && (CanAccept(r, caller).None? || CanProcess(r, caller).None? <==> ToProcess(r, caller) && r.deadline.None?)
      && !(CanAccept(r, caller).None? && CanProcess(r, caller).None?)
      && (r.kind == Reverse ==> !ToAccept(r, caller) && !ToProcess(r, caller))
  {
    RunKeeps(s, run);
    assert Sound(s'.requests[id], s'.market, s'.clock);
    hide Inv, Exec, PossibleRun, QuorumPlatform, Timeline, RowsOk, RoutingOk, PartiesOk;
  }

  // ---- The closed window ---------------------------------------------------------

  predicate ClosedWindow(c: Call) {
    && (c.AcceptCall? ==> c.window == Immediate)
    && (c.AcceptFleetCall? ==> c.window == Immediate)
    && (c.ConfirmCall? ==> c.window == Immediate)
    && (c.ProcessCall? ==> c.window == Immediate)
  }

  predicate AlwaysImmediate(run: seq<Event>) {
    forall e | e in run && e.OperatorCall? :: ClosedWindow(e.call)
  }

  ghost predicate NoDeadline(requests: map<RequestId, Dossier>) {
    forall id | id in requests :: requests[id].request.deadline.None?
  }

  lemma PutNoDeadline(s: Platform, id: RequestId, d: Dossier)
    requires NoDeadline(s.requests) && d.request.deadline.None?
    ensures NoDeadline(Put(s, id, d).requests)
  {}

  lemma TransitionNoDeadline(s: Platform, id: RequestId, origin: Origin)
    requires NoDeadline(s.requests)
    ensures NoDeadline(ApplyTransition(s, id, origin).requests)
  {}

  lemma AcceptNoDeadline(s: Platform, caller: OperatorId, c: Call)
    requires NoDeadline(s.requests) && ClosedWindow(c) && (c.AcceptCall? || c.AcceptFleetCall?)
    ensures NoDeadline(Perform(s, caller, c).requests)
  {
    if c.id in s.requests {
      var d := s.requests[c.id];
      PutNoDeadline(s, c.id, Reject(d, caller, s.clock));
      TransitionNoDeadline(s, c.id, Action);
      if c.AcceptFleetCall? {
        RejectNumbersEffect(d, c.rejected);
        var d' := RejectNumbers(d, c.rejected);
        PutNoDeadline(s, c.id, d');
        TransitionNoDeadline(Put(s, c.id, d'), c.id, Action);
        PutNoDeadline(s, c.id, Reject(d', caller, s.clock));
      }
    }
  }

  lemma ConfirmNoDeadline(s: Platform, caller: OperatorId, c: Call)
    requires NoDeadline(s.requests) && ClosedWindow(c) && c.ConfirmCall?
    ensures NoDeadline(Perform(s, caller, c).requests)
  {
    if c.id in s.requests {
      PutNoDeadline(s, c.id, Confirmed(s.requests[c.id], caller));
      TransitionNoDeadline(Put(s, c.id, Confirmed(s.requests[c.id], caller)), c.id, Action);
    }
  }

  lemma PerformNoDeadline(s: Platform, caller: OperatorId, c: Call)
    requires NoDeadline(s.requests) && ClosedWindow(c)
    ensures NoDeadline(Perform(s, caller, c).requests)
  {
    if c.AcceptCall? || c.AcceptFleetCall? {
      AcceptNoDeadline(s, caller, c);
    } else if c.ConfirmCall? {
      ConfirmNoDeadline(s, caller, c);
    } else if c.ProcessCall? {
      TransitionNoDeadline(s, c.id, Action);
    }
  }

  lemma {:induction false} PassNoDeadline(s: Platform, jobs: seq<Job>, origin: Origin)
    requires NoDeadline(s.requests)
    ensures NoDeadline(ApplyAll(s, jobs, origin).requests)
  {
    if jobs != [] {
      var front := jobs[..|jobs| - 1];
      PassNoDeadline(s, front, origin);
      TransitionNoDeadline(At(ApplyAll(s, front, origin), jobs[|jobs| - 1].at), jobs[|jobs| - 1].id, origin);
    }
  }

  lemma {:induction false} ValidateNoDeadline(s: Platform, jobs: seq<Job>)
    requires NoDeadline(s.requests)
    ensures NoDeadline(ValidateAll(s, jobs).requests)
  {
    if jobs != [] {
      ValidateNoDeadline(s, jobs[..|jobs| - 1]);
    }
  }

  lemma {:induction false} CompleteNoDeadline(s: Platform, jobs: seq<CompletionJob>)
    requires NoDeadline(s.requests)
    ensures NoDeadline(CompleteAll(s, jobs).requests)
  {
    if jobs != [] {
      var j, s0 := jobs[|jobs| - 1], CompleteAll(s, jobs[..|jobs| - 1]);
      CompleteNoDeadline(s, jobs[..|jobs| - 1]);
      var s1 := if j.fromConfirmation then ApplyTransition(At(s0, j.first), j.id, Action) else s0;
      TransitionNoDeadline(At(s0, j.first), j.id, Action);
      TransitionNoDeadline(At(s1, j.second), j.id, Action);
    }
  }

  lemma NextNoDeadline(s: Platform, e: Event)
    requires NoDeadline(s.requests) && (e.OperatorCall? ==> ClosedWindow(e.call))
    ensures NoDeadline(Next(s, e).requests)
  {
    match e
    case OperatorCall(caller, at, call) => PerformNoDeadline(At(s, at), caller, call);
    case ArtpValidates(at, rid) =>
    case ArtpRejects(at, rid) =>
    case IncidentChanges(at, frozen) =>
    case EngineTicks(p) =>
      PassNoDeadline(At(s, p.dueAt), p.converge, Action);
      PassNoDeadline(Converged(s, p), p.expire, Expiration);
      ValidateNoDeadline(At(Expired(s, p), p.validateAt), p.validate);
      CompleteNoDeadline(Validated(s, p), p.complete);
  }

  lemma {:induction false} ImmediateRunHasNoDeadline(s: Platform, run: seq<Event>)
    requires Initial(s) && AlwaysImmediate(run)
    ensures NoDeadline(Exec(s, run).requests)
  {
    if run != [] {
      var front, last := run[..|run| - 1], run[|run| - 1];
      assert last in run;
      assert AlwaysImmediate(front) by {
        forall e | e in front && e.OperatorCall? ensures ClosedWindow(e.call) { assert e in run; }
      }
      ImmediateRunHasNoDeadline(s, front);
      NextNoDeadline(Exec(s, front), last);
    }
  }

  /** With the convergence window closed, which is the default, the two queues are
    exactly what the operator may accept, and may accept or process. */
  lemma WorkQueuesAreExact(s: Platform, run: seq<Event>, s': Platform, id: RequestId, caller: OperatorId)
    requires Reaches(s, run, s') && AlwaysImmediate(run) && id in s'.requests
    ensures var r := s'.requests[id].request;
      && (ToAccept(r, caller) <==> CanAccept(r, caller).None?)
      && (ToProcess(r, caller) <==> CanAccept(r, caller).None? || CanProcess(r, caller).None?)
  {
    WorkQueuesUpToDeadline(s, run, s', id, caller);
    ImmediateRunHasNoDeadline(s, run);
  }
}
