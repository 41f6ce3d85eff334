/** How a request ends: REJETE exactly when its source refused it or left its fleet without
  a number, ANNULE exactly when its creator cancelled it. */
module Endings {
  import opened Entities
  import opened Tables
  import opened Operations
  import opened Lifecycle
  import opened Invariants
  import opened Frame
  import opened Evolution
  import opened Runs
  import opened Ticks
  import opened Replay
  import opened Answers
  import Owners
  import Expiry

  /** The event is an accepted refusal, or an acceptance that leaves no number, by the
    request's source. */
  ghost predicate Refuses(s: Platform, e: Event, id: RequestId) {
    && e.OperatorCall? && !s.frozen && id in s.requests
    && Answerable(s.requests[id].request) && e.caller == s.requests[id].request.source
    && match e.call
       case AcceptCall(x, accept, reason, _) => x == id && !accept && reason.Some? && reason.value in s.market.reasons
       case AcceptFleetCall(x, accept, rejected, reason, _) =>
         && x == id && KnownReason(s.market, reason)
         && (if !accept then reason.Some?
             else && (forall r | r in rejected ::
                        r.msisdn in s.requests[id].numbers && KnownReason(s.market, r.reason))
                  && !SomeNumberLeft(s.requests[id], rejected))
       case _ => false
  }

  /** The event is an accepted cancellation by the request's creator. */
  predicate Cancels(s: Platform, e: Event, id: RequestId) {
    && e.OperatorCall? && e.call == CancelCall(id) && id in s.requests && e.caller == s.requests[id].request.creator
    && s.requests[id].request.status == RequestInProgress && s.requests[id].request.step == Acceptance
  }

  /** What one event makes of the status of a request in progress. */
  ghost predicate StatusAfter(s: Platform, e: Event, id: RequestId, status: RequestStatus) {
    && (status == RequestRejected <==> Refuses(s, e, id))
    && (status == RequestCancelled <==> Cancels(s, e, id))
  }

  lemma ScheduledStatus(d: Dossier, d': Dossier, at: Time, window: Window)
    requires Scheduled(d, d', at, window) && d.request.status == RequestInProgress
    ensures d'.request.status == RequestInProgress || d'.request.status == RequestCompleted
  {
    assert d'.request.(routing := None).status == d'.request.status;
  }

  lemma AcceptEnds(s: Platform, e: Event, id: RequestId)
    requires e.OperatorCall? && e.call.AcceptCall? && e.call.id == id
    requires id in s.requests && s.requests[id].request.status == RequestInProgress
    ensures id in Next(s, e).requests && StatusAfter(s, e, id, Next(s, e).requests[id].request.status)
  {
    var c := e.call;
    AcceptanceAnswers(s, e.at, e.caller, id, c.accept, c.reason);
    AcceptanceWrites(s, e.at, e.caller, id, c.accept, c.reason, c.window);
    hide AcceptFault, Next, Scheduled;
    if AcceptFault(At(s, e.at), e.caller, id, c.accept, c.reason) == None && c.accept {
      ScheduledStatus(s.requests[id], Next(s, e).requests[id], e.at, c.window);
    }
  }

  lemma AcceptFleetEnds(s: Platform, e: Event, id: RequestId)
    requires e.OperatorCall? && e.call.AcceptFleetCall? && e.call.id == id
    requires id in s.requests && s.requests[id].request.status == RequestInProgress
    ensures id in Next(s, e).requests && StatusAfter(s, e, id, Next(s, e).requests[id].request.status)
  {
    var c, d := e.call, s.requests[id];
    hide AcceptFault, AcceptFleetFault, Next, Scheduled, SomeNumberLeft, Listed;
    AcceptanceAnswers(s, e.at, e.caller, id, c.accept, c.reason);
    FleetAcceptanceAnswers(s, e.at, e.caller, id, c.accept, c.rejected, c.reason);
    FleetAcceptanceWrites(s, e.at, e.caller, id, c.accept, c.rejected, c.reason, c.window);
    if AcceptFleetFault(At(s, e.at), e.caller, id, c.accept, c.rejected, c.reason) == None {
      var d' := Next(s, e).requests[id];
      if c.accept && SomeNumberLeft(d, c.rejected) {
        ScheduledStatus(d.(numbers := d'.numbers), d', e.at, c.window);
      }
    }
  }

  lemma OtherCallEnds(s: Platform, e: Event, id: RequestId)
    requires SoundPlatform(s) && QuorumPlatform(s) && e.OperatorCall? && Target(e.call) == Some(id)
    requires e.call.ConfirmCall? || e.call.ProcessCall? || e.call.CancelCall?
    requires id in s.requests && s.requests[id].request.status == RequestInProgress
    ensures id in Next(s, e).requests && StatusAfter(s, e, id, Next(s, e).requests[id].request.status)
  {
    hide SoundPlatform, QuorumPlatform, ConfirmFault, ProcessFault, CancelFault, Next, Scheduled, AllConfirmed,
        Registered;
    var d := s.requests[id];
    match e.call
    case ConfirmCall(_, window) =>
      ConfirmationWrites(s, e.at, e.caller, id, window);
      var d1 := d.(confirmers := d.confirmers + {e.caller});
      if ConfirmFault(At(s, e.at), e.caller, id) == None && AllConfirmed(d1, s.market) {
        ScheduledStatus(d1, Next(s, e).requests[id], e.at, window);
      }
    case ProcessCall(_, window) =>
      ProcessingWrites(s, e.at, e.caller, id, window);
      if ProcessFault(At(s, e.at), e.caller, id) == None {
        ScheduledStatus(d, Next(s, e).requests[id], e.at, window);
      }
    case CancelCall(_) =>
      CancellationAnswers(s, e.at, e.caller, id);
      CancellationWrites(s, e.at, e.caller, id);
  }

  lemma NotTargeted(s: Platform, e: Event, id: RequestId)
    requires !e.OperatorCall? || Target(e.call) != Some(id)
    ensures !Refuses(s, e, id) && !Cancels(s, e, id)
  {}

  lemma TickEnds(s: Platform, p: TickPlan, id: RequestId)
    requires SoundPlatform(s) && TickPossible(s, p) && id in s.requests
    requires s.requests[id].request.status == RequestInProgress
    ensures id in Tick(s, p).requests
    ensures var status := Tick(s, p).requests[id].request.status;
      status == RequestInProgress || status == RequestCompleted
  {
    hide SoundPlatform, TickPossible;
    if !s.frozen {
      hide Tick, Expired;
      AfterExpire(s, p, id);
      ThroughTick(s, p, id);
    }
  }

  /** One event, on a request in progress that it leaves in the tables. */
  lemma EventEnds(s: Platform, e: Event, id: RequestId)
    requires SoundPlatform(s) && QuorumPlatform(s) && Possible(s, e)
    requires id in s.requests && id in Next(s, e).requests && s.requests[id].request.status == RequestInProgress
    ensures StatusAfter(s, e, id, Next(s, e).requests[id].request.status)
  {
    Owners.FreshId(s);
    hide SoundPlatform, QuorumPlatform, TickPossible, Tick, Perform, StatusAfter, Refuses, Cancels;
    if e.OperatorCall? && Target(e.call) == Some(id) {
      hide Next;
      match e.call
      case AcceptCall(_, _, _, _) => AcceptEnds(s, e, id);
      case AcceptFleetCall(_, _, _, _, _) => AcceptFleetEnds(s, e, id);
      case _ => OtherCallEnds(s, e, id);
    } else {
      NotTargeted(s, e, id);
      StillOpenAfter(s, e, id);
      NeitherStatus(s, e, id, Next(s, e).requests[id].request.status);
    }
  }

  lemma NeitherStatus(s: Platform, e: Event, id: RequestId, status: RequestStatus)
    requires !Refuses(s, e, id) && !Cancels(s, e, id)
    requires status == RequestInProgress || status == RequestCompleted
    ensures StatusAfter(s, e, id, status)
  {}

  lemma StillOpenAfter(s: Platform, e: Event, id: RequestId)
    requires SoundPlatform(s) && Possible(s, e) && id in s.requests && id in Next(s, e).requests
    requires s.requests[id].request.status == RequestInProgress && s.nextId !in s.requests
    requires !e.OperatorCall? || Target(e.call) != Some(id)
    ensures var status := Next(s, e).requests[id].request.status;
      status == RequestInProgress || status == RequestCompleted
  {
    hide SoundPlatform, TickPossible, Tick, Perform;
    if e.EngineTicks? {
      TickEnds(s, e.plan, id);
    } else if e.OperatorCall? && !IsPurge(e) {
      Owners.OthersLeave(At(s, e.at), e.caller, e.call, id);
    } else if e.OperatorCall? {
      PurgeEvent(s, e);
      Owners.PurgedStays(At(s, e.at), e.caller, id);
    } else {
      Expiry.ArtpActs(s, e, id);
    }
  }

  // ---- Whole runs ----------------------------------------------------------------------------

  ghost predicate RefusedInRun(s: Platform, run: seq<Event>, id: RequestId) {
    exists i | 0 <= i < |run| :: Refuses(Exec(s, run[..i]), run[i], id)
  }

  ghost predicate CancelledInRun(s: Platform, run: seq<Event>, id: RequestId) {
    exists i | 0 <= i < |run| :: Cancels(Exec(s, run[..i]), run[i], id)
  }

  lemma InRunSplits(s: Platform, run: seq<Event>, id: RequestId)
    requires run != []
    ensures var front, last := run[..|run| - 1], run[|run| - 1];
      && (RefusedInRun(s, run, id) <==> RefusedInRun(s, front, id) || Refuses(Exec(s, front), last, id))
      && (CancelledInRun(s, run, id) <==> CancelledInRun(s, front, id) || Cancels(Exec(s, front), last, id))
  {
    hide Refuses, Cancels, Exec;
    var front := run[..|run| - 1];
    assert forall i | 0 <= i < |front| :: front[..i] == run[..i] && front[i] == run[i];
    if RefusedInRun(s, front, id) {
      var i :| 0 <= i < |front| && Refuses(Exec(s, front[..i]), front[i], id);
      assert Refuses(Exec(s, run[..i]), run[i], id);
    }
    if CancelledInRun(s, front, id) {
      var i :| 0 <= i < |front| && Cancels(Exec(s, front[..i]), front[i], id);
      assert Cancels(Exec(s, run[..i]), run[i], id);
    }
    if RefusedInRun(s, run, id) && !Refuses(Exec(s, front), run[|run| - 1], id) {
      var i :| 0 <= i < |run| && Refuses(Exec(s, run[..i]), run[i], id);
      assert i < |front| && Refuses(Exec(s, front[..i]), front[i], id);
    }
    if CancelledInRun(s, run, id) && !Cancels(Exec(s, front), run[|run| - 1], id) {
      var i :| 0 <= i < |run| && Cancels(Exec(s, run[..i]), run[i], id);
      assert i < |front| && Cancels(Exec(s, front[..i]), front[i], id);
    }
  }

  /** Identifiers of the past are below the next one. */
  lemma {:induction false} PastIds(s: Platform, run: seq<Event>, i: nat, id: RequestId)
    requires Initial(s) && PossibleRun(s, run) && i <= |run| && id in Exec(s, run[..i]).requests
    ensures id < Exec(s, run).nextId
    decreases |run|
  {
    hide Next, Possible, Initial, SoundPlatform;
    if i == |run| {
      assert run[..i] == run;
      RunKeeps(s, run);
      BelowNext(Exec(s, run), id);
    } else {
      var front := run[..|run| - 1];
      assert run[..i] == front[..i];
      PastIds(s, front, i, id);
      NextFrames(Exec(s, front), run[|run| - 1]);
    }
  }

  lemma BelowNext(s: Platform, id: RequestId)
    requires SoundPlatform(s) && id in s.requests
    ensures id < s.nextId
  {}

  /** A request that the last event opens was never met before. */
  lemma NeverMet(s: Platform, run: seq<Event>, id: RequestId)
    requires Initial(s) && PossibleRun(s, run) && id >= Exec(s, run).nextId
    ensures !RefusedInRun(s, run, id) && !CancelledInRun(s, run, id)
  {
    hide Exec, PossibleRun, Initial;
    forall i | 0 <= i < |run| ensures id !in Exec(s, run[..i]).requests {
      if id in Exec(s, run[..i]).requests {
        PastIds(s, run, i, id);
      }
    }
  }

  lemma OpenedInProgress(s: Platform, id: RequestId)
    requires SoundPlatform(s) && id in s.requests && s.requests[id].history == []
    ensures s.requests[id].request.status == RequestInProgress
  {
    assert Sound(s.requests[id], s.market, s.clock);
  }

  lemma EndedOnce(s: Platform, e: Event, id: RequestId)
    requires id in s.requests && s.requests[id].request.status != RequestInProgress
    ensures !Refuses(s, e, id) && !Cancels(s, e, id)
  {}

  /** In every run, a request is REJETE if and only if an event of the run was an accepted
    refusal, or an acceptance leaving no number, of its source; and ANNULE if and only if
    one was an accepted cancellation of its creator. */
  lemma {:induction false} EndingsAreDecisions(s: Platform, run: seq<Event>, s': Platform, id: RequestId)
    requires Reaches(s, run, s') && id in s'.requests
    ensures s'.requests[id].request.status == RequestRejected <==> RefusedInRun(s, run, id)
    ensures s'.requests[id].request.status == RequestCancelled <==> CancelledInRun(s, run, id)
  {
    if run != [] {
      var front, last := run[..|run| - 1], run[|run| - 1];
      var s1 := Exec(s, front);
      hide SoundPlatform, QuorumPlatform, Inv, Next, Possible, Initial, RefusedInRun, CancelledInRun, Refuses, Cancels;
      RunSound(s, front);
      RunSound(s, run);
      InRunSplits(s, run, id);
      if id !in s1.requests {
        NextFrames(s1, last);
        NeverMet(s, front, id);
        NotThere(s1, last, id);
        Owners.EventOpensBlank(s1, last, id);
        OpenedInProgress(s', id);
      } else {
        EndingsAreDecisions(s, front, s1, id);
        if s1.requests[id].request.status == RequestInProgress {
          EventEnds(s1, last, id);
        } else {
          EndedOnce(s1, last, id);
          Expiry.EventEvolvesIfKept(s1, last, id);
        }
      }
    }
  }

  lemma NotThere(s: Platform, e: Event, id: RequestId)
    requires id !in s.requests
    ensures !Refuses(s, e, id) && !Cancels(s, e, id)
  {}

  lemma RunSound(s: Platform, run: seq<Event>)
    requires Initial(s) && PossibleRun(s, run)
    ensures SoundPlatform(Exec(s, run)) && QuorumPlatform(Exec(s, run))
  {
    hide SoundPlatform, QuorumPlatform, Ledger, Spaced, RestitutedOnce, HoldersOk;
    RunKeeps(s, run);
  }
}
