/** What the tick closes and validates, said of the calendar alone: exactly the steps left
  open for the timeout, exactly the deadlines passed, exactly the reverse requests pending
  for the delay; and, over whole runs, that every expired step was late. */
module Expiry {
  import opened Entities
  import opened Tables
  import opened Operations
  import opened Lifecycle
  import opened Invariants
  import opened Passes
  import opened Evolution
  import opened Runs
  import opened Ticks
  import opened Deferral
  import opened Replay
  import opened Answers
  import Owners

  // ---- One tick, one request -----------------------------------------------------------

  /** The step has been open for the timeout when the tick starts, with nothing pending. */
  predicate Late(r: Request, p: TickPlan) {
    p.timeout > 0 && r.deadline == None && r.stepStart + p.timeout <= p.start
  }

  /** The pending deadline has passed when the tick looks. */
  predicate Passed(r: Request, p: TickPlan) {
    r.deadline.Some? && r.deadline.value <= p.dueAt
  }

  /** Between the two dossiers only rows by an action were written. */
  ghost predicate OnlyActions(d: Dossier, d': Dossier) {
    d.history <= d'.history && forall k | |d.history| <= k < |d'.history| :: d'.history[k].origin == Action
  }

  lemma FinishedActs(m: Market, d: Dossier, j: CompletionJob)
    ensures OnlyActions(d, Finished(m, d, j))
  {
    var d1 := if j.fromConfirmation && InProgress(d) then Advance(m, d, Action, j.first) else d;
    assert OnlyActions(d, d1);
    assert OnlyActions(d1, Finished(m, d, j));
  }

  /** The ARTP's pass writes no expiration. */
  lemma CompletionsAct(s: Platform, p: TickPlan, id: RequestId)
    requires CompletePossible(s, p) && id in s.requests
    ensures id in CompleteAll(s, p.complete).requests
    ensures OnlyActions(s.requests[id], CompleteAll(s, p.complete).requests[id])
  {
    CompleteEffect(s, p.complete);
    if HandlesCompletion(p.complete, id) {
      var i :| 0 <= i < |p.complete| && p.complete[i].id == id;
      FinishedActs(s.market, s.requests[id], p.complete[i]);
    }
  }

  lemma ActsAct(s: Platform, p: TickPlan, id: RequestId)
    requires SoundPlatform(s) && TickPossible(s, p) && !s.frozen && id in Expired(s, p).requests
    ensures id in Tick(s, p).requests && OnlyActions(Expired(s, p).requests[id], Tick(s, p).requests[id])
  {
    SameAfterValidation(s, p, id);
    hide SoundPlatform, TickPossible, CompletePossible, OnlyActions;
    CompletionsAct(Validated(s, p), p, id);
  }

  /** The row that a pass of the tick writes. */
  ghost predicate WritesOne(d: Dossier, d': Dossier, status: StepStatus, origin: Origin, from: Time) {
    && |d'.history| == |d.history| + 1 && d.history <= d'.history
    && d'.history[|d.history|].step == d.request.step && d'.history[|d.history|].status == status
    && d'.history[|d.history|].origin == origin && d'.history[|d.history|].operator == None
    && d'.history[|d.history|].start == d.request.stepStart && from <= d'.history[|d.history|].end
  }

  lemma AdvanceWritesOne(m: Market, d: Dossier, d': Dossier, origin: Origin, from: Time, to: Time)
    requires AdvancedOnce(m, d, d', origin, from, to)
    ensures WritesOne(d, d', if origin == Expiration then StepExpired else StepCompleted, origin, from)
  {}

  /** The two engine passes on one request: late, it is expired; passed, it converges;
    otherwise it is left alone; an ended one too. */
  lemma EngineWrites(s: Platform, p: TickPlan, id: RequestId)
    requires SoundPlatform(s) && TickPossible(s, p) && !s.frozen && id in s.requests
    ensures id in Expired(s, p).requests
    ensures var d, d2 := s.requests[id], Expired(s, p).requests[id];
      var open := d.request.status == RequestInProgress;
      if open && Passed(d.request, p) then WritesOne(d, d2, StepCompleted, Action, p.dueAt)
      else if open && Late(d.request, p) then WritesOne(d, d2, StepExpired, Expiration, p.dueAt)
      else d2 == d
  {
    AfterExpire(s, p, id);
    var d, d2 := s.requests[id], Expired(s, p).requests[id];
    hide SoundPlatform, TickPossible, Expired, AdvancedOnce, WritesOne;
    if Due(d, p.dueAt) {
      AdvanceWritesOne(s.market, d, d2, Action, p.dueAt, Expired(s, p).clock);
    } else if Expires(d, p) {
      AdvanceWritesOne(s.market, d, d2, Expiration, p.dueAt, Expired(s, p).clock);
    }
  }

  /** In one unfrozen tick, a request in progress gains an expiration row if and only if its
    step has been open for the timeout with nothing pending; that row closes that step and
    is the first it gains. A porting or a restitution gains a row by an action if and only
    if its deadline has passed, and otherwise is left entirely alone. */
  lemma TickExpiresIff(s: Platform, p: TickPlan, id: RequestId)
    requires SoundPlatform(s) && TickPossible(s, p) && !s.frozen && id in s.requests
    requires s.requests[id].request.status == RequestInProgress
    ensures id in Tick(s, p).requests
    ensures var d, d' := s.requests[id], Tick(s, p).requests[id];
      && d.history <= d'.history
      && (Late(d.request, p) <==> exists k | |d.history| <= k < |d'.history| :: d'.history[k].origin == Expiration)
      && (forall k | |d.history| <= k < |d'.history| && d'.history[k].origin == Expiration ::
            k == |d.history| && d'.history[k].step == d.request.step && d'.history[k].status == StepExpired
            && d'.history[k].start == d.request.stepStart)
      && (d.request.kind != Reverse ==>
            && |d'.history| == |d.history| + (if Late(d.request, p) || Passed(d.request, p) then 1 else 0)
            && (Passed(d.request, p) ==> d'.history[|d.history|].origin == Action)
            && (!Late(d.request, p) && !Passed(d.request, p) ==> d' == d))
  {
    hide SoundPlatform, TickPossible, Expired, Tick;
    EngineWrites(s, p, id);
    ActsAct(s, p, id);
    RowsThrough(s.requests[id], Expired(s, p).requests[id], Tick(s, p).requests[id], p);
    if s.requests[id].request.kind != Reverse {
      PortingThrough(s, p, id);
    }
  }

  lemma RowsThrough(d: Dossier, d2: Dossier, d': Dossier, p: TickPlan)
    requires d.request.status == RequestInProgress && OnlyActions(d2, d')
    requires if Passed(d.request, p) then WritesOne(d, d2, StepCompleted, Action, p.dueAt)
             else if Late(d.request, p) then WritesOne(d, d2, StepExpired, Expiration, p.dueAt)
             else d2 == d
    ensures d.history <= d'.history
    ensures Late(d.request, p) <==> exists k | |d.history| <= k < |d'.history| :: d'.history[k].origin == Expiration
    ensures forall k | |d.history| <= k < |d'.history| && d'.history[k].origin == Expiration ::
              k == |d.history| && d'.history[k].step == d.request.step && d'.history[k].status == StepExpired
              && d'.history[k].start == d.request.stepStart
  {
    assert forall k | 0 <= k < |d2.history| :: d'.history[k] == d2.history[k];
    if Late(d.request, p) {
      assert d'.history[|d.history|].origin == Expiration;
    }
  }

  /** The ARTP's pass does not concern a porting or a restitution. */
  lemma PortingThrough(s: Platform, p: TickPlan, id: RequestId)
    requires SoundPlatform(s) && TickPossible(s, p) && !s.frozen && id in s.requests
    requires s.requests[id].request.kind != Reverse
    ensures id in Tick(s, p).requests && id in Expired(s, p).requests
    ensures Tick(s, p).requests[id] == Expired(s, p).requests[id]
  {
    AfterExpire(s, p, id);
    ThroughTick(s, p, id);
  }

  /** A REVERSE in one unfrozen tick: at COMPLETION it ends; at CONFIRMATION it goes through
    both its steps if its deadline has passed or its step is late, and otherwise is left
    entirely alone. */
  lemma TickOnReverse(s: Platform, p: TickPlan, id: RequestId)
    requires SoundPlatform(s) && QuorumPlatform(s) && TickPossible(s, p) && !s.frozen && id in s.requests
    requires s.requests[id].request.status == RequestInProgress && s.requests[id].request.kind == Reverse
    ensures id in Tick(s, p).requests
    ensures var d, d' := s.requests[id], Tick(s, p).requests[id];
      if d.request.step == Completion || Passed(d.request, p) || Late(d.request, p)
      then d'.request.status == RequestCompleted
      else d' == d
  {
    hide SoundPlatform, QuorumPlatform, TickPossible, Tick, Expired, AwaitsArtp, Sound;
    var d := s.requests[id];
    ReverseSteps(s, id);
    AfterExpire(s, p, id);
    ThroughTick(s, p, id);
    if d.request.step == Completion {
      AwaitedEnds(s, p, id);
    } else if Due(d, p.dueAt) {
      OpensAwaiting(s.market, d, Expired(s, p).requests[id], Action, p.dueAt, Expired(s, p).clock);
    } else if Expires(d, p) {
      OpensAwaiting(s.market, d, Expired(s, p).requests[id], Expiration, p.dueAt, Expired(s, p).clock);
    } else {
      NotAwaitedYet(s, p, id);
    }
  }

  lemma OpensAwaiting(m: Market, d: Dossier, d': Dossier, origin: Origin, from: Time, to: Time)
    requires AdvancedOnce(m, d, d', origin, from, to) && InProgress(d)
    requires d.request.kind == Reverse && d.request.step == Confirmation
    ensures AwaitsArtp(d', m)
  {}

  lemma NotAwaitedYet(s: Platform, p: TickPlan, id: RequestId)
    requires SoundPlatform(s) && QuorumPlatform(s) && TickPossible(s, p) && !s.frozen
    requires id in Expired(s, p).requests && Expired(s, p).requests[id].request.step == Confirmation
    ensures !AwaitsArtp(Expired(s, p).requests[id], s.market)
  {
    if AwaitsArtp(Expired(s, p).requests[id], s.market) {
      Owners.AwaitedAtCompletion(s, p, id);
    }
  }

  // ---- Whole runs --------------------------------------------------------------------------

  /** The event is an unfrozen tick that finds this step open for its timeout. */
  predicate ExpiresStep(s: Platform, e: Event, id: RequestId, k: nat, row: HistoryRow) {
    && e.EngineTicks? && !s.frozen && id in s.requests && |s.requests[id].history| == k
    && s.requests[id].request.step == row.step && s.requests[id].request.deadline == None
    && e.plan.timeout > 0 && row.start + e.plan.timeout <= e.plan.start
  }

  lemma SettledActs(d: Dossier, d': Dossier, at: Time, window: Window)
    requires Scheduled(d, d', at, window)
    ensures OnlyActions(d, d')
  {}

  lemma EndedActs(d: Dossier, d': Dossier, status: RequestStatus, caller: OperatorId, at: Time)
    requires EndedBy(d, d', status, caller, at)
    ensures OnlyActions(d, d')
  {}

  lemma SameActs(d: Dossier)
    ensures OnlyActions(d, d)
  {}

  lemma WithActs(d: Dossier, d1: Dossier, d': Dossier)
    requires OnlyActions(d1, d') && d1.history == d.history
    ensures OnlyActions(d, d')
  {}

  /** Calls only ever write rows by an action. */
  lemma CallActs(s: Platform, e: Event, id: RequestId)
    requires SoundPlatform(s) && QuorumPlatform(s) && e.OperatorCall? && !e.call.PurgeCall? && id in s.requests
    ensures id in Next(s, e).requests && OnlyActions(s.requests[id], Next(s, e).requests[id])
  {
    hide SoundPlatform, QuorumPlatform, Perform, OnlyActions;
    Owners.FreshId(s);
    SameActs(s.requests[id]);
    if Target(e.call) != Some(id) {
      Owners.OthersLeave(At(s, e.at), e.caller, e.call, id);
    } else {
      TargetActs(s, e, id);
    }
  }

  lemma TargetActs(s: Platform, e: Event, id: RequestId)
    requires SoundPlatform(s) && QuorumPlatform(s) && e.OperatorCall? && Target(e.call) == Some(id) && id in s.requests
    ensures id in Next(s, e).requests && OnlyActions(s.requests[id], Next(s, e).requests[id])
  {
    hide SoundPlatform, QuorumPlatform, Next, AcceptFault, AcceptFleetFault, ConfirmFault, ProcessFault, CancelFault,
      AllConfirmed, SomeNumberLeft, Registered, Scheduled, EndedBy, OnlyActions, Listed;
    var d := s.requests[id];
    SameActs(d);
    match e.call
    case AcceptCall(_, accept, reason, window) =>
      AcceptanceWrites(s, e.at, e.caller, id, accept, reason, window);
      if AcceptFault(At(s, e.at), e.caller, id, accept, reason) == None {
        if accept { SettledActs(d, Next(s, e).requests[id], e.at, window); }
        else { EndedActs(d, Next(s, e).requests[id], RequestRejected, e.caller, e.at); }
      }
    case AcceptFleetCall(_, accept, rejected, reason, window) =>
      FleetAcceptanceWrites(s, e.at, e.caller, id, accept, rejected, reason, window);
      if AcceptFleetFault(At(s, e.at), e.caller, id, accept, rejected, reason) == None {
        var d' := Next(s, e).requests[id];
        if accept && SomeNumberLeft(d, rejected) {
          SettledActs(d.(numbers := d'.numbers), d', e.at, window);
          WithActs(d, d.(numbers := d'.numbers), d');
        } else {
          EndedActs(d, d', RequestRejected, e.caller, e.at);
        }
      }
    case ConfirmCall(_, window) =>
      ConfirmationWrites(s, e.at, e.caller, id, window);
      if ConfirmFault(At(s, e.at), e.caller, id) == None {
        var d1, d' := d.(confirmers := d.confirmers + {e.caller}), Next(s, e).requests[id];
        if AllConfirmed(d1, s.market) { SettledActs(d1, d', e.at, window); } else { SameActs(d1); }
        WithActs(d, d1, d');
      }
    case ProcessCall(_, window) =>
      ProcessingWrites(s, e.at, e.caller, id, window);
      if ProcessFault(At(s, e.at), e.caller, id) == None {
        SettledActs(d, Next(s, e).requests[id], e.at, window);
      }
    case CancelCall(_) =>
      CancellationWrites(s, e.at, e.caller, id);
      if CancelFault(At(s, e.at), e.caller, id) == None {
        EndedActs(d, Next(s, e).requests[id], RequestCancelled, e.caller, e.at);
      }
  }

  /** One event, on a request it leaves in the tables: the expiration rows it writes. */
  lemma EventExpires(s: Platform, e: Event, id: RequestId, k: nat)
    requires SoundPlatform(s) && QuorumPlatform(s) && Possible(s, e)
    requires id in s.requests && id in Next(s, e).requests
    requires |s.requests[id].history| <= k < |Next(s, e).requests[id].history|
    requires Next(s, e).requests[id].history[k].origin == Expiration
    ensures ExpiresStep(s, e, id, k, Next(s, e).requests[id].history[k])
  {
    hide SoundPlatform, QuorumPlatform, TickPossible, Tick, Perform;
    if e.EngineTicks? {
      TickWritesLate(s, e.plan, id, k);
    } else if e.OperatorCall? && !e.call.PurgeCall? {
      CallActs(s, e, id);
    } else if e.OperatorCall? {
      PurgeEvent(s, e);
      Owners.PurgedStays(At(s, e.at), e.caller, id);
    } else {
      ArtpActs(s, e, id);
    }
  }

  lemma ArtpActs(s: Platform, e: Event, id: RequestId)
    requires SoundPlatform(s) && !e.OperatorCall? && !e.EngineTicks? && id in s.requests
    ensures id in Next(s, e).requests && Next(s, e).requests[id] == s.requests[id]
  {
    Owners.FreshId(s);
    hide SoundPlatform;
  }

  lemma TickWritesLate(s: Platform, p: TickPlan, id: RequestId, k: nat)
    requires SoundPlatform(s) && TickPossible(s, p) && id in s.requests && id in Tick(s, p).requests
    requires |s.requests[id].history| <= k < |Tick(s, p).requests[id].history|
    requires Tick(s, p).requests[id].history[k].origin == Expiration
    ensures ExpiresStep(s, EngineTicks(p), id, k, Tick(s, p).requests[id].history[k])
  {
    hide SoundPlatform, TickPossible;
    if !s.frozen {
      hide Tick;
      if s.requests[id].request.status == RequestInProgress {
        TickExpiresIff(s, p, id);
      } else {
        CompletedStays(s, p, id);
      }
    }
  }

  ghost predicate ExpiredInRun(s: Platform, run: seq<Event>, id: RequestId, k: nat, row: HistoryRow) {
    exists i | 0 <= i < |run| :: ExpiresStep(Exec(s, run[..i]), run[i], id, k, row)
  }

  lemma ExpiredLonger(s: Platform, run: seq<Event>, id: RequestId, k: nat, row: HistoryRow)
    requires run != [] && ExpiredInRun(s, run[..|run| - 1], id, k, row)
    ensures ExpiredInRun(s, run, id, k, row)
  {
    var front := run[..|run| - 1];
    var i :| 0 <= i < |front| && ExpiresStep(Exec(s, front[..i]), front[i], id, k, row);
    assert front[..i] == run[..i] && front[i] == run[i];
  }

  lemma ExpiredLast(s: Platform, run: seq<Event>, id: RequestId, k: nat, row: HistoryRow)
    requires run != [] && ExpiresStep(Exec(s, run[..|run| - 1]), run[|run| - 1], id, k, row)
    ensures ExpiredInRun(s, run, id, k, row)
  {}

  /** In every run, each expiration row was written by a tick of the run that started at
    least its timeout after the step did, with nothing pending. */
  lemma {:induction false} ExpirationsAreLate(s: Platform, run: seq<Event>, s': Platform, id: RequestId, k: nat)
    requires Reaches(s, run, s') && id in s'.requests && k < |s'.requests[id].history|
    requires s'.requests[id].history[k].origin == Expiration
    ensures exists i | 0 <= i < |run| :: ExpiresStep(Exec(s, run[..i]), run[i], id, k, s'.requests[id].history[k])
  {
    if run != [] {
      var front, last := run[..|run| - 1], run[|run| - 1];
      var s1, row := Exec(s, front), s'.requests[id].history[k];
      RunKeeps(s, front);
      hide SoundPlatform, QuorumPlatform, Ledger, Spaced, RestitutedOnce, HoldersOk, Next, Possible, ExpiresStep,
          Initial;
      if id !in s1.requests {
        Owners.EventOpensBlank(s1, last, id);
      } else if k < |s1.requests[id].history| {
        EventEvolvesIfKept(s1, last, id);
        ExpirationsAreLate(s, front, s1, id, k);
        ExpiredLonger(s, run, id, k, row);
      } else {
        EventExpires(s1, last, id, k);
        ExpiredLast(s, run, id, k, row);
      }
    }
  }

  lemma EventEvolvesIfKept(s: Platform, e: Event, id: RequestId)
    requires SoundPlatform(s) && Possible(s, e) && id in s.requests && id in Next(s, e).requests
    ensures s.requests[id].history <= Next(s, e).requests[id].history
    ensures s.requests[id].request.status != RequestInProgress ==> Next(s, e).requests[id] == s.requests[id]
  {
    hide SoundPlatform, Possible, Tick, Perform;
    if IsPurge(e) {
      PurgeEvent(s, e);
      Owners.PurgedStays(At(s, e.at), e.caller, id);
    } else {
      hide Next;
      EventEvolves(s, e, id);
    }
  }

  // ---- Reverse requests ----------------------------------------------------------------------

  /** The reverse request was validated into this new request. */
  ghost predicate ValidatedInto(s: Platform, s': Platform, rid: RequestId) {
    && rid in s.reverses && rid in s'.reverses
    && s'.reverses[rid].status == ReverseValidated && s'.reverses[rid].request.Some?
    && s'.reverses[rid] == s.reverses[rid].(status := ReverseValidated, request := s'.reverses[rid].request)
    && var id := s'.reverses[rid].request.value;
       && id !in s.requests && id in s'.requests && s.reverses[rid].msisdn in s.registry
       && s'.requests[id].request.kind == Reverse && s'.requests[id].request.msisdn == s.reverses[rid].msisdn
       && s'.requests[id].request.recipient == s.reverses[rid].operator
       && s'.requests[id].request.creator == s.reverses[rid].operator
       && s'.requests[id].request.source == s.registry[s.reverses[rid].msisdn].holder
  }

  /** A pass of validations: the listed pending requests are validated, each into its own
    new REVERSE, and no other reverse request changes. */
  lemma {:induction false} ValidationsMark(s: Platform, jobs: seq<Job>, rid: RequestId)
    requires DistinctJobs(jobs) && rid in s.reverses
    requires (forall x | x in s.requests :: x < s.nextId)
    ensures var s' := ValidateAll(s, jobs);
      if Handles(jobs, rid) && CanValidate(s, rid) then ValidatedInto(s, s', rid)
      else rid in s'.reverses && s'.reverses[rid] == s.reverses[rid]
  {
    if jobs != [] {
      var front, last := jobs[..|jobs| - 1], jobs[|jobs| - 1];
      var s1 := ValidateAll(s, front);
      ValidationsMark(s, front, rid);
      ValidateEffect(s, front);
      HandlesLast(jobs, rid);
      hide ValidateAll, Handles, DistinctJobs;
      OneValidationMarks(s, At(s1, last.at), last.id, rid);
      assert ValidateAll(s, jobs) == ValidateReverse(At(s1, last.at), last.id) by { LastValidation(s, jobs); }
    }
  }

  lemma LastValidation(s: Platform, jobs: seq<Job>)
    requires jobs != []
    ensures var j := jobs[|jobs| - 1];
      ValidateAll(s, jobs) == ValidateReverse(At(ValidateAll(s, jobs[..|jobs| - 1]), j.at), j.id)
  {
    hide ValidateReverse;
  }

  lemma OneValidationMarks(s: Platform, s1: Platform, job: RequestId, rid: RequestId)
    requires rid in s.reverses && rid in s1.reverses && s1.registry == s.registry
    requires forall x | x in s.requests :: x in s1.requests && x < s1.nextId
    requires s1.nextId !in s1.requests
    ensures var s' := ValidateReverse(s1, job);
      && rid in s'.reverses
      && (job != rid ==> s'.reverses[rid] == s1.reverses[rid])
      && (job != rid && ValidatedInto(s, s1, rid) ==> ValidatedInto(s, s', rid))
      && (job == rid && s1.reverses[rid] == s.reverses[rid] ==>
            if CanValidate(s, rid) then ValidatedInto(s, s', rid) else s'.reverses[rid] == s.reverses[rid])
  {}

  /** In one unfrozen tick a pending reverse request is validated if and only if validation
    is on and it has been pending for the delay when the tick looks; any other is left
    alone. The REVERSE it becomes leaves from whoever holds the number by then. */
  lemma TickValidatesIff(s: Platform, p: TickPlan, rid: RequestId)
    requires SoundPlatform(s) && TickPossible(s, p) && !s.frozen && rid in s.reverses
    ensures var s', rr := Tick(s, p), s.reverses[rid];
      && rid in s'.reverses
      && (if rr.status == ReversePending && p.autoValidation > 0 && rr.requestedAt + p.autoValidation <= p.validateAt
          then ValidatedInto(Expired(s, p), Validated(s, p), rid) && s'.reverses[rid] == Validated(s, p).reverses[rid]
          else s'.reverses[rid] == rr)
  {
    var s2 := Expired(s, p);
    EngineLeavesReverses(s, p);
    OverdueIsHandled(s, p, rid);
    KnownReverse(s2, rid);
    hide SoundPlatform, TickPossible, Expired, ValidatedInto, OverdueReverse;
    ValidationsMark(At(s2, p.validateAt), p.validate, rid);
    IntoAt(s2, p.validateAt, Validated(s, p), rid);
  }

  lemma IntoAt(s: Platform, t: Time, s': Platform, rid: RequestId)
    ensures ValidatedInto(At(s, t), s', rid) <==> ValidatedInto(s, s', rid)
  {}

  lemma KnownReverse(s: Platform, rid: RequestId)
    requires SoundPlatform(s) && rid in s.reverses
    ensures s.reverses[rid].msisdn in s.registry && forall x | x in s.requests :: x < s.nextId
  {
    assert ReverseOk(s, rid, s.reverses[rid]);
  }

  lemma EngineLeavesReverses(s: Platform, p: TickPlan)
    requires SoundPlatform(s) && TickPossible(s, p) && !s.frozen
    ensures Expired(s, p).reverses == s.reverses && Tick(s, p).reverses == Validated(s, p).reverses
    ensures SoundPlatform(Expired(s, p))
  {
    Stages(s, p);
    Acts(s, p);
    hide SoundPlatform, TickPossible;
    CompletesDistinct(s, p);
    CompleteEffect(Validated(s, p), p.complete);
  }

  lemma CompletesDistinct(s: Platform, p: TickPlan)
    requires TickPossible(s, p) && !s.frozen
    ensures DistinctCompletions(p.complete)
  {}

  lemma OverdueIsHandled(s: Platform, p: TickPlan, rid: RequestId)
    requires TickPossible(s, p) && !s.frozen && rid in Expired(s, p).reverses
    ensures DistinctJobs(p.validate)
    ensures Handles(p.validate, rid)
            <==> p.autoValidation > 0 && Expired(s, p).reverses[rid].status == ReversePending
                 && Expired(s, p).reverses[rid].requestedAt + p.autoValidation <= p.validateAt
  {
    var ids := if p.autoValidation <= 0 then {} else OverdueForAutoValidation(Expired(s, p), p.autoValidation,
        p.validateAt);
    assert Enumerates(p.validate, ids);
    assert rid in ids <==> Handles(p.validate, rid);
  }
}
