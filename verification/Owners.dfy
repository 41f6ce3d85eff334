/** Who closes a step: every row written by an action goes back to an accepted call of
  the step's owner, made while the step was open. */
module Owners {
  import opened Entities
  import opened Tables
  import opened Operations
  import opened Lifecycle
  import opened Invariants
  import opened Passes
  import opened Evolution
  import opened Runs
  import opened Ticks
  import opened Deferral
  import opened Replay

  /** The step is this operator's: the source's, the recipient's, or every expected
    confirmer's; the last step of a REVERSE is nobody's. */
  predicate Owns(r: Request, m: Market, operator: OperatorId) {
    match StepOwner(r.step, r.kind)
    case RoleSource => operator == r.source
    case RoleRecipient => operator == r.recipient
    case RoleAll => operator in ExpectedConfirmers(r, m.operators)
    case RoleArtp => false
  }

  /** Why a call on an existing request is refused, or None. */
  function FaultFor(s: Platform, caller: OperatorId, c: Call): Option<Fault>
    requires Target(c).Some?
  {
    match c
    case AcceptCall(id, accept, reason, _) => AcceptFault(s, caller, id, accept, reason)
    case AcceptFleetCall(id, accept, rejected, reason, _) => AcceptFleetFault(s, caller, id, accept, rejected, reason)
    case ConfirmCall(id, _) => ConfirmFault(s, caller, id)
    case ProcessCall(id, _) => ProcessFault(s, caller, id)
    case CancelCall(id) => CancelFault(s, caller, id)
  }

  /** The event is an accepted call on the request, whose k-th step it finds open and
    unsettled: its owner's, or at ACCEPTATION its creator's cancellation. */
  predicate Settles(s: Platform, e: Event, id: RequestId, k: nat, step: Step) {
    && e.OperatorCall? && Target(e.call) == Some(id) && id in s.requests
    && FaultFor(At(s, e.at), e.caller, e.call).None?
    && InProgress(s.requests[id]) && s.requests[id].request.step == step && |s.requests[id].history| == k
    && (if e.call.CancelCall? then step == Acceptance && e.caller == s.requests[id].request.creator
        else s.requests[id].request.deadline.None? && Owns(s.requests[id].request, s.market, e.caller))
  }

  lemma AcceptedIsOwners(s: Platform, e: Event, id: RequestId)
    requires e.OperatorCall? && Target(e.call) == Some(id) && FaultFor(At(s, e.at), e.caller, e.call).None?
    ensures id in s.requests && Settles(s, e, id, |s.requests[id].history|, s.requests[id].request.step)
  {}

  // ---- What one event does to a request's rows ------------------------------------------

  /** A row written by an action, other than the completion of a REVERSE. */
  predicate ByAction(d: Dossier, k: nat) {
    k < |d.history| && d.history[k].origin == Action && !(d.request.kind == Reverse && d.history[k].step == Completion)
  }

  /** From one state to the next: rows by action and new deadlines come from a pending
    deadline or from this settling call. */
  ghost predicate Accounted(d: Dossier, d': Dossier, settled: bool) {
    && d.history <= d'.history && d'.request.kind == d.request.kind
    && (forall k | |d.history| <= k && ByAction(d', k) ::
          k == |d.history| && d'.history[k].step == d.request.step && (settled || d.request.deadline.Some?))
    && (d'.request.deadline.Some? ==>
          |d'.history| == |d.history| && d'.request.step == d.request.step && (settled || d.request.deadline.Some?))
  }

  lemma SameAccounted(d: Dossier, settled: bool)
    ensures Accounted(d, d, settled)
  {}

  lemma AccountedEither(d: Dossier, d': Dossier, settled: bool)
    requires Accounted(d, d', false)
    ensures Accounted(d, d', settled)
  {}

  lemma ScheduleAccounts(s: Platform, id: RequestId, window: Window)
    requires id in s.requests && InProgress(s.requests[id])
    ensures id in ScheduleTransition(s, id, window).requests
    ensures Accounted(s.requests[id], ScheduleTransition(s, id, window).requests[id], true)
  {}

  lemma EndedAccounts(d: Dossier, status: RequestStatus, caller: OperatorId, now: Time)
    requires d.request.deadline.None?
    ensures Accounted(d, Ended(d, status, caller, now), true)
  {}

  lemma WithdrawnAccounts(d: Dossier, caller: OperatorId, now: Time)
    ensures Accounted(d, Withdrawn(d, RequestCancelled, caller, now), true)
  {}

  lemma RejectedAccounts(d: Dossier, rejected: seq<RejectedNumber>, d': Dossier)
    requires Accounted(RejectNumbers(d, rejected), d', true)
    ensures Accounted(d, d', true)
  {
    RejectNumbersEffect(d, rejected);
  }

  lemma ConfirmedAccounts(d: Dossier, caller: OperatorId, d': Dossier)
    requires Accounted(Confirmed(d, caller), d', true)
    ensures Accounted(d, d', true)
  {}

  lemma AcceptedAccounts(s: Platform, caller: OperatorId, c: Call, id: RequestId)
    requires Target(c) == Some(id) && FaultFor(s, caller, c).None? && id in s.requests && InProgress(s.requests[id])
    requires !c.CancelCall? ==> s.requests[id].request.deadline.None?
    ensures id in Perform(s, caller, c).requests
    ensures Accounted(s.requests[id], Perform(s, caller, c).requests[id], true)
  {
    var d := s.requests[id];
    hide Accounted, ScheduleTransition, RejectNumbers, Ended, Confirmed, CountReached, HasActiveNumber;
    match c
    case AcceptCall(_, accept, reason, window) =>
      ScheduleAccounts(s, id, window);
      EndedAccounts(d, RequestRejected, caller, s.clock);
    case AcceptFleetCall(_, accept, rejected, reason, window) => AcceptedFleetAccounts(s, caller, c, id);
    case ConfirmCall(_, window) => AcceptedConfirmationAccounts(s, caller, id, window);
    case ProcessCall(_, window) => ScheduleAccounts(s, id, window);
    case CancelCall(_) => WithdrawnAccounts(d, caller, s.clock);
  }

  lemma AcceptedFleetAccounts(s: Platform, caller: OperatorId, c: Call, id: RequestId)
    requires c.AcceptFleetCall? && c.id == id && FaultFor(s, caller, c).None?
    requires id in s.requests && InProgress(s.requests[id]) && s.requests[id].request.deadline.None?
    ensures id in Perform(s, caller, c).requests
    ensures Accounted(s.requests[id], Perform(s, caller, c).requests[id], true)
  {
    var d := s.requests[id];
    var d1 := RejectNumbers(d, c.rejected);
    RejectNumbersEffect(d, c.rejected);
    hide Accounted, ScheduleTransition, RejectNumbers, Ended, HasActiveNumber;
    EndedAccounts(d, RequestRejected, caller, s.clock);
    EndedAccounts(d1, RequestRejected, caller, s.clock);
    RejectedSchedule(s, id, d1, c.window);
    var s' := Perform(s, caller, c);
    if c.accept {
      RejectedAccounts(d, c.rejected, s'.requests[id]);
    }
  }

  lemma RejectedSchedule(s: Platform, id: RequestId, d1: Dossier, window: Window)
    requires id in s.requests && InProgress(d1)
    ensures id in ScheduleTransition(Put(s, id, d1), id, window).requests
    ensures Accounted(d1, ScheduleTransition(Put(s, id, d1), id, window).requests[id], true)
  {
    hide Accounted, ScheduleTransition;
    ScheduleAccounts(Put(s, id, d1), id, window);
  }

  lemma AcceptedConfirmationAccounts(s: Platform, caller: OperatorId, id: RequestId, window: Window)
    requires ConfirmFault(s, caller, id).None?
    ensures id in Confirm(s, caller, id, window).requests
    ensures Accounted(s.requests[id], Confirm(s, caller, id, window).requests[id], true)
  {
    var d1 := Confirmed(s.requests[id], caller);
    assert InProgress(d1);
    SameAccounted(d1, true);
    hide Accounted, ScheduleTransition, Confirmed, CountReached;
    RejectedSchedule(s, id, d1, window);
    ConfirmedAccounts(s.requests[id], caller, Confirm(s, caller, id, window).requests[id]);
  }

  lemma RefusedLeaves(s: Platform, caller: OperatorId, c: Call)
    requires Target(c).Some? && FaultFor(s, caller, c).Some?
    ensures Perform(s, caller, c) == s
  {}

  lemma OthersLeave(s: Platform, caller: OperatorId, c: Call, id: RequestId)
    requires id in s.requests && s.nextId !in s.requests && Target(c) != Some(id) && !c.PurgeCall?
    ensures id in Perform(s, caller, c).requests && Perform(s, caller, c).requests[id] == s.requests[id]
  {
    if Target(c).Some? {
      TargetLeaves(s, caller, c, id);
    } else {
      CreationLeaves(s, caller, c, id);
    }
  }

  lemma CreationLeaves(s: Platform, caller: OperatorId, c: Call, id: RequestId)
    requires id in s.requests && s.nextId !in s.requests && Target(c).None? && !c.PurgeCall?
    ensures id in Perform(s, caller, c).requests && Perform(s, caller, c).requests[id] == s.requests[id]
  {
    hide CreateIndividualFault, CreateFleetFault, CreateRestitutionFault, SubmitReverseFault, Deduplicate, Retained,
      Excluded, FleetRows, RoutingPrefix, SingleRow;
  }

  /** Scheduling touches one request. */
  lemma ScheduleLeaves(s: Platform, x: RequestId, window: Window, id: RequestId)
    requires id in s.requests && id != x
    ensures var s' := ScheduleTransition(s, x, window); id in s'.requests && s'.requests[id] == s.requests[id]
  {
    hide Advance, Transfer;
  }

  lemma TargetLeaves(s: Platform, caller: OperatorId, c: Call, id: RequestId)
    requires id in s.requests && Target(c).Some? && Target(c) != Some(id)
    ensures id in Perform(s, caller, c).requests && Perform(s, caller, c).requests[id] == s.requests[id]
  {
    if FaultFor(s, caller, c).None? {
      Found(s, caller, c);
    }
    hide AcceptFault, AcceptFleetFault, ConfirmFault, ProcessFault, CancelFault, ScheduleTransition, RejectNumbers,
      Reject, CancelWrite, HasActiveNumber, CountReached, Confirmed;
    match c
    case AcceptCall(x, _, _, window) => ScheduleLeaves(s, x, window, id);
    case AcceptFleetCall(x, accept, rejected, reason, window) =>
      if AcceptFleetFault(s, caller, x, accept, rejected, reason).None? && accept {
        ScheduleLeaves(Put(s, x, RejectNumbers(s.requests[x], rejected)), x, window, id);
      }
    case ConfirmCall(x, window) =>
      if ConfirmFault(s, caller, x).None? {
        ScheduleLeaves(Put(s, x, Confirmed(s.requests[x], caller)), x, window, id);
      }
    case ProcessCall(x, window) => ScheduleLeaves(s, x, window, id);
    case CancelCall(_) =>
  }

  lemma CallAccounts(s: Platform, e: Event, id: RequestId)
    requires e.OperatorCall? && !e.call.PurgeCall? && id in s.requests && s.nextId !in s.requests
    ensures id in Next(s, e).requests
    ensures var d := s.requests[id];
      Accounted(d, Next(s, e).requests[id], Settles(s, e, id, |d.history|, d.request.step))
  {
    var d := s.requests[id];
    hide Perform, Accounted, FaultFor;
    SameAccounted(d, Settles(s, e, id, |d.history|, d.request.step));
    if Target(e.call) != Some(id) {
      OthersLeave(At(s, e.at), e.caller, e.call, id);
    } else if FaultFor(At(s, e.at), e.caller, e.call).Some? {
      RefusedLeaves(At(s, e.at), e.caller, e.call);
    } else {
      AcceptedIsOwners(s, e, id);
      AcceptedAccounts(At(s, e.at), e.caller, e.call, id);
    }
  }

  // ---- The tick -----------------------------------------------------------------------------

  lemma AdvanceAccounts(m: Market, d: Dossier, d': Dossier, origin: Origin, from: Time, to: Time)
    requires AdvancedOnce(m, d, d', origin, from, to) && (origin == Action ==> d.request.deadline.Some?)
    ensures Accounted(d, d', false) && d'.request.deadline.None?
  {}

  /** Closing the last step of a REVERSE afterwards changes nothing to the account. */
  lemma CompletionAccounts(m: Market, d: Dossier, d1: Dossier, d': Dossier, from: Time, to: Time)
    requires Accounted(d, d1, false) && d.request.kind == Reverse && d1.request.step == Completion
    requires AdvancedOnce(m, d1, d', Action, from, to)
    ensures Accounted(d, d', false)
  {
    var t :| from <= t <= to && d' == Advance(m, d1, Action, t);
    assert forall k | 0 <= k < |d1.history| :: d'.history[k] == d1.history[k];
  }

  lemma SomeOperator(d: Dossier, m: Market, now: Time)
    requires MarketOk(m) && Sound(d, m, now)
    ensures m.operators != []
  {
    assert d.request.recipient in m.prefixes by { assert RoutingOk(d, m); }
    assert d.request.recipient in (set op | op in m.operators);
  }

  /** After the two engine passes. */
  lemma EngineAccounts(s: Platform, p: TickPlan, id: RequestId)
    requires SoundPlatform(s) && TickPossible(s, p) && !s.frozen && id in s.requests
    ensures id in Expired(s, p).requests && Accounted(s.requests[id], Expired(s, p).requests[id], false)
  {
    hide SoundPlatform, TickPossible, Expired, Accounted, AdvancedOnce, Expires;
    var d, d2 := s.requests[id], Expired(s, p).requests;
    AfterExpire(s, p, id);
    SameAccounted(d, false);
    if Due(d, p.dueAt) {
      AdvanceAccounts(s.market, d, d2[id], Action, p.dueAt, Expired(s, p).clock);
    } else if Expires(d, p) {
      AdvanceAccounts(s.market, d, d2[id], Expiration, p.dueAt, Expired(s, p).clock);
    }
  }

  /** A REVERSE that the ARTP's pass finds is at COMPLETION. */
  lemma AwaitedAtCompletion(s: Platform, p: TickPlan, id: RequestId)
    requires SoundPlatform(s) && QuorumPlatform(s) && TickPossible(s, p) && !s.frozen
    requires id in Expired(s, p).requests && AwaitsArtp(Expired(s, p).requests[id], s.market)
    ensures Expired(s, p).requests[id].request.step == Completion
  {
    SameAfterValidation(s, p, id);
    ValidatedKeeps(s, p);
    var s3 := Validated(s, p);
    hide TickPossible, Expired, Validated, AwaitsArtp;
    SomeOperator(s3.requests[id], s3.market, s3.clock);
    NeverReadyAtConfirmation(s3.requests[id], s3.market);
  }

  lemma TickAccounts(s: Platform, p: TickPlan, id: RequestId)
    requires SoundPlatform(s) && QuorumPlatform(s) && TickPossible(s, p) && id in s.requests
    ensures id in Tick(s, p).requests && Accounted(s.requests[id], Tick(s, p).requests[id], false)
  {
    SameAccounted(s.requests[id], false);
    if !s.frozen {
      hide SoundPlatform, QuorumPlatform, TickPossible, Tick, Expired, Accounted, AdvancedOnce, AwaitsArtp;
      EngineAccounts(s, p, id);
      ThroughTick(s, p, id);
      var d2 := Expired(s, p).requests[id];
      if AwaitsArtp(d2, s.market) {
        AwaitedAtCompletion(s, p, id);
        CompletedInTick(s, p, id);
        AwaitsReverse(d2, s.market);
        AccountedKind(s.requests[id], d2);
        CompletionAccounts(s.market, s.requests[id], d2, Tick(s, p).requests[id], Expired(s, p).clock,
            Tick(s, p).clock);
      }
    }
  }

  lemma AwaitsReverse(d: Dossier, m: Market)
    requires AwaitsArtp(d, m)
    ensures d.request.kind == Reverse
  {}

  lemma AccountedKind(d: Dossier, d': Dossier)
    requires Accounted(d, d', false)
    ensures d'.request.kind == d.request.kind
  {}

  /** Any event, on a request that it leaves in the tables. */
  lemma EventAccounts(s: Platform, e: Event, id: RequestId)
    requires SoundPlatform(s) && QuorumPlatform(s) && Possible(s, e)
    requires id in s.requests && id in Next(s, e).requests
    ensures var d := s.requests[id];
      Accounted(d, Next(s, e).requests[id], Settles(s, e, id, |d.history|, d.request.step))
  {
    hide SoundPlatform, QuorumPlatform, TickPossible, Tick, Accounted, Settles, Perform;
    var d := s.requests[id];
    FreshId(s);
    SameAccounted(d, Settles(s, e, id, |d.history|, d.request.step));
    if e.EngineTicks? {
      TickAccounts(s, e.plan, id);
      AccountedEither(d, Tick(s, e.plan).requests[id], Settles(s, e, id, |d.history|, d.request.step));
    } else if e.OperatorCall? && !IsPurge(e) {
      CallAccounts(s, e, id);
    } else {
      if IsPurge(e) {
        PurgeEvent(s, e);
        PurgedStays(At(s, e.at), e.caller, id);
      }
    }
  }

  lemma FreshId(s: Platform)
    requires SoundPlatform(s)
    ensures s.nextId !in s.requests
  {}

  lemma PurgedStays(s: Platform, caller: OperatorId, id: RequestId)
    requires id in s.requests && id in Purge(s, caller).requests
    ensures Purge(s, caller).requests[id] == s.requests[id]
  {
    hide NumbersToRestore, ReversePurged, Restored;
  }

  // ---- New requests ------------------------------------------------------------------------

  ghost predicate Blank(d: Dossier) {
    d.history == [] && d.request.deadline.None?
  }

  lemma CallOpensBlank(s: Platform, caller: OperatorId, c: Call, id: RequestId)
    requires id !in s.requests && id in Perform(s, caller, c).requests
    ensures Blank(Perform(s, caller, c).requests[id])
  {
    hide CreateIndividualFault, CreateFleetFault, CreateRestitutionFault, SubmitReverseFault, Deduplicate, Retained,
      Excluded, FleetRows, RoutingPrefix, SingleRow, NumbersToRestore, ReversePurged, Restored, Accept, AcceptFleet,
      Confirm, Process, Cancel;
    if Target(c).Some? {
      TargetOpensNothing(s, caller, c);
    }
  }

  lemma ScheduleOpensNothing(s: Platform, x: RequestId, window: Window)
    ensures ScheduleTransition(s, x, window).requests.Keys == s.requests.Keys
  {
    hide Advance, Transfer;
  }

  lemma TargetOpensNothing(s: Platform, caller: OperatorId, c: Call)
    requires Target(c).Some?
    ensures Perform(s, caller, c).requests.Keys == s.requests.Keys
  {
    if FaultFor(s, caller, c).None? {
      Found(s, caller, c);
    }
    hide AcceptFault, AcceptFleetFault, ConfirmFault, ProcessFault, CancelFault, ScheduleTransition, RejectNumbers,
      Reject, CancelWrite, HasActiveNumber, CountReached, Confirmed;
    match c
    case AcceptCall(x, _, _, window) => ScheduleOpensNothing(s, x, window);
    case AcceptFleetCall(x, accept, rejected, reason, window) =>
      if AcceptFleetFault(s, caller, x, accept, rejected, reason).None? && accept {
        ScheduleOpensNothing(Put(s, x, RejectNumbers(s.requests[x], rejected)), x, window);
      }
    case ConfirmCall(x, window) =>
      if ConfirmFault(s, caller, x).None? {
        ScheduleOpensNothing(Put(s, x, Confirmed(s.requests[x], caller)), x, window);
      }
    case ProcessCall(x, window) => ScheduleOpensNothing(s, x, window);
    case CancelCall(_) =>
  }

  lemma Found(s: Platform, caller: OperatorId, c: Call)
    requires Target(c).Some? && FaultFor(s, caller, c).None?
    ensures Target(c).value in s.requests
  {}

  lemma OpenedIsBlank(d: Dossier, m: Market, now: Time)
    requires MarketOk(m) && Sound(d, m, now) && InProgress(d) && d.request.kind == Reverse
    requires d.request.step == Confirmation && d.confirmers == {}
    ensures d.history == [] && !AwaitsArtp(d, m)
  {
    SomeOperator(d, m, now);
  }

  lemma TickOpensBlank(s: Platform, p: TickPlan, id: RequestId)
    requires SoundPlatform(s) && TickPossible(s, p) && id !in s.requests && id in Tick(s, p).requests
    ensures Blank(Tick(s, p).requests[id])
  {
    if !s.frozen {
      var s2, s3 := Expired(s, p), Validated(s, p);
      Acts(s, p);
      ExpiredIsSound(s, p);
      ValidateEffect(At(s2, p.validateAt), p.validate);
      ValidatedHaveNoDeadline(At(s2, p.validateAt), p.validate);
      hide TickPossible, AwaitsArtp, CompletePossible, SoundPlatform, ApplyAll, ValidateAll;
      CompleteEffect(s3, p.complete);
      assert CompletePossible(s3, p) by { TickCompletes(s, p); }
      CompletionsTail(s3, p, id);
      SoundOne(s3, id);
      OpenedIsBlank(s3.requests[id], s3.market, s3.clock);
    }
  }

  lemma SoundOne(s: Platform, id: RequestId)
    requires SoundPlatform(s) && id in s.requests
    ensures MarketOk(s.market) && Sound(s.requests[id], s.market, s.clock)
  {}

  lemma TickCompletes(s: Platform, p: TickPlan)
    requires TickPossible(s, p) && !s.frozen
    ensures CompletePossible(Validated(s, p), p)
  {}

  lemma ExpiredIsSound(s: Platform, p: TickPlan)
    requires SoundPlatform(s) && TickPossible(s, p) && !s.frozen
    ensures forall x | x in Expired(s, p).requests :: x < Expired(s, p).nextId
    ensures Expired(s, p).requests.Keys == s.requests.Keys
  {
    Stages(s, p);
  }

  lemma EventOpensBlank(s: Platform, e: Event, id: RequestId)
    requires SoundPlatform(s) && Possible(s, e) && id !in s.requests && id in Next(s, e).requests
    ensures Blank(Next(s, e).requests[id])
  {
    hide SoundPlatform, TickPossible, Tick, Perform;
    if e.EngineTicks? {
      TickOpensBlank(s, e.plan, id);
    } else if e.OperatorCall? {
      CallOpensBlank(At(s, e.at), e.caller, e.call, id);
    }
  }

  // ---- Runs ----------------------------------------------------------------------------------

  /** Some event of the run is an accepted call that settles the step. */
  ghost predicate Vouched(s: Platform, run: seq<Event>, id: RequestId, k: nat, step: Step) {
    exists i | 0 <= i < |run| :: Settles(Exec(s, run[..i]), run[i], id, k, step)
  }

  lemma VouchedLonger(s: Platform, run: seq<Event>, id: RequestId, k: nat, step: Step)
    requires run != [] && Vouched(s, run[..|run| - 1], id, k, step)
    ensures Vouched(s, run, id, k, step)
  {
    var front := run[..|run| - 1];
    var i :| 0 <= i < |front| && Settles(Exec(s, front[..i]), front[i], id, k, step);
    assert front[..i] == run[..i] && front[i] == run[i];
  }

  lemma VouchedLast(s: Platform, run: seq<Event>, id: RequestId, k: nat, step: Step)
    requires run != [] && Settles(Exec(s, run[..|run| - 1]), run[|run| - 1], id, k, step)
    ensures Vouched(s, run, id, k, step)
  {}

  ghost predicate RowsVouched(s: Platform, run: seq<Event>, id: RequestId, d: Dossier) {
    && (forall k: nat | ByAction(d, k) :: Vouched(s, run, id, k, d.history[k].step))
    && (d.request.deadline.Some? ==> Vouched(s, run, id, |d.history|, d.request.step))
  }

  lemma BlankIsVouched(s: Platform, run: seq<Event>, id: RequestId, d: Dossier)
    requires Blank(d)
    ensures RowsVouched(s, run, id, d)
  {}

  lemma AccountedIsVouched(s: Platform, run: seq<Event>, id: RequestId, d: Dossier, d': Dossier, settled: bool)
    requires run != [] && RowsVouched(s, run[..|run| - 1], id, d) && Accounted(d, d', settled)
    requires settled ==> Settles(Exec(s, run[..|run| - 1]), run[|run| - 1], id, |d.history|, d.request.step)
    ensures RowsVouched(s, run, id, d')
  {
    hide Vouched, Settles, Exec;
    if settled {
      VouchedLast(s, run, id, |d.history|, d.request.step);
    } else if d.request.deadline.Some? {
      VouchedLonger(s, run, id, |d.history|, d.request.step);
    }
    forall k: nat | ByAction(d', k) ensures Vouched(s, run, id, k, d'.history[k].step) {
      if k < |d.history| {
        assert d'.history[k] == d.history[k] && ByAction(d, k);
        VouchedLonger(s, run, id, k, d.history[k].step);
      }
    }
  }

  lemma {:induction false} RunVouches(s: Platform, run: seq<Event>, id: RequestId)
    requires Initial(s) && PossibleRun(s, run) && id in Exec(s, run).requests
    ensures RowsVouched(s, run, id, Exec(s, run).requests[id])
  {
    if run != [] {
      var front, last := run[..|run| - 1], run[|run| - 1];
      RunKeeps(s, front);
      hide SoundPlatform, QuorumPlatform, Ledger, Spaced, RestitutedOnce, HoldersOk, Next, Possible, Settles,
        RowsVouched, Accounted, Blank, Initial;
      var s1 := Exec(s, front);
      if id in s1.requests {
        RunVouches(s, front, id);
        EventAccounts(s1, last, id);
        var d := s1.requests[id];
        AccountedIsVouched(s, run, id, d, Next(s1, last).requests[id],
            Settles(s1, last, id, |d.history|, d.request.step));
      } else {
        EventOpensBlank(s1, last, id);
        BlankIsVouched(s, run, id, Next(s1, last).requests[id]);
      }
    }
  }

  /** In every run, whoever else calls, whatever the engine does: a row written by an
    action was settled by an accepted call of the owner of that very step (or is the
    creator's cancellation), made while the step was open. The one exception is the
    completion of a REVERSE, which the engine pronounces for the ARTP. */
  lemma OnlyOwnersCloseSteps(s: Platform, run: seq<Event>, s': Platform, id: RequestId, k: nat)
    requires Reaches(s, run, s') && id in s'.requests && k < |s'.requests[id].history|
    requires s'.requests[id].history[k].origin == Action
    requires !(s'.requests[id].request.kind == Reverse && s'.requests[id].history[k].step == Completion)
    ensures exists i | 0 <= i < |run| :: Settles(Exec(s, run[..i]), run[i], id, k, s'.requests[id].history[k].step)
  {
    hide PossibleRun, Initial, Settles, Exec;
    RunVouches(s, run, id);
    assert ByAction(s'.requests[id], k);
  }
}
