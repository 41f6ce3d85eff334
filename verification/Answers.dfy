/** What a call on an existing request answers and what it writes, said of the request's
  row, its history and its numbers: the cause of every refusal, and the whole effect when
  nothing refuses it. */
module Answers {
  import opened Entities
  import opened Tables
  import opened Operations
  import opened Lifecycle
  import opened Invariants

  // ---- The words of the effects ----------------------------------------------------------

  /** Nothing but this request, and the clock, has changed. */
  ghost predicate OnlyRequest(s: Platform, s': Platform, at: Time, id: RequestId) {
    && id in s.requests && s'.requests.Keys == s.requests.Keys
    && (forall x | x in s.requests && x != id :: s'.requests[x] == s.requests[x])
    && s'.clock == at && s'.market == s.market && s'.frozen == s.frozen && s'.nextId == s.nextId
    && s'.reverses == s.reverses
  }

  /** The row that closes the current step. */
  function ClosingRow(r: Request, operator: Option<OperatorId>, at: Time): HistoryRow {
    HistoryRow(r.step, StepCompleted, Action, operator, r.stepStart, at)
  }

  /** The step that opens when this one is settled. */
  function FollowingStep(step: Step): Step {
    match step
    case Acceptance => Deactivation
    case Deactivation => Activation
    case Activation => Confirmation
    case _ => Completion
  }

  /** The step was settled at once: the next one is open, or the request has ended. */
  ghost predicate Settled(d: Dossier, d': Dossier, at: Time) {
    && d'.history == d.history + [ClosingRow(d.request, None, at)] && d'.confirmers == d.confirmers
    && d'.request.(routing := None) ==
         if d.request.step == Completion
         then d.request.(status := RequestCompleted, stepStatus := StepCompleted, endedAt := Some(at), deadline := None,
                         routing := None)
         else d.request.(step := FollowingStep(d.request.step), stepStatus := StepInProgress, stepStart := at,
                         deadline := None, routing := None)
  }

  /** The step waits: only the deadline was set. */
  ghost predicate Waits(d: Dossier, d': Dossier, until: Time) {
    d' == d.(request := d.request.(deadline := Some(until)))
  }

  /** Settled at once under a closed window, waiting under an open one. */
  ghost predicate Scheduled(d: Dossier, d': Dossier, at: Time, window: Window) {
    match window
    case Immediate => Settled(d, d', at)
    case Deferred(delay) => Waits(d, d', at + delay)
  }

  /** The request ended on the caller's decision. */
  ghost predicate EndedBy(d: Dossier, d': Dossier, status: RequestStatus, caller: OperatorId, at: Time) {
    && d'.history == d.history + [ClosingRow(d.request, Some(caller), at)] && d'.confirmers == d.confirmers
    && d'.request == d.request.(status := status, stepStatus := StepCompleted, endedAt := Some(at), deadline := None)
  }

  lemma SchedulingScheduled(s: Platform, id: RequestId, window: Window)
    requires id in s.requests && s.requests[id].request.status == RequestInProgress
    ensures var s' := ScheduleTransition(s, id, window);
      && OnlyRequest(s, s', s.clock, id) && Scheduled(s.requests[id], s'.requests[id], s.clock, window)
      && (s.requests[id].request.step == Acceptance ==>
            s'.registry == s.registry && s'.requests[id].numbers == s.requests[id].numbers)
  {
    if s.requests[id].request.step == Acceptance {
      NothingDeparts(s, id);
    }
    hide Transfer, Rerouted;
  }

  lemma NothingDeparts(s: Platform, id: RequestId)
    requires id in s.requests && s.requests[id].request.step == Acceptance
    ensures forall to, restitution, now ::
        Transfer(s.registry, Departing(s.requests[id]), to, restitution, now) == s.registry
  {}

  // ---- Accepting and refusing --------------------------------------------------------------

  /** The source may answer: the request is in progress at ACCEPTATION, nothing pending. */
  predicate Answerable(r: Request) {
    r.status == RequestInProgress && r.step == Acceptance && r.deadline == None
  }

  predicate KnownReason(m: Market, reason: Option<ReasonId>) {
    reason.Some? ==> reason.value in m.reasons
  }

  /** Accepting or refusing a request: what each answer means. */
  lemma AcceptanceAnswers(
    s: Platform, at: Time, caller: OperatorId, id: RequestId, accept: bool, reason: Option<ReasonId>)
    ensures var f := AcceptFault(At(s, at), caller, id, accept, reason);
      var found := !s.frozen && id in s.requests;
      var open := found && Answerable(s.requests[id].request);
      var mine := open && caller == s.requests[id].request.source;
      && (f == Some(MarketFrozen) <==> s.frozen)
      && (f == Some(RequestNotFound) <==> !s.frozen && id !in s.requests)
      && (f == Some(InvalidStep) <==> found && !open)
      && (f == Some(RequestAccessDenied) <==> open && !mine)
      && (f == Some(ValidationFailed) <==> mine && !KnownReason(s.market, reason))
      && (f == Some(RejectionReasonRequired) <==> mine && !accept && reason == None)
      && (f == None <==> mine && KnownReason(s.market, reason) && (accept || reason.Some?))
  {}

  /** An accepted answer. Yes: the transition is scheduled, the numbers and the registry do
    not move. No: the request is REJETE, with one row more, the caller's. */
  lemma AcceptanceWrites(
    s: Platform, at: Time, caller: OperatorId, id: RequestId, accept: bool, reason: Option<ReasonId>, window: Window)
    ensures var s' := Next(s, OperatorCall(caller, at, AcceptCall(id, accept, reason, window)));
      if AcceptFault(At(s, at), caller, id, accept, reason) == None then
        && OnlyRequest(s, s', at, id) && s'.registry == s.registry
        && s'.requests[id].numbers == s.requests[id].numbers
        && (if accept then Scheduled(s.requests[id], s'.requests[id], at, window)
            else EndedBy(s.requests[id], s'.requests[id], RequestRejected, caller, at))
      else s' == At(s, at)
  {
    AcceptanceAnswers(s, at, caller, id, accept, reason);
    if AcceptFault(At(s, at), caller, id, accept, reason) == None && accept {
      SchedulingScheduled(At(s, at), id, window);
    }
    hide ScheduleTransition, AcceptFault, Scheduled;
  }

  /** A fleet's acceptance is refused for the same causes, or for a number that is not the
    request's or a reason unknown. */
  lemma FleetAcceptanceAnswers(
    s: Platform, at: Time, caller: OperatorId, id: RequestId, accept: bool, rejected: seq<RejectedNumber>,
    reason: Option<ReasonId>)
    ensures var f, g := AcceptFleetFault(At(s, at), caller, id, accept, rejected, reason),
                        AcceptFault(At(s, at), caller, id, accept, reason);
      && (g != None ==> f == g)
      && (g == None ==> id in s.requests)
      && (g == None ==> f == if accept && exists x | x in rejected ::
                                  x.msisdn !in s.requests[id].numbers || !KnownReason(s.market, x.reason)
                             then Some(ValidationFailed) else None)
  {}

  /** The number is on the list of rejections. */
  predicate Listed(rejected: seq<RejectedNumber>, n: Msisdn) {
    exists x | x in rejected :: x.msisdn == n
  }

  /** Some number neither rejected before nor listed now. */
  ghost predicate SomeNumberLeft(d: Dossier, rejected: seq<RejectedNumber>) {
    exists n :: n in d.numbers && d.numbers[n].status == RowInProgress && !Listed(rejected, n)
  }

  lemma RejectionsMark(d: Dossier, rejected: seq<RejectedNumber>)
    ensures var d' := RejectNumbers(d, rejected);
      && d'.request == d.request && d'.history == d.history && d'.confirmers == d.confirmers
      && d'.numbers.Keys == d.numbers.Keys
      && (forall n | n in d.numbers :: d'.numbers[n] ==
            d.numbers[n].(status := if Listed(rejected, n) then RowRejected else d.numbers[n].status))
      && (HasActiveNumber(d') <==> SomeNumberLeft(d, rejected))
  {
    RejectNumbersEffect(d, rejected);
    var d' := RejectNumbers(d, rejected);
    hide RejectNumbers;
    assert forall n | n in d.numbers :: d'.numbers[n].status ==
             if Listed(rejected, n) then RowRejected else d.numbers[n].status;
    if SomeNumberLeft(d, rejected) {
      var n :| n in d.numbers && d.numbers[n].status == RowInProgress && !Listed(rejected, n);
      assert n in d'.numbers && d'.numbers[n].status != RowRejected;
    }
    if HasActiveNumber(d') {
      var n :| n in d'.numbers && d'.numbers[n].status != RowRejected;
      assert d.numbers[n].status == RowInProgress && !Listed(rejected, n);
    }
  }

  /** An accepted answer on a fleet. No: REJETE as a whole. Yes: the listed numbers are
    rejected and no other; if one is left the transition is scheduled for it, otherwise the
    request is REJETE with one row more, the caller's. */
  lemma FleetAcceptanceWrites(
    s: Platform, at: Time, caller: OperatorId, id: RequestId, accept: bool, rejected: seq<RejectedNumber>,
    reason: Option<ReasonId>, window: Window)
    ensures var s' := Next(s, OperatorCall(caller, at, AcceptFleetCall(id, accept, rejected, reason, window)));
      if AcceptFleetFault(At(s, at), caller, id, accept, rejected, reason) == None then
        && OnlyRequest(s, s', at, id) && s'.registry == s.registry
        && var d, d' := s.requests[id], s'.requests[id];
           && d'.numbers.Keys == d.numbers.Keys
           && (forall n | n in d.numbers :: d'.numbers[n] ==
                 d.numbers[n].(status := if accept && Listed(rejected, n) then RowRejected else d.numbers[n].status))
           && (if accept && SomeNumberLeft(d, rejected)
               then Scheduled(d.(numbers := d'.numbers), d', at, window)
               else EndedBy(d, d', RequestRejected, caller, at))
      else s' == At(s, at)
  {
    hide RejectNumbers, HasActiveNumber, SomeNumberLeft, AcceptFleetFault, AcceptFault, ScheduleTransition, Scheduled,
      Listed;
    AcceptanceAnswers(s, at, caller, id, accept, reason);
    FleetAcceptanceAnswers(s, at, caller, id, accept, rejected, reason);
    if AcceptFleetFault(At(s, at), caller, id, accept, rejected, reason) == None {
      var d := s.requests[id];
      RejectionsMark(d, rejected);
      var d1 := RejectNumbers(d, rejected);
      if accept && SomeNumberLeft(d, rejected) {
        SchedulingScheduled(Put(At(s, at), id, d1), id, window);
        SameWithNumbers(d, d1);
      }
    }
  }

  lemma SameWithNumbers(d: Dossier, d1: Dossier)
    requires d1.request == d.request && d1.history == d.history && d1.confirmers == d.confirmers
    ensures d1 == d.(numbers := d1.numbers)
  {}

  // ---- Processing ------------------------------------------------------------------------------

  /** The step is processed by this operator: the source deactivates, the recipient
    activates and completes, and nobody completes a REVERSE. */
  predicate Processes(r: Request, operator: OperatorId) {
    || (r.step == Deactivation && operator == r.source)
    || (r.step == Activation && operator == r.recipient)
    || (r.step == Completion && r.kind != Reverse && operator == r.recipient)
  }

  /** Processing a step: what each answer means. */
  lemma ProcessingAnswers(s: Platform, at: Time, caller: OperatorId, id: RequestId)
    ensures var f := ProcessFault(At(s, at), caller, id);
      && (f == Some(MarketFrozen) <==> s.frozen)
      && (f == Some(RequestNotFound) <==> !s.frozen && id !in s.requests)
      && (!s.frozen && id in s.requests ==>
            var r := s.requests[id].request;
            var artp := r.step == Completion && r.kind == Reverse;
            var open := r.status == RequestInProgress && r.deadline == None && r.step != Acceptance
                && r.step != Confirmation;
            && (f == Some(RequestAccessDenied) <==> artp || (open && !Processes(r, caller)))
            && (f == Some(InvalidStep) <==> !artp && !open)
            && (f == None <==> open && Processes(r, caller)))
      && (f != None ==> f.value in [MarketFrozen, RequestNotFound, RequestAccessDenied, InvalidStep])
  {}

  /** What a settled step does to the registry: ACTIVATION of a porting gives its active
    numbers to the recipient, COMPLETION of the others gives the number to the recipient
    for good; nothing else changes an entry. */
  ghost predicate Registered(d: Dossier, before: Registry, after: Registry, at: Time) {
    && after.Keys == before.Keys
    && forall n | n in before :: after[n] ==
         if d.request.kind == Porting && d.request.step == Activation && n in d.numbers
            && d.numbers[n].exclusion == None && d.numbers[n].status == RowInProgress
         then before[n].(holder := d.request.recipient, lastPorting := Some(at))
         else if d.request.kind != Porting && d.request.step == Completion && n == d.request.msisdn
         then before[n].(holder := d.request.recipient, lastPorting := Some(at), restituted := true)
         else before[n]
  }

  lemma TransitionRegisters(s: Platform, id: RequestId, origin: Origin)
    requires id in s.requests && s.requests[id].request.status == RequestInProgress
    ensures Registered(s.requests[id], s.registry, ApplyTransition(s, id, origin).registry, s.clock)
  {
    hide Advance;
  }

  /** An accepted processing schedules the transition; a refused one changes nothing. */
  lemma ProcessingWrites(s: Platform, at: Time, caller: OperatorId, id: RequestId, window: Window)
    ensures var s' := Next(s, OperatorCall(caller, at, ProcessCall(id, window)));
      if ProcessFault(At(s, at), caller, id) == None then
        && OnlyRequest(s, s', at, id) && Scheduled(s.requests[id], s'.requests[id], at, window)
        && (if window == Immediate then Registered(s.requests[id], s.registry, s'.registry, at)
            else s'.registry == s.registry)
      else s' == At(s, at)
  {
    ProcessingAnswers(s, at, caller, id);
    if ProcessFault(At(s, at), caller, id) == None {
      SchedulingScheduled(At(s, at), id, window);
      SchedulingRegisters(At(s, at), id, window);
    }
    hide ScheduleTransition, ProcessFault, Scheduled, Registered;
  }

  lemma SchedulingRegisters(s: Platform, id: RequestId, window: Window)
    requires id in s.requests && s.requests[id].request.status == RequestInProgress
    ensures var s' := ScheduleTransition(s, id, window);
      if window == Immediate then Registered(s.requests[id], s.registry, s'.registry, s.clock)
      else s'.registry == s.registry
  {
    hide ApplyTransition;
    TransitionRegisters(s, id, Action);
  }

  // ---- Confirming --------------------------------------------------------------------------------

  /** The operator must confirm: everybody, but the recipient of a porting. */
  predicate MustConfirm(r: Request, m: Market, operator: OperatorId) {
    operator in m.operators && !(r.kind == Porting && operator == r.recipient)
  }

  /** Confirming: what each answer means. */
  lemma ConfirmationAnswers(s: Platform, at: Time, caller: OperatorId, id: RequestId)
    ensures var f := ConfirmFault(At(s, at), caller, id);
      && (f == Some(MarketFrozen) <==> s.frozen)
      && (f == Some(RequestNotFound) <==> !s.frozen && id !in s.requests)
      && (!s.frozen && id in s.requests ==>
            var r := s.requests[id].request;
            var open := r.status == RequestInProgress && r.step == Confirmation && r.deadline == None;
            var awaited := MustConfirm(r, s.market, caller) && caller !in s.requests[id].confirmers;
            && (f == Some(InvalidStep) <==> !open)
            && (f == Some(RequestAccessDenied) <==> open && !awaited)
            && (f == None <==> open && awaited))
      && (f != None ==> f.value in [MarketFrozen, RequestNotFound, RequestAccessDenied, InvalidStep])
  {
    if id in s.requests {
      ExpectedIsFilter(s.requests[id].request, s.market.operators);
    }
  }

  /** Everybody who must confirm has confirmed. */
  ghost predicate AllConfirmed(d: Dossier, m: Market) {
    forall op :: op in d.confirmers <==> MustConfirm(d.request, m, op)
  }

  lemma AllConfirmedIsCounted(d: Dossier, m: Market)
    requires MarketOk(m) && QuorumHistory(d, m)
    ensures CountReached(d, m) <==> AllConfirmed(d, m)
  {
    CountIsCoverage(d, m);
    ExpectedIsFilter(d.request, m.operators);
    if AllConfirmed(d, m) {
      CoveredByAll(d, m);
    }
  }

  lemma CoveredByAll(d: Dossier, m: Market)
    requires forall op :: op in d.confirmers <==> op in ExpectedConfirmers(d.request, m.operators)
    ensures Covered(d, m)
  {
    assert forall op :: op in d.confirmers <==> op in ExpectedSet(d, m);
  }

  /** An accepted confirmation adds the caller; if that makes everybody, the step is
    scheduled to close, otherwise nothing else changes. */
  lemma ConfirmationWrites(s: Platform, at: Time, caller: OperatorId, id: RequestId, window: Window)
    requires SoundPlatform(s) && QuorumPlatform(s)
    ensures var s' := Next(s, OperatorCall(caller, at, ConfirmCall(id, window)));
      if ConfirmFault(At(s, at), caller, id) == None then
        && OnlyRequest(s, s', at, id) && s'.registry == s.registry
        && var d := s.requests[id].(confirmers := s.requests[id].confirmers + {caller});
           if AllConfirmed(d, s.market) then Scheduled(d, s'.requests[id], at, window) else s'.requests[id] == d
      else s' == At(s, at)
  {
    hide ScheduleTransition, Scheduled, CountReached, AllConfirmed, SoundPlatform, QuorumPlatform, ExpectedConfirmers,
      ConfirmFault;
    ConfirmationAnswers(s, at, caller, id);
    if ConfirmFault(At(s, at), caller, id) == None {
      var d := Confirmed(s.requests[id], caller);
      ConfirmedIsCounted(s, at, caller, id);
      SchedulingScheduled(Put(At(s, at), id, d), id, window);
      ConfirmationMovesNothing(Put(At(s, at), id, d), id, window);
    }
  }

  lemma ConfirmedIsCounted(s: Platform, at: Time, caller: OperatorId, id: RequestId)
    requires SoundPlatform(s) && QuorumPlatform(s) && ConfirmFault(At(s, at), caller, id) == None
    ensures var d := Confirmed(s.requests[id], caller);
      CountReached(d, s.market) <==> AllConfirmed(d, s.market)
  {
    assert QuorumOk(s.requests[id], s.market) && Sound(s.requests[id], s.market, s.clock);
    ConfirmedHistory(s.requests[id], s.market, caller);
    hide SoundPlatform, QuorumPlatform;
    AllConfirmedIsCounted(Confirmed(s.requests[id], caller), s.market);
  }

  lemma ConfirmationMovesNothing(s: Platform, id: RequestId, window: Window)
    requires id in s.requests && s.requests[id].request.step == Confirmation
    ensures ScheduleTransition(s, id, window).registry == s.registry
  {
    assert Departing(s.requests[id]) == {};
    assert forall to, restitution, now :: Transfer(s.registry, {}, to, restitution, now) == s.registry;
  }

  // ---- Cancelling ----------------------------------------------------------------------------------

  /** Cancelling: what each answer means. Neither a freeze nor a pending deadline refuses
    it. */
  lemma CancellationAnswers(s: Platform, at: Time, caller: OperatorId, id: RequestId)
    ensures var f := CancelFault(At(s, at), caller, id);
      && (f == Some(RequestNotFound) <==> id !in s.requests)
      && (id in s.requests ==>
            var r := s.requests[id].request;
            var open := r.status == RequestInProgress && r.step == Acceptance;
            && (f == Some(RequestAccessDenied) <==> caller != r.creator)
            && (f == Some(InvalidStep) <==> caller == r.creator && !open)
            && (f == None <==> caller == r.creator && open))
  {}

  /** An accepted cancellation: the request is ANNULE, with one row more, the caller's, and
    nothing pending. */
  lemma CancellationWrites(s: Platform, at: Time, caller: OperatorId, id: RequestId)
    ensures var s' := Next(s, OperatorCall(caller, at, CancelCall(id)));
      if CancelFault(At(s, at), caller, id) == None then
        && OnlyRequest(s, s', at, id) && s'.registry == s.registry
        && s'.requests[id].numbers == s.requests[id].numbers
        && EndedBy(s.requests[id], s'.requests[id], RequestCancelled, caller, at)
      else s' == At(s, at)
  {}

  // ---- The freeze ------------------------------------------------------------------------------------

  /** Declaring or resolving an incident changes the flag and nothing else. */
  lemma IncidentWrites(s: Platform, at: Time, frozen: bool)
    ensures Next(s, IncidentChanges(at, frozen)) == s.(clock := at, frozen := frozen)
  {}
}
