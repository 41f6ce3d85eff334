/** Every operation of the platform as a function of the tables: the operator
  calls, the ARTP's acts, the engine's tick and the sandbox purge. An operation
  acts at the instant `clock`; a refused one changes nothing. */
module Operations {
  import opened Entities
  import opened Tables

  // ---- Transitions -----------------------------------------------------

  function ClosedStatus(origin: Origin): StepStatus {
    if origin == Expiration then StepExpired else StepCompleted
  }

  function Rerouted(
    numbers: map<Msisdn, NumberRow>, source: Option<Prefix>, recipient: Option<Prefix>): map<Msisdn, NumberRow>
  {
    map n | n in numbers ::
      var row := numbers[n];
      row.(routing := if row.status == RowRejected || row.exclusion.Some? then source else recipient)
  }

  /** The dossier once its current step is closed. */
  function Advance(m: Market, d: Dossier, origin: Origin, now: Time): Dossier {
    var r := d.request;
    var closed := ClosedStatus(origin);
    var history := d.history + [HistoryRow(r.step, closed, origin, None, r.stepStart, now)];
    if r.step == Completion then
      d.(history := history,
         request := r.(status := RequestCompleted, stepStatus := closed, endedAt := Some(now), deadline := None,
                       routing := if r.kind == Porting then r.routing else RoutingPrefix(m, r.recipient)))
    else
      var ported := r.step == Activation && r.kind == Porting;
      var rerouted := Rerouted(d.numbers, RoutingPrefix(m, r.source), RoutingPrefix(m, r.recipient));
      d.(history := history,
         numbers := if ported then rerouted else d.numbers,
         request := r.(step := NextStep(r.step).value, stepStatus := StepInProgress, stepStart := now, deadline := None,
                       routing := if ported then RoutingPrefix(m, r.recipient) else r.routing))
  }

  /** The numbers that change hands when the current step is closed. */
  function Departing(d: Dossier): set<Msisdn> {
    if d.request.step == Activation && d.request.kind == Porting then set n | n in d.numbers && Active(d, n)
    else if d.request.step == Completion && d.request.kind != Porting then {d.request.msisdn}
    else {}
  }

  function Transfer(
    registry: Registry, departing: set<Msisdn>, recipient: OperatorId, restitution: bool, now: Time): Registry
  {
    map n | n in registry ::
      if n in departing
      then registry[n].(holder := recipient, lastPorting := Some(now),
                        restituted := restitution || registry[n].restituted)
      else registry[n]
  }

  function ApplyTransition(s: Platform, id: RequestId, origin: Origin): Platform {
    if id !in s.requests || !InProgress(s.requests[id]) then s
    else
      var d := s.requests[id];
      s.(requests := s.requests[id := Advance(s.market, d, origin, s.clock)],
         registry := Transfer(s.registry, Departing(d), d.request.recipient, d.request.kind != Porting, s.clock))
  }

  /** The convergence window: closed (the default), or some delay drawn from it. */
  datatype Window = Immediate | Deferred(delay: nat)

  function WithDeadline(d: Dossier, deadline: Time): Dossier {
    d.(request := d.request.(deadline := Some(deadline)))
  }

  function Put(s: Platform, id: RequestId, d: Dossier): Platform {
    s.(requests := s.requests[id := d])
  }

  function ScheduleTransition(s: Platform, id: RequestId, window: Window): Platform {
    match window
    case Immediate => ApplyTransition(s, id, Action)
    case Deferred(delay) =>
      if id in s.requests then Put(s, id, WithDeadline(s.requests[id], s.clock + delay)) else s
  }

  // ---- Acceptance ------------------------------------------------------

  /** Closes the current step on the caller's decision and ends the request. */
  function Ended(d: Dossier, status: RequestStatus, caller: OperatorId, now: Time): Dossier {
    var r := d.request;
    d.(history := d.history + [HistoryRow(r.step, StepCompleted, Action, Some(caller), r.stepStart, now)],
       request := r.(status := status, stepStatus := StepCompleted, endedAt := Some(now)))
  }

  function Reject(d: Dossier, caller: OperatorId, now: Time): Dossier {
    Ended(d, RequestRejected, caller, now)
  }

  predicate ReasonValid(m: Market, reason: Option<ReasonId>) {
    reason.None? || reason.value in m.reasons
  }

  function AcceptFault(
    s: Platform, caller: OperatorId, id: RequestId, accept: bool, reason: Option<ReasonId>): Option<Fault>
  {
    if s.frozen then Some(MarketFrozen)
    else if id !in s.requests then Some(RequestNotFound)
    else if CanAccept(s.requests[id].request, caller).Some? then CanAccept(s.requests[id].request, caller)
    else if !ReasonValid(s.market, reason) then Some(ValidationFailed)
    else if !accept && reason.None? then Some(RejectionReasonRequired)
    else None
  }

  function Accept(
    s: Platform, caller: OperatorId, id: RequestId, accept: bool, reason: Option<ReasonId>, window: Window): Platform
  {
    if AcceptFault(s, caller, id, accept, reason).Some? then s
    else if !accept then Put(s, id, Reject(s.requests[id], caller, s.clock))
    else ScheduleTransition(s, id, window)
  }

  datatype RejectedNumber = RejectedNumber(msisdn: Msisdn, reason: Option<ReasonId>)

  function RejectNumber(d: Dossier, n: Msisdn): Dossier {
    if n in d.numbers then d.(numbers := d.numbers[n := d.numbers[n].(status := RowRejected)]) else d
  }

  function RejectNumbers(d: Dossier, rejected: seq<RejectedNumber>): Dossier {
    if rejected == [] then d
    else RejectNumber(RejectNumbers(d, rejected[..|rejected| - 1]), rejected[|rejected| - 1].msisdn)
  }

  predicate RejectionsValid(m: Market, d: Dossier, rejected: seq<RejectedNumber>) {
    forall x | x in rejected :: x.msisdn in d.numbers && ReasonValid(m, x.reason)
  }

  function AcceptFleetFault(
    s: Platform, caller: OperatorId, id: RequestId, accept: bool, rejected: seq<RejectedNumber>,
    reason: Option<ReasonId>): Option<Fault>
  {
    var f := AcceptFault(s, caller, id, accept, reason);
    if f.Some? then f
    else if accept && !RejectionsValid(s.market, s.requests[id], rejected) then Some(ValidationFailed)
    else None
  }

  function AcceptFleet(
    s: Platform, caller: OperatorId, id: RequestId, accept: bool, rejected: seq<RejectedNumber>,
    reason: Option<ReasonId>,
    window: Window): Platform
  {
    if AcceptFleetFault(s, caller, id, accept, rejected, reason).Some? then s
    else if !accept then Put(s, id, Reject(s.requests[id], caller, s.clock))
    else
      var d := RejectNumbers(s.requests[id], rejected);
      if HasActiveNumber(d) then ScheduleTransition(Put(s, id, d), id, window)
      else Put(s, id, Reject(d, caller, s.clock))
  }

  // ---- Confirmation, processing, cancellation --------------------------

  function ConfirmFault(s: Platform, caller: OperatorId, id: RequestId): Option<Fault> {
    if s.frozen then Some(MarketFrozen)
    else if id !in s.requests then Some(RequestNotFound)
    else
      var d := s.requests[id];
      if !InProgress(d) || d.request.step != Confirmation then Some(InvalidStep)
      else if d.request.deadline.Some? then Some(InvalidStep)
      else if caller !in ExpectedConfirmers(d.request, s.market.operators) then Some(RequestAccessDenied)
      else if caller in d.confirmers then Some(RequestAccessDenied)
      else None
  }

  function Confirmed(d: Dossier, caller: OperatorId): Dossier {
    d.(confirmers := d.confirmers + {caller})
  }

  /** The step is settled on a count alone: as many confirmations as expected
    confirmers. */
  predicate CountReached(d: Dossier, m: Market) {
    |d.confirmers| >= |ExpectedConfirmers(d.request, m.operators)|
  }

  function Confirm(s: Platform, caller: OperatorId, id: RequestId, window: Window): Platform {
    if ConfirmFault(s, caller, id).Some? then s
    else
      var d := Confirmed(s.requests[id], caller);
      if CountReached(d, s.market) then ScheduleTransition(Put(s, id, d), id, window) else Put(s, id, d)
  }

  function ProcessFault(s: Platform, caller: OperatorId, id: RequestId): Option<Fault> {
    if s.frozen then Some(MarketFrozen)
    else if id !in s.requests then Some(RequestNotFound)
    else CanProcess(s.requests[id].request, caller)
  }

  function Process(s: Platform, caller: OperatorId, id: RequestId, window: Window): Platform {
    if ProcessFault(s, caller, id).Some? then s else ScheduleTransition(s, id, window)
  }

  /** Cancel's write, guarded only by the step the caller was authorized against:
    None when no row matches and the transaction rolls back. */
  function CancelWrite(d: Dossier, expected: Step, caller: OperatorId, now: Time): Option<Dossier> {
    if d.request.step != expected then None
    else
      var ended := Ended(d, RequestCancelled, caller, now);
      Some(ended.(request := ended.request.(deadline := None)))
  }

  function CancelFault(s: Platform, caller: OperatorId, id: RequestId): Option<Fault> {
    if id !in s.requests then Some(RequestNotFound)
    else CanCancel(s.requests[id].request, caller)
  }

  function Cancel(s: Platform, caller: OperatorId, id: RequestId): Platform {
    if CancelFault(s, caller, id).Some? then s
    else
      var d := s.requests[id];
      match CancelWrite(d, d.request.step, caller, s.clock)
      case None => s
      case Some(cancelled) => Put(s, id, cancelled)
  }

  // ---- Creation --------------------------------------------------------

  function NewRequest(
    msisdn: Msisdn, subscriber: SubscriberType, kind: RequestType, step: Step, source: OperatorId,
    recipient: OperatorId,
    routing: Option<Prefix>, now: Time): Request
  {
    Request(msisdn, subscriber, kind, RequestInProgress, step, StepInProgress, source, recipient, recipient,
            routing, now, now, None, None)
  }

  function NewDossier(request: Request, numbers: map<Msisdn, NumberRow>): Dossier {
    Dossier(request, numbers, [], {})
  }

  function Insert(s: Platform, d: Dossier): Platform {
    s.(requests := s.requests[s.nextId := d], nextId := s.nextId + 1)
  }

  function CreateIndividualFault(
    s: Platform, caller: OperatorId, msisdn: Msisdn, source: OperatorId, recipient: OperatorId,
    otp: bool): Option<Fault>
  {
    if recipient != caller then Some(RequestAccessDenied)
    else if !otp then Some(OtpInvalid)
    else if msisdn !in s.registry then Some(IncorrectSourceOperator)
    else
      var f := CheckPortingEligibility(State(s, msisdn), source, recipient, s.clock);
      if f.Some? then f
      else if RoutingPrefix(s.market, source).None? then Some(ValidationFailed)
      else None
  }

  function SingleRow(msisdn: Msisdn, routing: Option<Prefix>): map<Msisdn, NumberRow> {
    map[msisdn := NumberRow(RowInProgress, None, 0, routing)]
  }

  function CreateIndividual(
    s: Platform, caller: OperatorId, msisdn: Msisdn, source: OperatorId, recipient: OperatorId, otp: bool): Platform
  {
    if CreateIndividualFault(s, caller, msisdn, source, recipient, otp).Some? then s
    else
      var prefix := RoutingPrefix(s.market, source);
      Insert(s, NewDossier(NewRequest(msisdn, Individual, Porting, Acceptance, source, recipient, prefix, s.clock),
                           SingleRow(msisdn, prefix)))
  }

  datatype ExcludedNumber = ExcludedNumber(msisdn: Msisdn, code: Fault)

  function Deduplicate(numbers: seq<Msisdn>): seq<Msisdn> {
    if numbers == [] then []
    else
      var rest := Deduplicate(numbers[..|numbers| - 1]);
      var last := numbers[|numbers| - 1];
      if last in rest then rest else rest + [last]
  }

  function FleetCheck(s: Platform, n: Msisdn, source: OperatorId, recipient: OperatorId): Option<Fault>
    requires n in s.registry
  {
    CheckPortingEligibility(State(s, n), source, recipient, s.clock)
  }

  predicate AllKnown(s: Platform, numbers: seq<Msisdn>) {
    forall i | 0 <= i < |numbers| :: numbers[i] in s.registry
  }

  predicate SameHolder(s: Platform, numbers: seq<Msisdn>)
    requires AllKnown(s, numbers)
  {
    forall i | 0 <= i < |numbers| :: s.registry[numbers[i]].holder == s.registry[numbers[0]].holder
  }

  function Retained(s: Platform, numbers: seq<Msisdn>, source: OperatorId, recipient: OperatorId): seq<Msisdn>
    requires AllKnown(s, numbers)
  {
    if numbers == [] then []
    else
      var last := numbers[|numbers| - 1];
      var rest := Retained(s, numbers[..|numbers| - 1], source, recipient);
      if FleetCheck(s, last, source, recipient).None? then rest + [last] else rest
  }

  function Excluded(s: Platform, numbers: seq<Msisdn>, source: OperatorId, recipient: OperatorId): seq<ExcludedNumber>
    requires AllKnown(s, numbers)
  {
    if numbers == [] then []
    else
      var last := numbers[|numbers| - 1];
      var rest := Excluded(s, numbers[..|numbers| - 1], source, recipient);
      var f := FleetCheck(s, last, source, recipient);
      if f.None? then rest else rest + [ExcludedNumber(last, f.value)]
  }

  function RetainedRows(retained: seq<Msisdn>, prefix: Option<Prefix>): map<Msisdn, NumberRow> {
    if retained == [] then map[]
    else
      var k := |retained| - 1;
      RetainedRows(retained[..k], prefix)[retained[k] := NumberRow(RowInProgress, None, k, prefix)]
  }

  function FleetRows(
    retained: seq<Msisdn>, excluded: seq<ExcludedNumber>, prefix: Option<Prefix>): map<Msisdn, NumberRow>
  {
    if excluded == [] then RetainedRows(retained, prefix)
    else
      var x := excluded[|excluded| - 1];
      FleetRows(retained, excluded[..|excluded| - 1], prefix)[x.msisdn := NumberRow(RowRejected, Some(x.code), 0, None)]
  }

  function CreateFleetFault(
    s: Platform, caller: OperatorId, source: OperatorId, recipient: OperatorId, numbers: seq<Msisdn>,
    otp: bool): (fault: Option<Fault>)
  {
    var distinct := Deduplicate(numbers);
    if numbers == [] then Some(FleetEmpty)
    else if recipient != caller then Some(RequestAccessDenied)
    else if !otp then Some(OtpInvalid)
    else if !AllKnown(s, distinct) then Some(IncorrectSourceOperator)
    else if !SameHolder(s, distinct) then Some(FleetMixedOperators)
    else if Retained(s, distinct, source, recipient) == [] then Some(NoEligibleNumber)
    else if RoutingPrefix(s.market, source).None? then Some(ValidationFailed)
    else None
  }

  function CreateFleet(
    s: Platform, caller: OperatorId, carrier: Msisdn, source: OperatorId, recipient: OperatorId,
    numbers: seq<Msisdn>, otp: bool): Platform
  {
    if CreateFleetFault(s, caller, source, recipient, numbers, otp).Some? then s
    else
      var distinct := Deduplicate(numbers);
      var prefix := RoutingPrefix(s.market, source);
      var rows := FleetRows(Retained(s, distinct, source, recipient), Excluded(s, distinct, source, recipient), prefix);
      Insert(s, NewDossier(NewRequest(carrier, Enterprise, Porting, Acceptance, source, recipient, prefix, s.clock),
          rows))
  }

  function CreateRestitutionFault(s: Platform, caller: OperatorId, msisdn: Msisdn): Option<Fault> {
    if msisdn !in s.registry then Some(IncorrectSourceOperator)
    else if s.registry[msisdn].origin != caller then Some(RequestAccessDenied)
    else CheckRestitutionEligibility(State(s, msisdn), s.clock)
  }

  function CreateRestitution(s: Platform, caller: OperatorId, msisdn: Msisdn): Platform {
    if CreateRestitutionFault(s, caller, msisdn).Some? then s
    else
      var e := s.registry[msisdn];
      Insert(s, NewDossier(NewRequest(msisdn, Individual, Restitution, Acceptance, e.holder, e.origin, None, s.clock),
                           SingleRow(msisdn, None)))
  }

  // ---- Reverse requests ------------------------------------------------

  function SubmitReverseFault(s: Platform, caller: OperatorId, msisdn: Msisdn): Option<Fault> {
    if msisdn !in s.registry then Some(IncorrectSourceOperator)
    else if s.registry[msisdn].origin != caller then Some(RequestAccessDenied)
    else if s.registry[msisdn].holder == s.registry[msisdn].origin then Some(NumberNotPorted)
    else None
  }

  function SubmitReverse(s: Platform, caller: OperatorId, msisdn: Msisdn): Platform {
    if SubmitReverseFault(s, caller, msisdn).Some? then s
    else s.(reverses := s.reverses[s.nextId := ReverseRequest(msisdn, caller, ReversePending, s.clock, None)],
            nextId := s.nextId + 1)
  }

  predicate CanValidate(s: Platform, reverseId: RequestId) {
    && reverseId in s.reverses
    && s.reverses[reverseId].status == ReversePending
    && s.reverses[reverseId].msisdn in s.registry
  }

  /** The ARTP's approval opens a REVERSE request directly at CONFIRMATION. */
  function ValidateReverse(s: Platform, reverseId: RequestId): Platform {
    if !CanValidate(s, reverseId) then s
    else
      var rr := s.reverses[reverseId];
      var r := NewRequest(rr.msisdn, Individual, Reverse, Confirmation, s.registry[rr.msisdn].holder, rr.operator,
          None, s.clock);
      var s' := Insert(s, NewDossier(r, SingleRow(rr.msisdn, None)));
      s'.(reverses := s.reverses[reverseId := rr.(status := ReverseValidated, request := Some(s.nextId))])
  }

  function RejectReverse(s: Platform, reverseId: RequestId): Platform {
    if reverseId in s.reverses && s.reverses[reverseId].status == ReversePending
    then s.(reverses := s.reverses[reverseId := s.reverses[reverseId].(status := ReverseRejected)])
    else s
  }

  // ---- The sandbox purge -----------------------------------------------

  function RequestsToPurge(s: Platform, caller: OperatorId): set<RequestId> {
    set id | id in s.requests && s.requests[id].request.creator == caller
  }

  function NumbersToRestore(s: Platform, ids: set<RequestId>): set<Msisdn> {
    (set id | id in ids && id in s.requests :: s.requests[id].request.msisdn)
    + (set id, n | id in ids && id in s.requests && n in s.requests[id].numbers :: n)
  }

  function Restored(registry: Registry, numbers: set<Msisdn>): Registry {
    map n | n in registry ::
      if n in numbers then RegistryEntry(registry[n].origin, registry[n].origin, None, false) else registry[n]
  }

  predicate ReversePurged(rr: ReverseRequest, caller: OperatorId, ids: set<RequestId>) {
    rr.operator == caller || (rr.request.Some? && rr.request.value in ids)
  }

  function Purge(s: Platform, caller: OperatorId): Platform {
    var ids := RequestsToPurge(s, caller);
    s.(requests := map id | id in s.requests && id !in ids :: s.requests[id],
       reverses := map rid | rid in s.reverses && !ReversePurged(s.reverses[rid], caller, ids) :: s.reverses[rid],
       registry := Restored(s.registry, NumbersToRestore(s, ids)))
  }

  // ---- The engine's tick -----------------------------------------------

  function At(s: Platform, now: Time): Platform {
    s.(clock := now)
  }

  /** One transition of a pass: which row, and the instant it was applied. */
  datatype Job = Job(id: RequestId, at: Time)

  /** A completion of a REVERSE: from CONFIRMATION two transitions are played. */
  datatype CompletionJob = CompletionJob(id: RequestId, fromConfirmation: bool, first: Time, second: Time)

  function ApplyAll(s: Platform, jobs: seq<Job>, origin: Origin): (s': Platform)
    ensures s'.requests.Keys == s.requests.Keys
  {
    if jobs == [] then s
    else
      var j := jobs[|jobs| - 1];
      ApplyTransition(At(ApplyAll(s, jobs[..|jobs| - 1], origin), j.at), j.id, origin)
  }

  function ValidateAll(s: Platform, jobs: seq<Job>): Platform {
    if jobs == [] then s
    else
      var j := jobs[|jobs| - 1];
      ValidateReverse(At(ValidateAll(s, jobs[..|jobs| - 1]), j.at), j.id)
  }

  function CompleteOne(s: Platform, j: CompletionJob): Platform {
    var s1 := if j.fromConfirmation then ApplyTransition(At(s, j.first), j.id, Action) else s;
    ApplyTransition(At(s1, j.second), j.id, Action)
  }

  function CompleteAll(s: Platform, jobs: seq<CompletionJob>): Platform {
    if jobs == [] then s else CompleteOne(CompleteAll(s, jobs[..|jobs| - 1]), jobs[|jobs| - 1])
  }

  /** Everything a tick leaves open: its configuration, the instants it read and
    the order in which the database answered its four queries. */
  datatype TickPlan = TickPlan(
    timeout: Time, autoValidation: Time,
    start: Time, dueAt: Time, validateAt: Time,
    converge: seq<Job>, expire: seq<Job>, validate: seq<Job>, complete: seq<CompletionJob>)

  function Converged(s: Platform, p: TickPlan): Platform {
    ApplyAll(At(s, p.dueAt), p.converge, Action)
  }

  function Expired(s: Platform, p: TickPlan): Platform {
    ApplyAll(Converged(s, p), p.expire, Expiration)
  }

  function Validated(s: Platform, p: TickPlan): Platform {
    ValidateAll(At(Expired(s, p), p.validateAt), p.validate)
  }

  function Tick(s: Platform, p: TickPlan): Platform {
    if s.frozen then At(s, p.start) else CompleteAll(Validated(s, p), p.complete)
  }

  predicate InOrder(from: Time, jobs: seq<Job>) {
    && (forall i | 0 <= i < |jobs| :: from <= jobs[i].at)
    && (forall i, j | 0 <= i < j < |jobs| :: jobs[i].at <= jobs[j].at)
  }

  predicate CompletionsInOrder(from: Time, jobs: seq<CompletionJob>) {
    && (forall i | 0 <= i < |jobs| :: from <= jobs[i].first <= jobs[i].second)
    && (forall i, j | 0 <= i < j < |jobs| :: jobs[i].second <= jobs[j].first)
  }

  predicate Enumerates(jobs: seq<Job>, ids: set<RequestId>) {
    && (forall i | 0 <= i < |jobs| :: jobs[i].id in ids)
    && (forall i, j | 0 <= i < j < |jobs| :: jobs[i].id != jobs[j].id)
    && (forall id | id in ids :: exists i | 0 <= i < |jobs| :: jobs[i].id == id)
  }

  predicate EnumeratesCompletions(jobs: seq<CompletionJob>, s: Platform) {
    && (forall i | 0 <= i < |jobs| :: jobs[i].id in PendingReverseCompletions(s)
          && (jobs[i].fromConfirmation <==> s.requests[jobs[i].id].request.step == Confirmation))
    && (forall i, j | 0 <= i < j < |jobs| :: jobs[i].id != jobs[j].id)
    && (forall id | id in PendingReverseCompletions(s) :: exists i | 0 <= i < |jobs| :: jobs[i].id == id)
  }

  ghost predicate ConvergePossible(s: Platform, p: TickPlan) {
    s.clock <= p.start <= p.dueAt && InOrder(p.dueAt, p.converge) && Enumerates(p.converge, DueConvergences(s, p.dueAt))
  }

  ghost predicate ExpirePossible(s: Platform, p: TickPlan) {
    && InOrder(s.clock, p.expire)
    && Enumerates(p.expire, if p.timeout <= 0 then {} else OverdueSteps(s, p.timeout, p.start))
  }

  ghost predicate ValidatePossible(s: Platform, p: TickPlan) {
    && s.clock <= p.validateAt && InOrder(p.validateAt, p.validate)
    && Enumerates(p.validate,
        if p.autoValidation <= 0 then {} else OverdueForAutoValidation(s, p.autoValidation, p.validateAt))
  }

  ghost predicate CompletePossible(s: Platform, p: TickPlan) {
    CompletionsInOrder(s.clock, p.complete) && EnumeratesCompletions(p.complete, s)
  }

  /** The plans a tick can follow from a state: every pass handles exactly the
    rows its query answers, once each, at instants that never go back. */
  ghost predicate TickPossible(s: Platform, p: TickPlan) {
    && s.clock <= p.start
    && (!s.frozen ==>
          && ConvergePossible(s, p)
          && ExpirePossible(Converged(s, p), p)
          && ValidatePossible(Expired(s, p), p)
          && CompletePossible(Validated(s, p), p))
  }

  // ---- Runs ------------------------------------------------------------

  datatype Call =
    | CreateIndividualCall(msisdn: Msisdn, source: OperatorId, recipient: OperatorId, otp: bool)
    | CreateFleetCall(carrier: Msisdn, source: OperatorId, recipient: OperatorId, numbers: seq<Msisdn>, otp: bool)
    | CreateRestitutionCall(msisdn: Msisdn)
    | AcceptCall(id: RequestId, accept: bool, reason: Option<ReasonId>, window: Window)
    | AcceptFleetCall(id: RequestId, accept: bool, rejected: seq<RejectedNumber>, reason: Option<ReasonId>,
        window: Window)
    | ConfirmCall(id: RequestId, window: Window)
    | ProcessCall(id: RequestId, window: Window)
    | CancelCall(id: RequestId)
    | SubmitReverseCall(msisdn: Msisdn)
    | PurgeCall

  datatype Event =
    | OperatorCall(caller: OperatorId, at: Time, call: Call)
    | ArtpValidates(at: Time, reverseId: RequestId)
    | ArtpRejects(at: Time, reverseId: RequestId)
    | IncidentChanges(at: Time, frozen: bool)
    | EngineTicks(plan: TickPlan)

  function Perform(s: Platform, caller: OperatorId, call: Call): Platform {
    match call
    case CreateIndividualCall(n, source, recipient, otp) => CreateIndividual(s, caller, n, source, recipient, otp)
    case CreateFleetCall(carrier, source, recipient, numbers, otp) =>
      CreateFleet(s, caller, carrier, source, recipient, numbers, otp)
    case CreateRestitutionCall(n) => CreateRestitution(s, caller, n)
    case AcceptCall(id, accept, reason, window) => Accept(s, caller, id, accept, reason, window)
    case AcceptFleetCall(id, accept, rejected, reason, window) =>
      AcceptFleet(s, caller, id, accept, rejected, reason, window)
    case ConfirmCall(id, window) => Confirm(s, caller, id, window)
    case ProcessCall(id, window) => Process(s, caller, id, window)
    case CancelCall(id) => Cancel(s, caller, id)
    case SubmitReverseCall(n) => SubmitReverse(s, caller, n)
    case PurgeCall => Purge(s, caller)
  }

  function Next(s: Platform, e: Event): Platform {
    match e
    case OperatorCall(caller, at, call) => Perform(At(s, at), caller, call)
    case ArtpValidates(at, rid) => ValidateReverse(At(s, at), rid)
    case ArtpRejects(at, rid) => RejectReverse(At(s, at), rid)
    case IncidentChanges(at, frozen) => At(s, at).(frozen := frozen)
    case EngineTicks(plan) => Tick(s, plan)
  }

  /** Time never goes back, callers hold an account of an operator of the market,
    and a tick follows what its queries answer. Nothing else limits a run. */
  ghost predicate Possible(s: Platform, e: Event) {
    match e
    case OperatorCall(caller, at, _) => s.clock <= at && caller in s.market.prefixes
    case ArtpValidates(at, _) => s.clock <= at
    case ArtpRejects(at, _) => s.clock <= at
    case IncidentChanges(at, _) => s.clock <= at
    case EngineTicks(plan) => TickPossible(s, plan)
  }

  function Exec(s: Platform, run: seq<Event>): Platform {
    if run == [] then s else Next(Exec(s, run[..|run| - 1]), run[|run| - 1])
  }

  ghost predicate PossibleRun(s: Platform, run: seq<Event>) {
    run == [] || (PossibleRun(s, run[..|run| - 1]) && Possible(Exec(s, run[..|run| - 1]), run[|run| - 1]))
  }

  predicate PurgeFree(run: seq<Event>) {
    forall e | e in run :: !(e.OperatorCall? && e.call.PurgeCall?)
  }
}
