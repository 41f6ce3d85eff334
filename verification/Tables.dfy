/** The tables of the platform as values. A request's number rows, history and
  confirmations are deleted with it (ON DELETE CASCADE), so they are kept with
  the request in one dossier. */
module Tables {
  import opened Entities

  datatype RowStatus = RowInProgress | RowRejected

  /** A number of a request; `exclusion` holds the code of a number left out at
    creation, and is None for a number that was retained. */
  datatype NumberRow = NumberRow(status: RowStatus, exclusion: Option<Fault>, position: int, routing: Option<Prefix>)

  datatype HistoryRow = HistoryRow(
    step: Step, status: StepStatus, origin: Origin, operator: Option<OperatorId>, start: Time, end: Time)

  datatype Dossier = Dossier(
    request: Request,
    numbers: map<Msisdn, NumberRow>,
    history: seq<HistoryRow>,
    confirmers: set<OperatorId>)

  datatype RegistryEntry = RegistryEntry(
    holder: OperatorId, origin: OperatorId, lastPorting: Option<Time>, restituted: bool)

  type Registry = map<Msisdn, RegistryEntry>

  datatype ReverseStatus = ReversePending | ReverseValidated | ReverseRejected

  datatype ReverseRequest = ReverseRequest(
    msisdn: Msisdn, operator: OperatorId, status: ReverseStatus, requestedAt: Time, request: Option<RequestId>)

  /** The reference tables, which no operation changes. */
  datatype Market = Market(
    operators: seq<OperatorId>, prefixes: map<OperatorId, Prefix>, reasons: set<ReasonId>)

  datatype Platform = Platform(
    market: Market,
    clock: Time,
    nextId: int,
    frozen: bool,
    requests: map<RequestId, Dossier>,
    registry: Registry,
    reverses: map<RequestId, ReverseRequest>)

  // ---- Queries ---------------------------------------------------------

  function RoutingPrefix(m: Market, operator: OperatorId): Option<Prefix> {
    if operator in m.prefixes then Some(m.prefixes[operator]) else None
  }

  predicate InProgress(d: Dossier) {
    d.request.status == RequestInProgress
  }

  /** Neither excluded at creation nor rejected at acceptance: the rows that
    TransferToRegistry moves and that State counts. */
  predicate Active(d: Dossier, n: Msisdn) {
    n in d.numbers && d.numbers[n].exclusion.None? && d.numbers[n].status != RowRejected
  }

  /** The weaker notion of HasActiveNumber: only the row's status is read. */
  predicate HasActiveNumber(d: Dossier) {
    exists n | n in d.numbers :: d.numbers[n].status != RowRejected
  }

  predicate RequestInProgressFor(requests: map<RequestId, Dossier>, n: Msisdn) {
    exists id | id in requests :: InProgress(requests[id]) && Active(requests[id], n)
  }

  function State(s: Platform, n: Msisdn): NumberState
    requires n in s.registry
  {
    var e := s.registry[n];
    NumberState(e.holder, e.origin, e.lastPorting, e.restituted, RequestInProgressFor(s.requests, n))
  }

  predicate Due(d: Dossier, now: Time) {
    InProgress(d) && d.request.deadline.Some? && d.request.deadline.value <= now
  }

  predicate Overdue(d: Dossier, timeout: Time, asOf: Time) {
    InProgress(d) && d.request.deadline.None? && d.request.stepStart + timeout <= asOf
  }

  predicate AwaitsArtp(d: Dossier, m: Market) {
    && d.request.kind == Reverse
    && InProgress(d)
    && d.request.deadline.None?
    && (d.request.step == Completion
        || (d.request.step == Confirmation && |d.confirmers| >= |m.operators|))
  }

  predicate OverdueReverse(r: ReverseRequest, delay: Time, now: Time) {
    r.status == ReversePending && r.requestedAt + delay <= now
  }

  function DueConvergences(s: Platform, now: Time): set<RequestId> {
    set id | id in s.requests && Due(s.requests[id], now)
  }

  function OverdueSteps(s: Platform, timeout: Time, asOf: Time): set<RequestId> {
    set id | id in s.requests && Overdue(s.requests[id], timeout, asOf)
  }

  function PendingReverseCompletions(s: Platform): set<RequestId> {
    set id | id in s.requests && AwaitsArtp(s.requests[id], s.market)
  }

  function OverdueForAutoValidation(s: Platform, delay: Time, now: Time): set<RequestId> {
    set id | id in s.reverses && OverdueReverse(s.reverses[id], delay, now)
  }

  // The three work queues of an operator.

  predicate ToAccept(r: Request, caller: OperatorId) {
    r.status == RequestInProgress && r.step == Acceptance && r.source == caller
  }

  predicate ToProcess(r: Request, caller: OperatorId) {
    && r.status == RequestInProgress
    && (((r.step == Acceptance || r.step == Deactivation) && r.source == caller)
        || ((r.step == Activation || r.step == Completion) && r.recipient == caller
            && !(r.step == Completion && r.kind == Reverse)))
  }

  predicate ToConfirm(d: Dossier, m: Market, caller: OperatorId) {
    && InProgress(d)
    && d.request.step == Confirmation
    && caller !in d.confirmers
    && caller in ExpectedConfirmers(d.request, m.operators)
  }
}
