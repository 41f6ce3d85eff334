/** The vocabulary of the number-portability workflow: identifiers, steps,
  requests, the registry's view of a number, and the pure rules that decide who
  may do what. Nothing here changes state. */
module Entities {

  datatype Option<+T> = None | Some(value: T)

  // Identifiers are only ever compared for equality.
  type OperatorId = int
  type RequestId = int
  type Msisdn = int
  type ReasonId = int
  type Prefix = int

  // One clock serves the process and the database; it counts microseconds.
  type Time = int

  const SECOND: Time := 1_000_000
  const DAY: Time := 24 * 3600 * SECOND
  const DELAY_BETWEEN_PORTINGS: Time := 3 * 30 * DAY
  const DELAY_BEFORE_RESTITUTION: Time := 6 * 30 * DAY

  datatype Step = Acceptance | Deactivation | Activation | Confirmation | Completion
  datatype RequestStatus = RequestInProgress | RequestCompleted | RequestCancelled | RequestRejected
  datatype StepStatus = StepInProgress | StepCompleted | StepExpired
  datatype RequestType = Porting | Restitution | Reverse
  datatype SubscriberType = Individual | Enterprise
  datatype Role = RoleSource | RoleRecipient | RoleAll | RoleArtp
  datatype Origin = Action | Expiration

  // Why a call is refused. Several faults of the platform share one code.
  datatype Fault =
    | MarketFrozen
    | RequestNotFound
    | RequestAccessDenied
    | InvalidStep
    | ValidationFailed
    | RejectionReasonRequired
    | OtpInvalid
    | IncorrectSourceOperator
    | NumberAlreadyAtRecipient
    | RequestAlreadyInProgressForNumber
    | PortingDelayNotRespected
    | NumberNotPorted
    | NumberAlreadyRestituted
    | RestitutionDelayNotRespected
    | FleetEmpty
    | FleetMixedOperators
    | NoEligibleNumber

  /** A row of the request table. `deadline` is the pending transition's date. */
  datatype Request = Request(
    msisdn: Msisdn,
    subscriber: SubscriberType,
    kind: RequestType,
    status: RequestStatus,
    step: Step,
    stepStatus: StepStatus,
    source: OperatorId,
    recipient: OperatorId,
    creator: OperatorId,
    routing: Option<Prefix>,
    createdAt: Time,
    stepStart: Time,
    deadline: Option<Time>,
    endedAt: Option<Time>)

  datatype NumberState = NumberState(
    holder: OperatorId,
    origin: OperatorId,
    lastPorting: Option<Time>,
    restituted: bool,
    requestInProgress: bool)

  // ---- Steps -----------------------------------------------------------

  const STEP_SEQUENCE: seq<Step> := [Acceptance, Deactivation, Activation, Confirmation, Completion]

  function NextStep(s: Step): (next: Option<Step>)
  {
    match s
    case Acceptance => Some(Deactivation)
    case Deactivation => Some(Activation)
    case Activation => Some(Confirmation)
    case Confirmation => Some(Completion)
    case Completion => None
  }

  /** A step's place in the sequence. */
  function Rank(s: Step): (k: nat)
    ensures k < |STEP_SEQUENCE| && STEP_SEQUENCE[k] == s
  {
    match s
    case Acceptance => 0
    case Deactivation => 1
    case Activation => 2
    case Confirmation => 3
    case Completion => 4
  }

  /** NextStep is the scan of the sequence: it answers the element that follows
    the step, and nothing exactly for the last one. */
  lemma NextStepFollowsSequence(s: Step)
    ensures NextStep(s) == if Rank(s) + 1 < |STEP_SEQUENCE| then Some(STEP_SEQUENCE[Rank(s) + 1]) else None
    ensures forall i | 0 <= i < |STEP_SEQUENCE| && STEP_SEQUENCE[i] == s :: i == Rank(s)
  {
    assert forall i | 0 <= i < |STEP_SEQUENCE| :: Rank(STEP_SEQUENCE[i]) == i;
  }

  function StepOwner(s: Step, kind: RequestType): Role {
    match s
    case Acceptance => RoleSource
    case Deactivation => RoleSource
    case Activation => RoleRecipient
    case Confirmation => RoleAll
    case Completion => if kind == Reverse then RoleArtp else RoleRecipient
  }

  // ---- Authorization ---------------------------------------------------

  function CanProcess(r: Request, caller: OperatorId): Option<Fault> {
    var owner := StepOwner(r.step, r.kind);
    if owner == RoleArtp then Some(RequestAccessDenied)
    else if r.status != RequestInProgress then Some(InvalidStep)
    else if r.deadline.Some? then Some(InvalidStep)
    else if r.step == Acceptance || r.step == Confirmation then Some(InvalidStep)
    else if owner == RoleSource && caller != r.source then Some(RequestAccessDenied)
    else if owner == RoleRecipient && caller != r.recipient then Some(RequestAccessDenied)
    else None
  }

  function CanAccept(r: Request, caller: OperatorId): Option<Fault> {
    if r.status != RequestInProgress then Some(InvalidStep)
    else if r.step != Acceptance || r.deadline.Some? then Some(InvalidStep)
    else if caller != r.source then Some(RequestAccessDenied)
    else None
  }

  function CanCancel(r: Request, caller: OperatorId): Option<Fault> {
    if caller != r.creator then Some(RequestAccessDenied)
    else if r.status != RequestInProgress || r.step != Acceptance then Some(InvalidStep)
    else None
  }

  /** Who must confirm, in the order of the operator table: everybody, except the
    recipient of a porting. */
  function ExpectedConfirmers(r: Request, operators: seq<OperatorId>): seq<OperatorId> {
    if operators == [] then []
    else
      var rest := ExpectedConfirmers(r, operators[..|operators| - 1]);
      var last := operators[|operators| - 1];
      if r.kind == Porting && last == r.recipient then rest else rest + [last]
  }

  // ---- Eligibility -----------------------------------------------------

  function CheckPortingEligibility(
    n: NumberState, source: OperatorId, recipient: OperatorId, now: Time): Option<Fault>
  {
    if n.holder == recipient then Some(NumberAlreadyAtRecipient)
    else if n.holder != source then Some(IncorrectSourceOperator)
    else if n.requestInProgress then Some(RequestAlreadyInProgressForNumber)
    else if n.lastPorting.Some? && now - n.lastPorting.value < DELAY_BETWEEN_PORTINGS
    then Some(PortingDelayNotRespected)
    else None
  }

  function CheckRestitutionEligibility(n: NumberState, now: Time): Option<Fault> {
    if n.lastPorting.None? || n.holder == n.origin then Some(NumberNotPorted)
    else if n.restituted then Some(NumberAlreadyRestituted)
    else if now - n.lastPorting.value < DELAY_BEFORE_RESTITUTION then Some(RestitutionDelayNotRespected)
    else if n.requestInProgress then Some(RequestAlreadyInProgressForNumber)
    else None
  }
}
