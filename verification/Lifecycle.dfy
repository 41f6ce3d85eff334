/** What every dossier of the platform satisfies, whatever the run: the shape of
  its history, its timeline, its number rows, its routing and its quorum. Each
  local operation is shown to keep it. */
module Lifecycle {
  import opened Entities
  import opened Tables
  import opened Operations
  import opened Finite

  // ---- The invariant of one dossier --------------------------------------

  /** Rank of the step a request is created at. */
  function FirstRank(d: Dossier): nat {
    if d.request.kind == Reverse then Rank(Confirmation) else Rank(Acceptance)
  }

  /** Number of steps closed so far. */
  function ClosedSteps(d: Dossier): int {
    Rank(d.request.step) - FirstRank(d) + if InProgress(d) then 0 else 1
  }

  /** The history is the contiguous run of the step sequence from the creation
    step to the current one, exclusive while in progress and inclusive once the
    request has ended; only a completed request has left the last step, and only
    a request still at ACCEPTATION was cancelled or rejected. */
  ghost predicate HistoryShape(d: Dossier) {
    && FirstRank(d) <= Rank(d.request.step)
    && |d.history| == ClosedSteps(d)
    && (forall i | 0 <= i < |d.history| :: d.history[i].step == STEP_SEQUENCE[FirstRank(d) + i])
    && (forall i | 0 <= i < |d.history| :: d.history[i].status == ClosedStatus(d.history[i].origin))
    && (d.request.status == RequestCompleted ==> d.request.step == Completion)
    && (d.request.status == RequestCancelled || d.request.status == RequestRejected
        ==> d.request.step == Acceptance && d.history[0].origin == Action)
  }

  function StartOfRow(d: Dossier, i: nat): Time
    requires i <= |d.history|
  {
    if i == 0 then d.request.createdAt else d.history[i - 1].end
  }

  /** The rows tile the request's life without gap or overlap. */
  ghost predicate Timeline(d: Dossier, now: Time) {
    && (forall i | 0 <= i < |d.history| :: d.history[i].start == StartOfRow(d, i) <= d.history[i].end <= now)
    && d.request.createdAt <= d.request.stepStart <= now
    && (InProgress(d) ==> d.request.stepStart == StartOfRow(d, |d.history|) && d.request.endedAt == None
                          && d.request.stepStatus == StepInProgress)
    && (!InProgress(d) ==> d.history != [] && d.request.endedAt == Some(d.history[|d.history| - 1].end)
                           && d.request.stepStatus == d.history[|d.history| - 1].status)
  }

  /** Excluded rows are rejected rows, and only a fleet has more rows than its
    own number. */
  ghost predicate RowsShape(d: Dossier) {
    && (forall n | n in d.numbers && d.numbers[n].exclusion.Some? :: d.numbers[n].status == RowRejected)
    && (d.request.subscriber == Individual ==> d.numbers.Keys == {d.request.msisdn})
    && (d.request.kind != Porting ==> d.request.subscriber == Individual)
  }

  /** A request keeps an active number until it is rejected or cancelled. */
  ghost predicate RowsOk(d: Dossier) {
    && RowsShape(d)
    && (InProgress(d) || d.request.status == RequestCompleted ==> exists n :: Active(d, n))
  }

  /** The step at which a porting hands its numbers over is closed. */
  predicate Ported(d: Dossier) {
    d.request.kind == Porting && Rank(d.request.step) > Rank(Activation)
  }

  /** A porting carries the source's prefix until ACTIVATION is closed; from then
    on the request and its active rows carry the recipient's, the others the
    source's. A restitution or a reverse carries none before its end. */
  ghost predicate RoutingOk(d: Dossier, m: Market) {
    var r := d.request;
    var source, recipient := RoutingPrefix(m, r.source), RoutingPrefix(m, r.recipient);
    && source.Some? && recipient.Some?
    && (r.kind == Porting ==> r.routing == if Ported(d) then recipient else source)
    && (r.kind != Porting ==> r.routing == if r.status == RequestCompleted then recipient else None)
    && (forall n | n in d.numbers :: d.numbers[n].routing ==
          if r.kind != Porting then None
          else if Ported(d) then (if Active(d, n) then recipient else source)
          else (if d.numbers[n].exclusion.Some? then None else source))
  }

  ghost predicate PartiesOk(d: Dossier) {
    && d.request.creator == d.request.recipient
    && (d.request.kind != Reverse ==> d.request.source != d.request.recipient)
  }

  /** Only a step in progress has a pending deadline, and the last step of a
    REVERSE, which belongs to no operator, never has one. */
  ghost predicate DeadlineOk(d: Dossier) {
    d.request.deadline.Some? ==> InProgress(d) && (d.request.kind == Reverse ==> d.request.step == Confirmation)
  }

  ghost function ExpectedSet(d: Dossier, m: Market): set<OperatorId> {
    set op | op in ExpectedConfirmers(d.request, m.operators)
  }

  /** Everyone who must confirm has confirmed, and nobody else. */
  ghost predicate Covered(d: Dossier, m: Market) {
    d.confirmers == ExpectedSet(d, m)
  }

  /** No confirmation comes from outside the expected confirmers, none comes
    before CONFIRMATION, and a CONFIRMATION closed by an action was covered. */
  ghost predicate QuorumHistory(d: Dossier, m: Market) {
    && d.confirmers <= ExpectedSet(d, m)
    && (Rank(d.request.step) < Rank(Confirmation) ==> d.confirmers == {})
    && (forall i | 0 <= i < |d.history| && d.history[i].step == Confirmation && d.history[i].origin == Action ::
        Covered(d, m))
  }

  /** At CONFIRMATION a deadline is pending exactly when everyone has confirmed
    (provided somebody has to). */
  ghost predicate QuorumWait(d: Dossier, m: Market) {
    InProgress(d) && d.request.step == Confirmation
    ==> (d.request.deadline.Some? ==> Covered(d, m))
        && (d.request.deadline.None? && Covered(d, m) ==> ExpectedSet(d, m) == {})
  }

  ghost predicate QuorumOk(d: Dossier, m: Market) {
    QuorumHistory(d, m) && QuorumWait(d, m)
  }

  /** All of it but the quorum: kept by a transition however it was authorized. */
  ghost predicate Sound(d: Dossier, m: Market, now: Time) {
    HistoryShape(d) && Timeline(d, now) && RowsOk(d) && RoutingOk(d, m) && PartiesOk(d) && DeadlineOk(d)
  }

  ghost predicate MarketOk(m: Market) {
    && (forall i, j | 0 <= i < j < |m.operators| :: m.operators[i] != m.operators[j])
    && (set op | op in m.operators) == m.prefixes.Keys
  }

  // ---- Counting is covering ----------------------------------------------

  lemma {:induction false} ExpectedIsFilter(r: Request, operators: seq<OperatorId>)
    ensures forall op :: op in ExpectedConfirmers(r, operators)
                    <==> op in operators && !(r.kind == Porting && op == r.recipient)
  {
    if operators != [] {
      ExpectedIsFilter(r, operators[..|operators| - 1]);
      assert operators == operators[..|operators| - 1] + [operators[|operators| - 1]];
    }
  }

  lemma {:induction false} ExpectedDistinct(r: Request, operators: seq<OperatorId>)
    requires forall i, j | 0 <= i < j < |operators| :: operators[i] != operators[j]
    ensures forall i, j | 0 <= i < j < |ExpectedConfirmers(r, operators)| ::
              ExpectedConfirmers(r, operators)[i] != ExpectedConfirmers(r, operators)[j]
  {
    if operators != [] {
      var front := operators[..|operators| - 1];
      ExpectedDistinct(r, front);
      ExpectedIsFilter(r, front);
      assert operators[|operators| - 1] !in front;
      assert forall i | 0 <= i < |ExpectedConfirmers(r, front)| ::
          ExpectedConfirmers(r, front)[i] in ExpectedConfirmers(r, front);
    }
  }

  /** Pigeonhole: the code compares a count with a length, and that count is
    reached exactly when everyone expected has confirmed. */
  lemma CountIsCoverage(d: Dossier, m: Market)
    requires MarketOk(m) && d.confirmers <= ExpectedSet(d, m)
    ensures CountReached(d, m) <==> Covered(d, m)
    ensures d.request.kind != Porting ==> (|d.confirmers| >= |m.operators| <==> Covered(d, m))
  {
    var expected := ExpectedConfirmers(d.request, m.operators);
    ExpectedDistinct(d.request, m.operators);
    ExpectedIsFilter(d.request, m.operators);
    DistinctSize(expected);
    DistinctSize(m.operators);
    SubsetOfSameSize(d.confirmers, ExpectedSet(d, m));
    if d.request.kind != Porting {
      assert ExpectedSet(d, m) == set op | op in m.operators;
    }
  }

  /** The differing notions of an active number used by the fleet's exhaustion,
    by the registry transfer, by the routing and by the request-in-progress flag
    agree on every sound dossier. */
  lemma ActiveNotionsAgree(d: Dossier)
    requires RowsOk(d)
    ensures forall n | n in d.numbers ::
      && (Active(d, n) <==> d.numbers[n].status != RowRejected)
      && (Active(d, n) <==> !(d.numbers[n].status == RowRejected || d.numbers[n].exclusion.Some?))
    ensures HasActiveNumber(d) <==> exists n :: Active(d, n)
  {
    if n :| Active(d, n) {
      assert d.numbers[n].status != RowRejected;
    }
    if HasActiveNumber(d) {
      var n :| n in d.numbers && d.numbers[n].status != RowRejected;
      assert Active(d, n);
    }
  }

  // ---- What each local operation keeps -----------------------------------

  lemma AdvanceShape(d: Dossier, m: Market, origin: Origin, now: Time)
    requires HistoryShape(d) && InProgress(d)
    ensures HistoryShape(Advance(m, d, origin, now)) && |Advance(m, d, origin, now).history| == |d.history| + 1
  {
    var d' := Advance(m, d, origin, now);
    assert forall i | 0 <= i < |d.history| :: d'.history[i] == d.history[i];
    assert FirstRank(d') == FirstRank(d);
  }

  lemma AdvanceTiles(d: Dossier, m: Market, origin: Origin, before: Time, now: Time)
    requires Timeline(d, before) && InProgress(d) && before <= now
    ensures var d' := Advance(m, d, origin, now);
      forall i | 0 <= i < |d'.history| :: d'.history[i].start == StartOfRow(d', i) <= d'.history[i].end <= now
  {
    var d' := Advance(m, d, origin, now);
    hide Rerouted, RoutingPrefix, NextStep;
    var k := |d.history|;
    assert d'.request.createdAt == d.request.createdAt;
    assert d'.history
           == d.history + [HistoryRow(d.request.step, ClosedStatus(origin), origin, None, d.request.stepStart, now)];
    hide Advance;
    forall i | 0 <= i < |d'.history| ensures d'.history[i].start == StartOfRow(d', i) <= d'.history[i].end <= now {
      assert StartOfRow(d', i) == StartOfRow(d, i);
      assert i < k ==> d'.history[i] == d.history[i];
    }
  }

  lemma AdvanceTimeline(d: Dossier, m: Market, origin: Origin, before: Time, now: Time)
    requires Timeline(d, before) && InProgress(d) && before <= now
    ensures Timeline(Advance(m, d, origin, now), now)
  {
    AdvanceTiles(d, m, origin, before, now);
    hide Rerouted, RoutingPrefix, NextStep;
  }

  lemma AdvanceRouting(d: Dossier, m: Market, origin: Origin, now: Time)
    requires RowsOk(d) && RoutingOk(d, m) && InProgress(d)
    requires d.request.kind == Reverse ==> Rank(d.request.step) >= Rank(Confirmation)
    ensures RowsOk(Advance(m, d, origin, now)) && RoutingOk(Advance(m, d, origin, now), m)
    ensures forall n :: Active(Advance(m, d, origin, now), n) == Active(d, n)
  {
    var d' := Advance(m, d, origin, now);
    assert d'.numbers.Keys == d.numbers.Keys;
    assert forall n :: Active(d', n) == Active(d, n);
    var n :| Active(d, n);
    assert Active(d', n);
  }

  /** A transition keeps a dossier sound, whoever authorized it. */
  lemma AdvanceSound(d: Dossier, m: Market, origin: Origin, before: Time, now: Time)
    requires Sound(d, m, before) && InProgress(d) && before <= now
    ensures Sound(Advance(m, d, origin, now), m, now)
  {
    AdvanceShape(d, m, origin, now);
    AdvanceTimeline(d, m, origin, before, now);
    AdvanceRouting(d, m, origin, now);
  }

  /** It keeps the quorum too, unless it closes CONFIRMATION by an action that
    was not covered. */
  lemma AdvanceQuorum(d: Dossier, m: Market, origin: Origin, before: Time, now: Time)
    requires Sound(d, m, before) && QuorumHistory(d, m) && InProgress(d)
    requires origin == Action && d.request.step == Confirmation ==> Covered(d, m)
    ensures QuorumOk(Advance(m, d, origin, now), m)
  {
    var d' := Advance(m, d, origin, now);
    ExpectedSame(d.request, d'.request, m.operators);
    assert forall i | 0 <= i < |d.history| :: d'.history[i] == d.history[i];
  }

  lemma {:induction false} ExpectedSame(r: Request, r': Request, operators: seq<OperatorId>)
    requires r.kind == r'.kind && r.recipient == r'.recipient
    ensures ExpectedConfirmers(r, operators) == ExpectedConfirmers(r', operators)
  {
    if operators != [] {
      ExpectedSame(r, r', operators[..|operators| - 1]);
    }
  }

  /** Deferring a transition: the pending deadline is set on a step that an action
    may close. */
  lemma ScheduleSound(d: Dossier, m: Market, before: Time, now: Time, deadline: Time)
    requires Sound(d, m, before) && InProgress(d) && before <= now
    requires d.request.kind == Reverse ==> d.request.step == Confirmation
    ensures Sound(WithDeadline(d, deadline), m, now)
    ensures QuorumHistory(d, m) && (d.request.step == Confirmation ==> Covered(d, m))
        ==> QuorumOk(WithDeadline(d, deadline), m)
  {
    var d' := WithDeadline(d, deadline);
    ExpectedSame(d.request, d'.request, m.operators);
    assert forall i | 0 <= i <= |d.history| :: StartOfRow(d', i) == StartOfRow(d, i);
    assert forall n :: Active(d', n) == Active(d, n);
    assert RowsOk(d') by {
      var n :| Active(d, n);
      assert Active(d', n);
    }
  }

  /** A request withdrawn at ACCEPTATION, its pending deadline dropped. */
  function Withdrawn(d: Dossier, status: RequestStatus, caller: OperatorId, now: Time): Dossier {
    var ended := Ended(d, status, caller, now);
    ended.(request := ended.request.(deadline := None))
  }

  /** Rejected (its rows may then all be rejected) or cancelled. */
  lemma WithdrawnSound(d: Dossier, m: Market, status: RequestStatus, caller: OperatorId, before: Time, now: Time)
    requires HistoryShape(d) && Timeline(d, before) && RowsShape(d) && RoutingOk(d, m) && PartiesOk(d)
    requires InProgress(d) && d.request.step == Acceptance && before <= now
    requires status == RequestRejected || status == RequestCancelled
    ensures Sound(Withdrawn(d, status, caller, now), m, now)
    ensures d.confirmers == {} ==> QuorumOk(Withdrawn(d, status, caller, now), m)
  {
    var d' := Withdrawn(d, status, caller, now);
    assert FirstRank(d') == FirstRank(d) == 0 && d.history == [];
    assert forall n :: Active(d', n) == Active(d, n);
    assert RoutingOk(d', m);
  }

  lemma {:induction false} RejectNumbersEffect(d: Dossier, rejected: seq<RejectedNumber>)
    ensures var d' := RejectNumbers(d, rejected);
      && d' == d.(numbers := d'.numbers) && d'.numbers.Keys == d.numbers.Keys
      && forall n | n in d.numbers ::
           d'.numbers[n] ==
             if exists x | x in rejected :: x.msisdn == n then d.numbers[n].(status := RowRejected) else d.numbers[n]
  {
    if rejected != [] {
      var front, last := rejected[..|rejected| - 1], rejected[|rejected| - 1];
      RejectNumbersEffect(d, front);
      assert rejected == front + [last];
      forall n | n in d.numbers
        ensures (exists x | x in rejected :: x.msisdn == n)
                <==> (exists x | x in front :: x.msisdn == n) || last.msisdn == n
      {
        if last.msisdn == n { assert last in rejected; }
      }
    }
  }

  /** Rejecting some numbers of a fleet: what remains is sound as long as one
    number is left. */
  lemma RejectNumbersSound(d: Dossier, m: Market, rejected: seq<RejectedNumber>, now: Time)
    requires Sound(d, m, now) && d.request.step == Acceptance && InProgress(d)
    ensures var d' := RejectNumbers(d, rejected);
      && HistoryShape(d') && Timeline(d', now) && RowsShape(d') && RoutingOk(d', m) && PartiesOk(d') && DeadlineOk(d')
      && (HasActiveNumber(d') ==> Sound(d', m, now))
      && (forall n :: Active(d', n) ==> Active(d, n))
      && (QuorumOk(d, m) ==> QuorumOk(d', m))
  {
    var d' := RejectNumbers(d, rejected);
    RejectNumbersEffect(d, rejected);
    assert forall i | 0 <= i <= |d.history| :: StartOfRow(d', i) == StartOfRow(d, i);
    assert RowsShape(d');
    if HasActiveNumber(d') {
      var n :| n in d'.numbers && d'.numbers[n].status != RowRejected;
      assert Active(d', n);
    }
  }

  lemma ConfirmedSound(d: Dossier, m: Market, caller: OperatorId, before: Time, now: Time)
    requires Sound(d, m, before) && before <= now
    ensures Sound(Confirmed(d, caller), m, now)
  {
    var d' := Confirmed(d, caller);
    hide RoutingPrefix;
    assert forall i | 0 <= i <= |d.history| :: StartOfRow(d', i) == StartOfRow(d, i);
    assert forall n :: Active(d', n) == Active(d, n);
    assert RowsOk(d') by {
      if n :| Active(d, n) { assert Active(d', n); }
    }
  }

  lemma ConfirmedHistory(d: Dossier, m: Market, caller: OperatorId)
    requires HistoryShape(d) && QuorumHistory(d, m) && InProgress(d) && d.request.step == Confirmation
    requires caller in ExpectedConfirmers(d.request, m.operators)
    ensures QuorumHistory(Confirmed(d, caller), m)
  {}

  /** Time alone breaks nothing. */
  lemma SoundLater(d: Dossier, m: Market, before: Time, now: Time)
    requires Sound(d, m, before) && before <= now
    ensures Sound(d, m, now)
  {}
}
