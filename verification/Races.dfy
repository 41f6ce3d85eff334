/** A call as two separate steps: the caller is authorized on a read, and the write
  follows. Between the two, anything may happen to the request. (Everywhere else
  in this project a call is one atomic step.) */
module Races {
  import opened Entities
  import opened Tables
  import opened Operations
  import opened Lifecycle

  /** What can reach a request between the read and the write. */
  datatype Act =
    | Transition(origin: Origin, at: Time)
    | Schedule(deadline: Time)
    | RejectOne(msisdn: Msisdn)
    | End(status: RequestStatus, actor: OperatorId, at: Time)

  function Play(m: Market, d: Dossier, acts: seq<Act>): Dossier {
    if acts == [] then d
    else
      var d1 := Play(m, d, acts[..|acts| - 1]);
      match acts[|acts| - 1]
      case Transition(origin, at) => if InProgress(d1) then Advance(m, d1, origin, at) else d1
      case Schedule(deadline) => WithDeadline(d1, deadline)
      case RejectOne(n) => RejectNumber(d1, n)
      case End(status, actor, at) => Ended(d1, status, actor, at)
  }

  predicate Untouched(acts: seq<Act>) {
    forall a | a in acts :: !a.Transition? && !a.End?
  }

  predicate EngineOnly(acts: seq<Act>) {
    forall a | a in acts :: !a.End?
  }

  /** Steps only advance, so the step read is found again only if no transition was
    applied: there is no ABA. */
  lemma {:induction false} StepsOnlyAdvance(m: Market, d: Dossier, acts: seq<Act>)
    requires EngineOnly(acts) && InProgress(d)
    ensures var d' := Play(m, d, acts);
      && Rank(d.request.step) <= Rank(d'.request.step)
      && (d'.request.step == d.request.step && InProgress(d') <==> Untouched(acts))
      && (Untouched(acts) ==> d'.history == d.history && d'.request == d.request.(deadline := d'.request.deadline))
      && (InProgress(d') || d'.request.step == Completion)
  {
    if acts != [] {
      var front, last := acts[..|acts| - 1], acts[|acts| - 1];
      assert acts == front + [last];
      assert last in acts && forall a | a in front :: a in acts;
      StepsOnlyAdvance(m, d, front);
    }
  }

  /** Against the engine: the write is refused exactly when the engine applied some
    transition since the read, and then nothing is written; otherwise it leaves
    exactly one history row, the caller's, and nothing pending. */
  lemma CancelAgainstEngine(m: Market, d: Dossier, acts: seq<Act>, caller: OperatorId, now: Time)
    requires HistoryShape(d) && CanCancel(d.request, caller).None? && EngineOnly(acts)
    ensures var d' := Play(m, d, acts); var w := CancelWrite(d', d.request.step, caller, now);
      && (w.Some? <==> Untouched(acts))
      && (w.Some? ==>
            && w.value.request.status == RequestCancelled && w.value.request.step == Acceptance
            && w.value.request.deadline.None? && HistoryShape(w.value)
            && w.value.history == [HistoryRow(Acceptance, StepCompleted, Action, Some(caller), d.request.stepStart,
                now)])
  {
    StepsOnlyAdvance(m, d, acts);
    assert d.history == [];
  }

  /** The guard compares steps, not statuses. The write therefore also takes effect
    on a request that was rejected or cancelled in between, and the history it
    leaves is a request's history exactly when the request was still in progress. */
  lemma CancelWriteIsSoundIffInProgress(d: Dossier, caller: OperatorId, now: Time)
    requires HistoryShape(d) && d.request.kind != Reverse && d.request.step == Acceptance
    ensures var w := CancelWrite(d, Acceptance, caller, now);
      w.Some? && (HistoryShape(w.value) <==> InProgress(d))
  {}

  /** Such an interleaving, for every porting just created: the source may reject it,
    the recipient may cancel it, and the rejection falls between the recipient's read
    and its write. */
  lemma RejectionInBetween(m: Market, source: OperatorId, recipient: OperatorId, n: Msisdn, created: Time, now: Time)
    ensures
      var prefix := RoutingPrefix(m, source);
      var d := NewDossier(NewRequest(n, Individual, Porting, Acceptance, source, recipient, prefix, created),
                          SingleRow(n, prefix));
      var d' := Play(m, d, [End(RequestRejected, source, now)]);
      var w := CancelWrite(d', d.request.step, recipient, now);
      && CanAccept(d.request, source).None? && CanCancel(d.request, recipient).None?
      && HistoryShape(d) && HistoryShape(d') && d'.request.status == RequestRejected
      && w.Some? && w.value.request.status == RequestCancelled && |w.value.history| == 2 && !HistoryShape(w.value)
  {
    var prefix := RoutingPrefix(m, source);
    var d := NewDossier(NewRequest(n, Individual, Porting, Acceptance, source, recipient, prefix, created),
        SingleRow(n, prefix));
    assert Play(m, d, []) == d;
    var acts := [End(RequestRejected, source, now)];
    assert acts[..0] == [] && Play(m, d, acts) == Ended(d, RequestRejected, source, now);
  }

  /** A transition scheduled on a stale authorization re-reads the status and the step
    under the row's lock, so it keeps the dossier sound (Lifecycle.AdvanceSound); but
    it re-reads no confirmation: finding the request at CONFIRMATION it keeps the
    quorum exactly when the count that Confirm compares was reached by then. */
  lemma StaleActionKeepsQuorumIffCounted(d: Dossier, m: Market, before: Time, now: Time)
    requires MarketOk(m) && Sound(d, m, before) && QuorumHistory(d, m) && before <= now
    requires InProgress(d) && d.request.step == Confirmation
    ensures Sound(Advance(m, d, Action, now), m, now)
    ensures QuorumHistory(Advance(m, d, Action, now), m) <==> CountReached(d, m)
  {
    var d' := Advance(m, d, Action, now);
    AdvanceSound(d, m, Action, before, now);
    ExpectedSame(d.request, d'.request, m.operators);
    CountIsCoverage(d, m);
    assert forall i | 0 <= i < |d.history| :: d'.history[i] == d.history[i];
    assert d'.history[|d.history|].step == Confirmation && d'.history[|d.history|].origin == Action;
  }

  lemma NobodyConfirmed(d: Dossier, m: Market, now: Time)
    requires MarketOk(m) && Sound(d, m, now) && QuorumHistory(d, m)
    requires InProgress(d) && d.request.kind == Porting && d.confirmers == {}
    ensures !CountReached(d, m)
  {
    ExpectedIsFilter(d.request, m.operators);
    assert d.request.source in ExpectedSet(d, m);
    CountIsCoverage(d, m);
  }

  lemma NoConfirmerYet(d: Dossier, m: Market)
    requires QuorumOk(d, m) && d.request.step == Activation
    ensures d.confirmers == {}
  {}

  lemma TwoTransitions(m: Market, d: Dossier, first: Time, second: Time)
    requires InProgress(d) && d.request.step == Activation
    ensures Play(m, d, [Transition(Action, first)]) == Advance(m, d, Action, first)
    ensures Play(m, d, [Transition(Action, first), Transition(Action, second)])
            == Advance(m, Advance(m, d, Action, first), Action, second)
  {
    var acts := [Transition(Action, first), Transition(Action, second)];
    assert Play(m, d, []) == d;
    assert acts[..1] == [acts[0]] && acts[..1][..0] == [];
  }

  /** Such an interleaving, on every porting at ACTIVATION with nothing pending: the
    recipient's call is authorized twice on one read. The first write opens
    CONFIRMATION, the second closes it, and nobody has confirmed. */
  lemma ProcessedTwice(d: Dossier, m: Market, before: Time, first: Time, second: Time)
    requires MarketOk(m) && Sound(d, m, before) && QuorumOk(d, m) && before <= first <= second
    requires InProgress(d) && d.request.kind == Porting && d.request.step == Activation && d.request.deadline.None?
    ensures CanProcess(d.request, d.request.recipient).None?
    ensures var d1 := Play(m, d, [Transition(Action, first)]);
      var d2 := Play(m, d, [Transition(Action, first), Transition(Action, second)]);
      && d1.request.step == Confirmation && d1.confirmers == {}
      && d2.request.step == Completion && d2.confirmers == {} && !QuorumHistory(d2, m)
  {
    hide Play, Sound, QuorumWait, QuorumHistory, CountReached, MarketOk, Rerouted, RoutingPrefix;
    var d1 := Advance(m, d, Action, first);
    TwoTransitions(m, d, first, second);
    AdvanceSound(d, m, Action, before, first);
    AdvanceQuorum(d, m, Action, before, first);
    assert d1.confirmers == {} by { NoConfirmerYet(d, m); }
    NobodyConfirmed(d1, m, first);
    StaleActionKeepsQuorumIffCounted(d1, m, first, second);
  }

  /** A stale call under an open window sets its deadline without reading anything again.
    The dossier stays sound exactly when it is still in progress (a REVERSE at
    CONFIRMATION), and the quorum exactly when, should it be at CONFIRMATION by then, the
    count is reached. */
  lemma StaleScheduleKeepsIff(d: Dossier, m: Market, now: Time, deadline: Time)
    requires MarketOk(m) && Sound(d, m, now) && QuorumHistory(d, m)
    ensures Sound(WithDeadline(d, deadline), m, now)
            <==> InProgress(d) && (d.request.kind == Reverse ==> d.request.step == Confirmation)
    ensures QuorumOk(WithDeadline(d, deadline), m)
            <==> (InProgress(d) && d.request.step == Confirmation ==> CountReached(d, m))
  {
    var d' := WithDeadline(d, deadline);
    CountIsCoverage(d, m);
    ExpectedSame(d.request, d'.request, m.operators);
    if InProgress(d) && (d.request.kind == Reverse ==> d.request.step == Confirmation) {
      ScheduleSound(d, m, now, now, deadline);
    } else {
      assert !DeadlineOk(d');
    }
    assert QuorumHistory(d', m);
  }

  lemma ExpiredThenScheduled(m: Market, d: Dossier, expired: Time, deadline: Time)
    requires InProgress(d)
    ensures Play(m, d, [Transition(Expiration, expired), Schedule(deadline)])
            == WithDeadline(Advance(m, d, Expiration, expired), deadline)
  {
    var acts := [Transition(Expiration, expired), Schedule(deadline)];
    assert Play(m, d, []) == d;
    assert acts[..1] == [acts[0]] && acts[..1][..0] == [];
  }

  /** Such interleavings, on every porting or restitution with nothing pending. The
    recipient is authorized at COMPLETION, the engine expires the step, and the write sets
    a deadline on an ended request, which no convergence will ever apply. */
  lemma ScheduledAfterTheEnd(d: Dossier, m: Market, before: Time, expired: Time, deadline: Time)
    requires MarketOk(m) && Sound(d, m, before) && QuorumOk(d, m) && before <= expired
    requires InProgress(d) && d.request.kind != Reverse && d.request.step == Completion && d.request.deadline.None?
    ensures CanProcess(d.request, d.request.recipient).None?
    ensures var d' := Play(m, d, [Transition(Expiration, expired), Schedule(deadline)]);
      && d'.request.status == RequestCompleted && d'.request.deadline == Some(deadline) && !Sound(d', m, expired)
      && forall now :: !Due(d', now)
  {
    hide Play, Timeline, RoutingOk, RowsOk;
    ExpiredThenScheduled(m, d, expired, deadline);
    assert !DeadlineOk(WithDeadline(Advance(m, d, Expiration, expired), deadline));
  }

  /** The recipient of a porting is authorized at ACTIVATION, the engine expires the step,
    and the write settles CONFIRMATION, which nobody has confirmed. */
  lemma ScheduledOnNextStep(d: Dossier, m: Market, before: Time, expired: Time, deadline: Time)
    requires MarketOk(m) && Sound(d, m, before) && QuorumOk(d, m) && before <= expired
    requires InProgress(d) && d.request.kind == Porting && d.request.step == Activation && d.request.deadline.None?
    ensures CanProcess(d.request, d.request.recipient).None?
    ensures var d' := Play(m, d, [Transition(Expiration, expired), Schedule(deadline)]);
      && InProgress(d') && d'.request.step == Confirmation && d'.confirmers == {} && Due(d', deadline)
      && Sound(d', m, expired) && !QuorumOk(d', m)
  {
    hide Play, Sound, MarketOk, QuorumWait, QuorumHistory, CountReached, Rerouted, RoutingPrefix;
    var d1 := Advance(m, d, Expiration, expired);
    ExpiredThenScheduled(m, d, expired, deadline);
    AdvanceSound(d, m, Expiration, before, expired);
    AdvanceQuorum(d, m, Expiration, before, expired);
    assert d1.confirmers == {} by { NoConfirmerYet(d, m); }
    NobodyConfirmed(d1, m, expired);
    StaleScheduleKeepsIff(d1, m, expired, deadline);
  }
}
