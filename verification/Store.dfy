/** The running platform: the tables as the fields of one object, rewritten row by
  row by the gateways' statements and by the interactors that call them. Every
  method is shown to take the object from one state to the one the operation of
  the same name gives. */
module PlatformStore {
  import opened Entities
  import opened Tables
  import opened Operations
  import Ops = Operations
  import opened Fleet

  /** The rows written one by one are those of the transition as a whole. */
  lemma SameTransition(s: Platform, requests': map<RequestId, Dossier>, registry': Registry, id: RequestId,
      origin: Origin)
    requires id in s.requests && InProgress(s.requests[id])
    requires requests' == s.requests[id := Advance(s.market, s.requests[id], origin, s.clock)]
    requires var d := s.requests[id];
             registry' == if Departing(d) == {} then s.registry
                   else Transfer(s.registry, Departing(d), d.request.recipient, d.request.kind != Porting, s.clock)
    ensures s.(requests := requests', registry := registry') == Ops.ApplyTransition(s, id, origin)
  {
    var d := s.requests[id];
    assert Departing(d) == {}
        ==> Transfer(s.registry, {}, d.request.recipient, d.request.kind != Porting, s.clock) == s.registry;
  }

  /** A scan of an answer, one job per row, enumerates the answer. */
  lemma JobsEnumerate(jobs: seq<Job>, ids: seq<RequestId>, answer: set<RequestId>)
    requires |jobs| == |ids| && forall i | 0 <= i < |ids| :: jobs[i].id == ids[i]
    requires forall id :: id in ids <==> id in answer
    requires forall i, j | 0 <= i < j < |ids| :: ids[i] != ids[j]
    ensures Enumerates(jobs, answer)
  {
    forall id | id in answer
      ensures exists i | 0 <= i < |jobs| :: jobs[i].id == id
    {
      assert id in ids;
      var i :| 0 <= i < |ids| && ids[i] == id;
      assert jobs[i].id == id;
    }
    assert forall i | 0 <= i < |ids| :: ids[i] in ids;
  }

  lemma CompletionsEnumerate(jobs: seq<CompletionJob>, ids: seq<RequestId>, s: Platform)
    requires |jobs| == |ids| && forall i | 0 <= i < |ids| :: jobs[i].id == ids[i]
    requires forall id :: id in ids <==> id in PendingReverseCompletions(s)
    requires forall i | 0 <= i < |ids| && ids[i] in s.requests ::
        jobs[i].fromConfirmation <==> s.requests[ids[i]].request.step == Confirmation
    requires forall i, j | 0 <= i < j < |ids| :: ids[i] != ids[j]
    ensures EnumeratesCompletions(jobs, s)
  {
    forall id | id in PendingReverseCompletions(s)
      ensures exists i | 0 <= i < |jobs| :: jobs[i].id == id
    {
      assert id in ids;
      var i :| 0 <= i < |ids| && ids[i] == id;
      assert jobs[i].id == id;
    }
    assert forall i | 0 <= i < |ids| :: ids[i] in ids;
  }

  lemma NoCompletion(s: Platform)
    ensures CompleteAll(s, []) == s && CompletionsInOrder(s.clock, [])
  {}

  lemma CompletionAppended(s: Platform, jobs: seq<CompletionJob>, job: CompletionJob)
    requires CompletionsInOrder(s.clock, jobs) && s.clock <= job.first <= job.second
    requires forall k | 0 <= k < |jobs| :: jobs[k].second <= job.first
    ensures CompletionsInOrder(s.clock, jobs + [job])
    ensures CompleteAll(s, jobs + [job]) == CompleteOne(CompleteAll(s, jobs), job)
  {
    assert (jobs + [job])[..|jobs|] == jobs;
  }

  /** A purge reads nothing of the clock. */
  lemma SamePurge(s: Platform, caller: OperatorId, now: Time)
    ensures Next(s, OperatorCall(caller, now, PurgeCall)) == At(Ops.Purge(s, caller), now)
  {
    var ids := RequestsToPurge(s, caller);
    assert RequestsToPurge(At(s, now), caller) == ids;
    assert NumbersToRestore(At(s, now), ids) == NumbersToRestore(s, ids);
  }

  lemma PurgedTables(s: Platform, caller: OperatorId)
    ensures var ids, s' := RequestsToPurge(s, caller), Ops.Purge(s, caller);
      && s' == s.(requests := s'.requests, reverses := s'.reverses, registry := s'.registry)
      && s'.requests == (map id | id in s.requests && id !in ids :: s.requests[id])
      && s'.reverses == (map rid | rid in s.reverses && !ReversePurged(s.reverses[rid], caller, ids) :: s.reverses[rid])
      && s'.registry == Restored(s.registry, NumbersToRestore(s, ids))
  {
    hide RequestsToPurge, NumbersToRestore, Restored, ReversePurged;
  }

  class Store {
    const market: Market
    const convergenceMin: nat
    const convergenceMax: int
    const stepTimeout: Time
    const reverseAutoValidation: Time

    var clock: Time
    var nextId: int
    var frozen: bool
    var requests: map<RequestId, Dossier>
    var registry: Registry
    var reverses: map<RequestId, ReverseRequest>

    /** The tables as a value. */
    ghost function Snapshot(): Platform
      reads this
    {
      Platform(market, clock, nextId, frozen, requests, registry, reverses)
    }

    constructor (market: Market, registry: Registry, convergenceMin: nat, convergenceMax: int, stepTimeout: Time,
        autoValidation: Time)
      ensures Snapshot() == Platform(market, 0, 0, false, map[], registry, map[])
    {
      this.market := market;
      this.convergenceMin, this.convergenceMax := convergenceMin, convergenceMax;
      this.stepTimeout, this.reverseAutoValidation := stepTimeout, autoValidation;
      this.registry := registry;
      clock, nextId, frozen := 0, 0, false;
      requests, reverses := map[], map[];
    }

    // ---- Clock, identifiers, rows ---------------------------------------------------

    /** The one clock of the process and of the database: it never goes back. */
    method Now() returns (now: Time)
      modifies this`clock
      ensures now == clock >= old(clock)
    {
      var elapsed: nat :| true;
      clock := clock + elapsed;
      now := clock;
    }

    method NewId() returns (id: RequestId)
      modifies this`nextId
      ensures id == old(nextId) && nextId == id + 1
    {
      id := nextId;
      nextId := nextId + 1;
    }

    /** Drains the rows of an answer, in whatever order the database gives them. */
    method ScanIds(answer: set<RequestId>) returns (ids: seq<RequestId>)
      ensures forall id :: id in ids <==> id in answer
      ensures forall i, j | 0 <= i < j < |ids| :: ids[i] != ids[j]
    {
      ids := [];
      var rows := answer;
      while exists row :: row in rows
        invariant rows <= answer
        invariant forall id :: id in ids <==> id in answer - rows
        invariant forall i, j | 0 <= i < j < |ids| :: ids[i] != ids[j]
        decreases rows
      {
        var id :| id in rows;
        assert id !in ids;
        ids := ids + [id];
        rows := rows - {id};
      }
    }

    // ---- Statements on one request ----------------------------------------------------

    method CloseCurrentStep(id: RequestId, closed: StepStatus, origin: Origin, operator: Option<OperatorId>, now: Time)
      requires id in requests
      modifies this`requests
      ensures requests == old(requests)[id := old(requests[id]).(history := old(requests[id]).history
                + [HistoryRow(old(requests[id]).request.step, closed, origin, operator,
                    old(requests[id]).request.stepStart, now)])]
    {
      var d := requests[id];
      var row := HistoryRow(d.request.step, closed, origin, operator, d.request.stepStart, now);
      requests := requests[id := d.(history := d.history + [row])];
    }

    method CompleteRequest(id: RequestId, closed: StepStatus, now: Time)
      requires id in requests
      modifies this`requests
      ensures requests == old(requests)[id := old(requests[id]).(request := old(requests[id]).request.(
                status := RequestCompleted, stepStatus := closed, endedAt := Some(now), deadline := None))]
    {
      var r := requests[id].request;
      var r' := r.(status := RequestCompleted, stepStatus := closed, endedAt := Some(now), deadline := None);
      requests := requests[id := requests[id].(request := r')];
    }

    method AdvanceStep(id: RequestId, next: Step, now: Time)
      requires id in requests
      modifies this`requests
      ensures requests == old(requests)[id := old(requests[id]).(request := old(requests[id]).request.(
                step := next, stepStatus := StepInProgress, stepStart := now, deadline := None))]
    {
      var r := requests[id].request;
      var r' := r.(step := next, stepStatus := StepInProgress, stepStart := now, deadline := None);
      requests := requests[id := requests[id].(request := r')];
    }

    method TransferToRegistry(id: RequestId, recipient: OperatorId, now: Time)
      requires id in requests
      modifies this`registry
      ensures var moved := set n | n in requests[id].numbers && Active(requests[id], n);
        registry == Transfer(old(registry), moved, recipient, false, now)
    {
      var moved := set n | n in requests[id].numbers && Active(requests[id], n);
      registry := map n | n in registry ::
        if n in moved then registry[n].(holder := recipient, lastPorting := Some(now)) else registry[n];
    }

    method ApplyRouting(id: RequestId, source: Option<Prefix>, recipient: Option<Prefix>)
      requires id in requests
      modifies this`requests
      ensures requests == old(requests)[id := old(requests[id]).(
                numbers := Rerouted(old(requests[id]).numbers, source, recipient),
                request := old(requests[id]).request.(routing := recipient))]
    {
      var d := requests[id];
      var rows := map n | n in d.numbers ::
        var row := d.numbers[n];
        row.(routing := if row.status == RowRejected || row.exclusion.Some? then source else recipient);
      requests := requests[id := d.(numbers := rows, request := d.request.(routing := recipient))];
    }

    method ApplyEndOfRequestRestitution(id: RequestId, msisdn: Msisdn, recipient: OperatorId, prefix: Option<Prefix>,
        now: Time)
      requires id in requests
      modifies this`requests, this`registry
      ensures registry == Transfer(old(registry), {msisdn}, recipient, true, now)
      ensures requests
          == old(requests)[id := old(requests[id]).(request := old(requests[id]).request.(routing := prefix))]
    {
      if msisdn in registry {
        var e := registry[msisdn];
        registry := registry[msisdn := e.(holder := recipient, lastPorting := Some(now), restituted := true)];
      }
      requests := requests[id := requests[id].(request := requests[id].request.(routing := prefix))];
      assert registry == Transfer(old(registry), {msisdn}, recipient, true, now);
    }

    method ScheduleTransitionAt(id: RequestId, delay: nat)
      modifies this`requests
      ensures Snapshot() == Ops.ScheduleTransition(old(Snapshot()), id, Deferred(delay))
    {
      if id in requests {
        requests := requests[id := requests[id].(request := requests[id].request.(deadline := Some(clock + delay)))];
      }
    }

    // ---- Transitions --------------------------------------------------------------------

    /** Closes the current step and moves the request on: history, registry, routing and
      request row, statement after statement. */
    method ApplyTransition(id: RequestId, origin: Origin)
      modifies this`requests, this`registry
      ensures Snapshot() == Ops.ApplyTransition(old(Snapshot()), id, origin)
    {
      if id !in requests || requests[id].request.status != RequestInProgress {
        return;
      }
      ghost var s := Snapshot();
      var r := requests[id].request;
      var now := clock;
      var closed := if origin == Expiration then StepExpired else StepCompleted;
      CloseCurrentStep(id, closed, origin, None, now);
      var next := NextStep(r.step);
      if next.None? {
        if r.kind != Porting {
          ApplyEndOfRequestRestitution(id, r.msisdn, r.recipient, RoutingPrefix(market, r.recipient), now);
        }
        CompleteRequest(id, closed, now);
      } else {
        if r.step == Activation && r.kind == Porting {
          assert (set n | n in requests[id].numbers && Active(requests[id], n)) == Departing(s.requests[id]);
          TransferToRegistry(id, r.recipient, now);
          ApplyRouting(id, RoutingPrefix(market, r.source), RoutingPrefix(market, r.recipient));
        }
        AdvanceStep(id, next.value, now);
      }
      SameTransition(s, requests, registry, id, origin);
    }

    /** A closed window applies the transition at once; an open one draws a delay from it. */
    method ScheduleTransition(id: RequestId) returns (window: Window)
      modifies this`requests, this`registry
      ensures Snapshot() == Ops.ScheduleTransition(old(Snapshot()), id, window)
      ensures window.Immediate? <==> convergenceMax <= 0
      ensures window.Deferred? ==> convergenceMin <= window.delay
      ensures window.Deferred? && convergenceMin < convergenceMax ==> window.delay < convergenceMax
      ensures window.Deferred? && convergenceMin >= convergenceMax ==> window.delay == convergenceMin
    {
      if convergenceMax <= 0 {
        ApplyTransition(id, Action);
        window := Immediate;
        return;
      }
      var delay := convergenceMin;
      var spread := convergenceMax - convergenceMin;
      if spread > 0 {
        var drawn: nat :| drawn < spread;
        delay := delay + drawn;
      }
      ScheduleTransitionAt(id, delay);
      window := Deferred(delay);
    }

    // ---- The operators' calls -------------------------------------------------------------

    method Reject(id: RequestId, caller: OperatorId, now: Time)
      requires id in requests
      modifies this`requests
      ensures requests == old(requests)[id := Ops.Reject(old(requests[id]), caller, now)]
    {
      CloseCurrentStep(id, StepCompleted, Action, Some(caller), now);
      var r := requests[id].request;
      var r' := r.(status := RequestRejected, stepStatus := StepCompleted, endedAt := Some(now));
      requests := requests[id := requests[id].(request := r')];
    }

    method Accept(caller: OperatorId, id: RequestId, accept: bool, reason: Option<ReasonId>)
        returns (fault: Option<Fault>, window: Window)
      modifies this
      ensures old(clock) <= clock
      ensures fault == AcceptFault(At(old(Snapshot()), clock), caller, id, accept, reason)
      ensures Snapshot() == Next(old(Snapshot()), OperatorCall(caller, clock, AcceptCall(id, accept, reason, window)))
    {
      var now := Now();
      fault, window := None, Immediate;
      if frozen {
        return Some(MarketFrozen), window;
      }
      if id !in requests {
        return Some(RequestNotFound), window;
      }
      fault := CanAccept(requests[id].request, caller);
      if fault.Some? {
        return;
      }
      if !ReasonValid(market, reason) {
        return Some(ValidationFailed), window;
      }
      if !accept {
        if reason.None? {
          return Some(RejectionReasonRequired), window;
        }
        Reject(id, caller, now);
      } else {
        window := ScheduleTransition(id);
      }
    }

    method AcceptFleet(caller: OperatorId, id: RequestId, accept: bool, rejected: seq<RejectedNumber>,
        reason: Option<ReasonId>)
      returns (fault: Option<Fault>, window: Window)
      modifies this
      ensures old(clock) <= clock
      ensures fault == AcceptFleetFault(At(old(Snapshot()), clock), caller, id, accept, rejected, reason)
      ensures Snapshot() == Next(old(Snapshot()),
          OperatorCall(caller, clock, AcceptFleetCall(id, accept, rejected, reason, window)))
    {
      hide Ops.ScheduleTransition, Ops.Reject, RejectNumbers, RejectionsValid, CanAccept, ReasonValid;
      var now := Now();
      fault, window := None, Immediate;
      if frozen {
        return Some(MarketFrozen), window;
      }
      if id !in requests {
        return Some(RequestNotFound), window;
      }
      fault := CanAccept(requests[id].request, caller);
      if fault.Some? {
        return;
      }
      if !ReasonValid(market, reason) {
        return Some(ValidationFailed), window;
      }
      if !accept {
        if reason.None? {
          return Some(RejectionReasonRequired), window;
        }
        Reject(id, caller, now);
        return;
      }
      // A refusal from here on must find the rows as they were.
      var valid := CheckRejections(id, rejected);
      if !valid {
        return Some(ValidationFailed), window;
      }
      RejectEach(id, rejected);
      if !HasActiveNumber(requests[id]) {
        Reject(id, caller, now);
      } else {
        window := ScheduleTransition(id);
      }
    }

    method CheckRejections(id: RequestId, rejected: seq<RejectedNumber>) returns (valid: bool)
      requires id in requests
      ensures valid <==> RejectionsValid(market, requests[id], rejected)
    {
      for i := 0 to |rejected|
        invariant forall k | 0 <= k < i ::
            rejected[k].msisdn in requests[id].numbers && ReasonValid(market, rejected[k].reason)
      {
        if rejected[i].msisdn !in requests[id].numbers || !ReasonValid(market, rejected[i].reason) {
          assert rejected[i] in rejected;
          return false;
        }
      }
      return true;
    }

    method RejectEach(id: RequestId, rejected: seq<RejectedNumber>)
      requires id in requests
      modifies this`requests
      ensures requests == old(requests)[id := RejectNumbers(old(requests[id]), rejected)]
    {
      ghost var d := requests[id];
      for i := 0 to |rejected|
        invariant requests == old(requests)[id := RejectNumbers(d, rejected[..i])]
      {
        assert rejected[..i + 1][..i] == rejected[..i];
        RejectNumber(id, rejected[i].msisdn);
      }
      assert rejected[..|rejected|] == rejected;
    }

    method RejectNumber(id: RequestId, msisdn: Msisdn)
      requires id in requests
      modifies this`requests
      ensures requests == old(requests)[id := Ops.RejectNumber(old(requests[id]), msisdn)]
    {
      var d := requests[id];
      if msisdn in d.numbers {
        requests := requests[id := d.(numbers := d.numbers[msisdn := d.numbers[msisdn].(status := RowRejected)])];
      }
    }

    /** Walks the operator table and skips the recipient of a porting. */
    method ListExpectedConfirmers(r: Request) returns (expected: seq<OperatorId>)
      ensures expected == ExpectedConfirmers(r, market.operators)
    {
      expected := [];
      for i := 0 to |market.operators|
        invariant expected == ExpectedConfirmers(r, market.operators[..i])
      {
        assert market.operators[..i + 1][..i] == market.operators[..i];
        var op := market.operators[i];
        if r.kind == Porting && op == r.recipient {
          continue;
        }
        expected := expected + [op];
      }
      assert market.operators[..|market.operators|] == market.operators;
    }

    method Confirm(caller: OperatorId, id: RequestId) returns (fault: Option<Fault>, window: Window)
      modifies this
      ensures old(clock) <= clock
      ensures fault == ConfirmFault(At(old(Snapshot()), clock), caller, id)
      ensures Snapshot() == Next(old(Snapshot()), OperatorCall(caller, clock, ConfirmCall(id, window)))
    {
      var now := Now();
      fault, window := None, Immediate;
      if frozen {
        return Some(MarketFrozen), window;
      }
      if id !in requests {
        return Some(RequestNotFound), window;
      }
      var d := requests[id];
      if d.request.status != RequestInProgress || d.request.step != Confirmation {
        return Some(InvalidStep), window;
      }
      if d.request.deadline.Some? {
        return Some(InvalidStep), window;
      }
      var expected := ListExpectedConfirmers(d.request);
      var awaited := false;
      for i := 0 to |expected|
        invariant !awaited && caller !in expected[..i]
      {
        if expected[i] == caller {
          awaited := true;
          break;
        }
      }
      if !awaited {
        return Some(RequestAccessDenied), window;
      }
      if caller in d.confirmers {
        return Some(RequestAccessDenied), window;
      }
      requests := requests[id := d.(confirmers := d.confirmers + {caller})];
      var count := |requests[id].confirmers|;
      if count >= |expected| {
        window := ScheduleTransition(id);
      }
    }

    method Process(caller: OperatorId, id: RequestId) returns (fault: Option<Fault>, window: Window)
      modifies this
      ensures old(clock) <= clock
      ensures fault == ProcessFault(At(old(Snapshot()), clock), caller, id)
      ensures Snapshot() == Next(old(Snapshot()), OperatorCall(caller, clock, ProcessCall(id, window)))
    {
      var now := Now();
      fault, window := None, Immediate;
      if frozen {
        return Some(MarketFrozen), window;
      }
      if id !in requests {
        return Some(RequestNotFound), window;
      }
      fault := CanProcess(requests[id].request, caller);
      if fault.None? {
        window := ScheduleTransition(id);
      }
    }

    /** Authorizes on a read, then writes under a guard on the step that was read. */
    method Cancel(caller: OperatorId, id: RequestId) returns (fault: Option<Fault>)
      modifies this
      ensures old(clock) <= clock
      ensures fault == CancelFault(At(old(Snapshot()), clock), caller, id)
      ensures Snapshot() == Next(old(Snapshot()), OperatorCall(caller, clock, CancelCall(id)))
    {
      var now := Now();
      if id !in requests {
        return Some(RequestNotFound);
      }
      fault := CanCancel(requests[id].request, caller);
      if fault.Some? {
        return;
      }
      var written := WriteCancel(id, caller, requests[id].request.step, now);
    }

    /** Cancel's two statements: no row matches, no row is written. */
    method WriteCancel(id: RequestId, caller: OperatorId, expected: Step, now: Time) returns (written: bool)
      requires id in requests
      modifies this`requests
      ensures written <==> CancelWrite(old(requests[id]), expected, caller, now).Some?
      ensures !written ==> requests == old(requests)
      ensures written ==> requests == old(requests)[id := CancelWrite(old(requests[id]), expected, caller, now).value]
    {
      if requests[id].request.step == expected {
        CloseCurrentStep(id, StepCompleted, Action, Some(caller), now);
      }
      written := requests[id].request.step == expected;
      if written {
        var r := requests[id].request;
        var r' := r.(status := RequestCancelled, stepStatus := StepCompleted, endedAt := Some(now), deadline := None);
        requests := requests[id := requests[id].(request := r')];
      }
    }

    // ---- Creations --------------------------------------------------------------------------

    /** The registry's view of a number, with the flag computed over the requests. */
    method ReadState(msisdn: Msisdn) returns (state: Option<NumberState>)
      ensures state == if msisdn in registry then Some(State(Snapshot(), msisdn)) else None
    {
      if msisdn !in registry {
        return None;
      }
      var e := registry[msisdn];
      var inProgress := RequestInProgressFor(requests, msisdn);
      return Some(NumberState(e.holder, e.origin, e.lastPorting, e.restituted, inProgress));
    }

    method InsertRequest(r: Request, numbers: map<Msisdn, NumberRow>) returns (id: RequestId)
      modifies this`requests, this`nextId
      ensures Snapshot() == Insert(old(Snapshot()), NewDossier(r, numbers)) && id == old(nextId)
    {
      id := NewId();
      requests := requests[id := Dossier(r, numbers, [], {})];
    }

    method CreateIndividual(caller: OperatorId, msisdn: Msisdn, source: OperatorId, recipient: OperatorId, otp: bool)
      returns (fault: Option<Fault>)
      modifies this
      ensures old(clock) <= clock
      ensures fault == CreateIndividualFault(At(old(Snapshot()), clock), caller, msisdn, source, recipient, otp)
      ensures Snapshot() == Next(old(Snapshot()),
          OperatorCall(caller, clock, CreateIndividualCall(msisdn, source, recipient, otp)))
    {
      var now := Now();
      if recipient != caller {
        return Some(RequestAccessDenied);
      }
      if !otp {
        return Some(OtpInvalid);
      }
      var state := ReadState(msisdn);
      if state.None? {
        return Some(IncorrectSourceOperator);
      }
      fault := CheckPortingEligibility(state.value, source, recipient, now);
      if fault.Some? {
        return;
      }
      var prefix := RoutingPrefix(market, source);
      if prefix.None? {
        return Some(ValidationFailed);
      }
      var r := NewRequest(msisdn, Individual, Porting, Acceptance, source, recipient, prefix, now);
      var id := InsertRequest(r, map[msisdn := NumberRow(RowInProgress, None, 0, prefix)]);
    }

    method CreateRestitution(caller: OperatorId, msisdn: Msisdn) returns (fault: Option<Fault>)
      modifies this
      ensures old(clock) <= clock
      ensures fault == CreateRestitutionFault(At(old(Snapshot()), clock), caller, msisdn)
      ensures Snapshot() == Next(old(Snapshot()), OperatorCall(caller, clock, CreateRestitutionCall(msisdn)))
    {
      var now := Now();
      var state := ReadState(msisdn);
      if state.None? {
        return Some(IncorrectSourceOperator);
      }
      if state.value.origin != caller {
        return Some(RequestAccessDenied);
      }
      fault := CheckRestitutionEligibility(state.value, now);
      if fault.Some? {
        return;
      }
      var r := NewRequest(msisdn, Individual, Restitution, Acceptance, state.value.holder, state.value.origin, None,
          now);
      var id := InsertRequest(r, map[msisdn := NumberRow(RowInProgress, None, 0, None)]);
    }

    /** Drops every number already met earlier in the list. */
    method DeduplicateFleet(numbers: seq<Msisdn>) returns (distinct: seq<Msisdn>)
      ensures distinct == Deduplicate(numbers)
    {
      distinct := [];
      var seen: set<Msisdn> := {};
      for i := 0 to |numbers|
        invariant distinct == Deduplicate(numbers[..i])
        invariant forall n :: n in seen <==> n in distinct
      {
        assert numbers[..i + 1][..i] == numbers[..i];
        var n := numbers[i];
        if n in seen {
          continue;
        }
        seen := seen + {n};
        distinct := distinct + [n];
      }
      assert numbers[..|numbers|] == numbers;
    }

    /** The state of every number, or nothing when one of them is unknown. */
    method ReadStates(numbers: seq<Msisdn>) returns (states: Option<map<Msisdn, NumberState>>)
      ensures states.Some? <==> AllKnown(Snapshot(), numbers)
      ensures states.Some? ==> forall k | 0 <= k < |numbers| ::
                numbers[k] in states.value && states.value[numbers[k]] == State(Snapshot(), numbers[k])
    {
      var read: map<Msisdn, NumberState> := map[];
      for i := 0 to |numbers|
        invariant forall k | 0 <= k < i ::
          numbers[k] in registry && numbers[k] in read && read[numbers[k]] == State(Snapshot(), numbers[k])
      {
        var state := ReadState(numbers[i]);
        if state.None? {
          return None;
        }
        read := read[numbers[i] := state.value];
      }
      states := Some(read);
    }

    /** Splits a fleet into the numbers it keeps and those it leaves out, with the reason. */
    method PartitionFleet(numbers: seq<Msisdn>, states: map<Msisdn, NumberState>, source: OperatorId,
        recipient: OperatorId)
      returns (retained: seq<Msisdn>, excluded: seq<ExcludedNumber>)
      requires AllKnown(Snapshot(), numbers)
      requires forall k | 0 <= k < |numbers| ::
          numbers[k] in states && states[numbers[k]] == State(Snapshot(), numbers[k])
      ensures retained == Retained(Snapshot(), numbers, source, recipient)
      ensures excluded == Excluded(Snapshot(), numbers, source, recipient)
    {
      retained, excluded := [], [];
      for i := 0 to |numbers|
        invariant AllKnown(Snapshot(), numbers[..i])
        invariant retained == Retained(Snapshot(), numbers[..i], source, recipient)
        invariant excluded == Excluded(Snapshot(), numbers[..i], source, recipient)
      {
        assert numbers[..i + 1][..i] == numbers[..i];
        var f := CheckPortingEligibility(states[numbers[i]], source, recipient, clock);
        if f.Some? {
          excluded := excluded + [ExcludedNumber(numbers[i], f.value)];
          continue;
        }
        retained := retained + [numbers[i]];
      }
      assert numbers[..|numbers|] == numbers;
    }

    /** The guards of a fleet's creation, in order, and on success its partition. */
    method AuthorizeFleet(caller: OperatorId, source: OperatorId, recipient: OperatorId, numbers: seq<Msisdn>,
        otp: bool)
      returns (fault: Option<Fault>, retained: seq<Msisdn>, excluded: seq<ExcludedNumber>)
      ensures fault == CreateFleetFault(Snapshot(), caller, source, recipient, numbers, otp)
      ensures fault.None? ==> AllKnown(Snapshot(), Deduplicate(numbers))
      ensures fault.None? ==> retained == Retained(Snapshot(), Deduplicate(numbers), source, recipient)
      ensures fault.None? ==> excluded == Excluded(Snapshot(), Deduplicate(numbers), source, recipient)
    {
      fault, retained, excluded := None, [], [];
      if |numbers| == 0 {
        return Some(FleetEmpty), retained, excluded;
      }
      if recipient != caller {
        return Some(RequestAccessDenied), retained, excluded;
      }
      if !otp {
        return Some(OtpInvalid), retained, excluded;
      }
      var distinct := DeduplicateFleet(numbers);
      hide Deduplicate, Retained, Excluded, RequestInProgressFor, RoutingPrefix;
      var states := ReadStates(distinct);
      if states.None? {
        return Some(IncorrectSourceOperator), retained, excluded;
      }
      var mixed := HoldersDiffer(distinct, states.value);
      if mixed {
        return Some(FleetMixedOperators), retained, excluded;
      }
      retained, excluded := PartitionFleet(distinct, states.value, source, recipient);
      if |retained| == 0 {
        return Some(NoEligibleNumber), retained, excluded;
      }
      if RoutingPrefix(market, source).None? {
        return Some(ValidationFailed), retained, excluded;
      }
    }

    /** Whether some number has another holder than the first. */
    method HoldersDiffer(numbers: seq<Msisdn>, states: map<Msisdn, NumberState>) returns (differ: bool)
      requires AllKnown(Snapshot(), numbers)
      requires forall k | 0 <= k < |numbers| ::
          numbers[k] in states && states[numbers[k]] == State(Snapshot(), numbers[k])
      ensures differ <==> !SameHolder(Snapshot(), numbers)
    {
      for i := 0 to |numbers|
        invariant forall k | 0 <= k < i :: registry[numbers[k]].holder == registry[numbers[0]].holder
      {
        if states[numbers[i]].holder != states[numbers[0]].holder {
          return true;
        }
      }
      return false;
    }

    method CreateFleet(caller: OperatorId, carrier: Msisdn, source: OperatorId, recipient: OperatorId,
        numbers: seq<Msisdn>, otp: bool)
      returns (fault: Option<Fault>, read: seq<Msisdn>, count: int, excluded: seq<ExcludedNumber>)
      modifies this
      ensures old(clock) <= clock
      ensures fault == CreateFleetFault(At(old(Snapshot()), clock), caller, source, recipient, numbers, otp)
      ensures Snapshot() == Next(old(Snapshot()),
          OperatorCall(caller, clock, CreateFleetCall(carrier, source, recipient, numbers, otp)))
      ensures fault.None? ==> old(nextId) in requests && IsListing(requests[old(nextId)], read)
      ensures fault.None? ==> AllKnown(old(Snapshot()), Deduplicate(numbers)) && count == |numbers| - |excluded|
      ensures fault.None? ==> excluded == Excluded(At(old(Snapshot()), clock), Deduplicate(numbers), source, recipient)
    {
      var now := Now();
      var retained;
      fault, retained, excluded := AuthorizeFleet(caller, source, recipient, numbers, otp);
      read, count := [], |numbers| - |excluded|;
      if fault.None? {
        hide CreateFleetFault, Deduplicate, Retained, Excluded, FleetRows, IsListing;
        var prefix := RoutingPrefix(market, source);
        var rows := StoreFleetRows(retained, excluded, prefix);
        var id := InsertRequest(NewRequest(carrier, Enterprise, Porting, Acceptance, source, recipient, prefix, now),
            rows);
        read := FleetNumbers(id);
      }
    }

    /** One insertion per retained number, then one per excluded number. */
    method StoreFleetRows(retained: seq<Msisdn>, excluded: seq<ExcludedNumber>, prefix: Option<Prefix>)
        returns (rows: map<Msisdn, NumberRow>)
      ensures rows == FleetRows(retained, excluded, prefix)
    {
      rows := map[];
      for position := 0 to |retained|
        invariant rows == RetainedRows(retained[..position], prefix)
      {
        assert retained[..position + 1][..position] == retained[..position];
        rows := rows[retained[position] := NumberRow(RowInProgress, None, position, prefix)];
      }
      assert retained[..|retained|] == retained;
      for i := 0 to |excluded|
        invariant rows == FleetRows(retained, excluded[..i], prefix)
      {
        assert excluded[..i + 1][..i] == excluded[..i];
        rows := rows[excluded[i].msisdn := NumberRow(RowRejected, Some(excluded[i].code), 0, None)];
      }
      assert excluded[..|excluded|] == excluded;
    }

    /** The numbers of a fleet not excluded at creation, by position, then by number:
      each row of the ordered answer is the first of those still to come. */
    method FleetNumbers(id: RequestId) returns (numbers: seq<Msisdn>)
      requires id in requests
      ensures IsListing(requests[id], numbers)
    {
      var d := requests[id];
      var rows := set n | n in d.numbers && d.numbers[n].exclusion.None?;
      numbers := [];
      while exists row :: row in rows
        invariant rows <= d.numbers.Keys
        invariant forall n :: n in d.numbers && d.numbers[n].exclusion.None? <==> n in rows || n in numbers
        invariant forall n | n in numbers :: n in d.numbers && n !in rows
        invariant forall i, j | 0 <= i < j < |numbers| :: Before(d, numbers[i], numbers[j])
        invariant forall n, k | n in numbers && k in rows :: Before(d, n, k)
        decreases rows
      {
        var first := FirstRow(d, rows);
        numbers := numbers + [first];
        rows := rows - {first};
      }
    }

    method FirstRow(d: Dossier, rows: set<Msisdn>) returns (first: Msisdn)
      requires rows <= d.numbers.Keys && exists n :: n in rows
      ensures first in rows && forall n | n in rows && n != first :: Before(d, first, n)
    {
      first :| first in rows;
      var rest := rows - {first};
      while exists row :: row in rest
        invariant rest <= rows && first in rows && first !in rest
        invariant forall n | n in rows && n !in rest && n != first :: Before(d, first, n)
        decreases rest
      {
        var n :| n in rest;
        if Before(d, n, first) {
          first := n;
        }
        rest := rest - {n};
      }
    }

    // ---- Reverse requests ---------------------------------------------------------------------

    method SubmitReverse(caller: OperatorId, msisdn: Msisdn) returns (fault: Option<Fault>)
      modifies this
      ensures old(clock) <= clock
      ensures fault == SubmitReverseFault(At(old(Snapshot()), clock), caller, msisdn)
      ensures Snapshot() == Next(old(Snapshot()), OperatorCall(caller, clock, SubmitReverseCall(msisdn)))
    {
      var now := Now();
      var state := ReadState(msisdn);
      if state.None? {
        return Some(IncorrectSourceOperator);
      }
      if state.value.origin != caller {
        return Some(RequestAccessDenied);
      }
      if state.value.holder == state.value.origin {
        return Some(NumberNotPorted);
      }
      var id := NewId();
      reverses := reverses[id := ReverseRequest(msisdn, caller, ReversePending, now, None)];
      fault := None;
    }

    method ValidateReverse(reverseId: RequestId)
      modifies this`requests, this`reverses, this`nextId
      ensures Snapshot() == Ops.ValidateReverse(old(Snapshot()), reverseId)
    {
      if reverseId !in reverses || reverses[reverseId].status != ReversePending {
        return;
      }
      var rr := reverses[reverseId];
      if rr.msisdn !in registry {
        return;
      }
      var r := NewRequest(rr.msisdn, Individual, Reverse, Confirmation, registry[rr.msisdn].holder, rr.operator,
          None, clock);
      var id := InsertRequest(r, map[rr.msisdn := NumberRow(RowInProgress, None, 0, None)]);
      reverses := reverses[reverseId := rr.(status := ReverseValidated, request := Some(id))];
    }

    method RejectReverse(reverseId: RequestId)
      modifies this`reverses
      ensures Snapshot() == Ops.RejectReverse(old(Snapshot()), reverseId)
    {
      if reverseId in reverses && reverses[reverseId].status == ReversePending {
        reverses := reverses[reverseId := reverses[reverseId].(status := ReverseRejected)];
      }
    }

    // ---- The engine ---------------------------------------------------------------------------

    /** Plays one transition per id, each at the instant it is reached. */
    method TransitionEach(ids: seq<RequestId>, origin: Origin) returns (jobs: seq<Job>)
      modifies this
      ensures |jobs| == |ids| && forall i | 0 <= i < |ids| :: jobs[i].id == ids[i]
      ensures InOrder(old(clock), jobs)
      ensures Snapshot() == ApplyAll(old(Snapshot()), jobs, origin)
    {
      ghost var s := Snapshot();
      jobs := [];
      for i := 0 to |ids|
        invariant |jobs| == i && forall k | 0 <= k < i :: jobs[k].id == ids[k]
        invariant s.clock <= clock && InOrder(s.clock, jobs) && forall k | 0 <= k < i :: jobs[k].at <= clock
        invariant Snapshot() == ApplyAll(s, jobs, origin)
      {
        ghost var before := jobs;
        var now := Now();
        ApplyTransition(ids[i], origin);
        jobs := jobs + [Job(ids[i], now)];
        assert jobs[..i] == before;
      }
    }

    /** The first pass: the requests due at the instant of the query, by an action. */
    method ConvergePendingTransitions() returns (dueAt: Time, jobs: seq<Job>)
      modifies this
      ensures old(clock) <= dueAt && InOrder(dueAt, jobs)
      ensures Enumerates(jobs, DueConvergences(old(Snapshot()), dueAt))
      ensures Snapshot() == ApplyAll(At(old(Snapshot()), dueAt), jobs, Action)
    {
      dueAt := Now();
      var due := set id | id in requests && Due(requests[id], dueAt);
      var ids := ScanIds(due);
      jobs := TransitionEach(ids, Action);
      JobsEnumerate(jobs, ids, due);
    }

    /** The second pass: the requests overdue at `asOf` with nothing pending, by an
      expiration; nobody when the timeout is not positive. */
    method ExpireOverdueSteps(asOf: Time) returns (jobs: seq<Job>)
      modifies this
      ensures InOrder(old(clock), jobs)
      ensures Enumerates(jobs, if stepTimeout <= 0 then {} else OverdueSteps(old(Snapshot()), stepTimeout, asOf))
      ensures Snapshot() == ApplyAll(old(Snapshot()), jobs, Expiration)
    {
      if stepTimeout <= 0 {
        return [];
      }
      var overdue := set id | id in requests && Overdue(requests[id], stepTimeout, asOf);
      var ids := ScanIds(overdue);
      jobs := TransitionEach(ids, Expiration);
      JobsEnumerate(jobs, ids, overdue);
    }

    /** Stands in for the ARTP on every reverse request left pending too long. */
    method AutoValidate() returns (validateAt: Time, jobs: seq<Job>)
      modifies this
      ensures old(clock) <= validateAt && InOrder(validateAt, jobs)
      ensures Enumerates(jobs, if reverseAutoValidation <= 0 then {}
                               else OverdueForAutoValidation(old(Snapshot()), reverseAutoValidation, validateAt))
      ensures Snapshot() == ValidateAll(At(old(Snapshot()), validateAt), jobs)
    {
      if reverseAutoValidation <= 0 {
        return clock, [];
      }
      validateAt := Now();
      var overdue := set id | id in reverses && OverdueReverse(reverses[id], reverseAutoValidation, validateAt);
      var ids := ScanIds(overdue);
      ghost var s := Snapshot();
      jobs := [];
      for i := 0 to |ids|
        invariant |jobs| == i && forall k | 0 <= k < i :: jobs[k].id == ids[k]
        invariant validateAt <= clock && InOrder(validateAt, jobs) && forall k | 0 <= k < i :: jobs[k].at <= clock
        invariant Snapshot() == ValidateAll(s, jobs)
      {
        hide Ops.ValidateReverse;
        ghost var before := jobs;
        var now := Now();
        ValidateReverse(ids[i]);
        jobs := jobs + [Job(ids[i], now)];
        assert jobs[..i] == before;
      }
      JobsEnumerate(jobs, ids, overdue);
    }

    /** Two transitions from CONFIRMATION, one from COMPLETION, as the candidate was read. */
    method CompleteCandidate(id: RequestId, step: Step) returns (job: CompletionJob)
      modifies this
      ensures job.id == id && (job.fromConfirmation <==> step == Confirmation)
      ensures old(clock) <= job.first <= job.second == clock
      ensures Snapshot() == CompleteOne(old(Snapshot()), job)
    {
      var first := clock;
      if step == Confirmation {
        first := Now();
        ApplyTransition(id, Action);
      }
      var second := Now();
      ApplyTransition(id, Action);
      job := CompletionJob(id, step == Confirmation, first, second);
    }

    /** The candidates, with the step each was read at. */
    method ReadPendingCompletions() returns (ids: seq<RequestId>, steps: map<RequestId, Step>)
      ensures forall id :: id in ids <==> id in PendingReverseCompletions(Snapshot())
      ensures forall i, j | 0 <= i < j < |ids| :: ids[i] != ids[j]
      ensures forall i | 0 <= i < |ids| ::
          ids[i] in requests && ids[i] in steps && steps[ids[i]] == requests[ids[i]].request.step
    {
      var candidates := set id | id in requests && AwaitsArtp(requests[id], market);
      steps := map id | id in candidates :: requests[id].request.step;
      ids := ScanIds(candidates);
      assert forall i | 0 <= i < |ids| :: ids[i] in ids;
    }

    /** Pronounces the completions reserved to the ARTP. */
    method AutoComplete() returns (jobs: seq<CompletionJob>)
      modifies this
      ensures CompletionsInOrder(old(clock), jobs)
      ensures EnumeratesCompletions(jobs, old(Snapshot()))
      ensures Snapshot() == CompleteAll(old(Snapshot()), jobs)
    {
      ghost var s := Snapshot();
      var ids, steps := ReadPendingCompletions();
      hide CompleteOne, CompleteAll, CompletionsInOrder, AwaitsArtp, EnumeratesCompletions;
      jobs := [];
      NoCompletion(s);
      for i := 0 to |ids|
        invariant |jobs| == i
        invariant forall k | 0 <= k < i ::
            jobs[k].id == ids[k] && (jobs[k].fromConfirmation <==> steps[ids[k]] == Confirmation)
        invariant s.clock <= clock && CompletionsInOrder(s.clock, jobs)
        invariant forall k | 0 <= k < i :: jobs[k].second <= clock
        invariant Snapshot() == CompleteAll(s, jobs)
      {
        var job := CompleteCandidate(ids[i], steps[ids[i]]);
        CompletionAppended(s, jobs, job);
        jobs := jobs + [job];
      }
      CompletionsEnumerate(jobs, ids, s);
    }

    /** The four passes one after the other, or nothing at all under a freeze. The plan
      answered records what was read and in which order. */
    method Tick() returns (plan: TickPlan)
      modifies this
      ensures plan.timeout == stepTimeout && plan.autoValidation == reverseAutoValidation
      ensures TickPossible(old(Snapshot()), plan)
      ensures Snapshot() == Ops.Tick(old(Snapshot()), plan)
    {
      ghost var s := Snapshot();
      var start := Now();
      if frozen {
        return TickPlan(stepTimeout, reverseAutoValidation, start, start, start, [], [], [], []);
      }
      var dueAt, converge := ConvergePendingTransitions();
      ghost var s1 := Snapshot();
      var expire := ExpireOverdueSteps(start);
      ghost var s2 := Snapshot();
      var validateAt, validate := AutoValidate();
      ghost var s3 := Snapshot();
      var complete := AutoComplete();
      plan := TickPlan(stepTimeout, reverseAutoValidation, start, dueAt, validateAt, converge, expire, validate,
          complete);
      assert DueConvergences(At(s, start), dueAt) == DueConvergences(s, dueAt);
      assert s1 == Converged(s, plan) && s2 == Expired(s, plan) && s3 == Validated(s, plan);
    }

    // ---- The sandbox purge --------------------------------------------------------------------

    /** The purge of the caller's test data, in the order the foreign keys impose:
      reverse requests, then requests, then the registry. */
    method Purge(caller: OperatorId) returns (requestsDeleted: nat, numbersRestored: nat, reversesDeleted: nat)
      modifies this
      ensures old(clock) <= clock
      ensures Snapshot() == Next(old(Snapshot()), OperatorCall(caller, clock, PurgeCall))
      ensures requestsDeleted == |RequestsToPurge(old(Snapshot()), caller)|
      ensures var named := NumbersToRestore(old(Snapshot()), RequestsToPurge(old(Snapshot()), caller));
        numbersRestored == |named * old(registry).Keys|
      ensures reversesDeleted == |old(reverses).Keys - reverses.Keys|
    {
      PurgedTables(Snapshot(), caller);
      hide Ops.Purge, Next, RequestsToPurge, NumbersToRestore, Restored, ReversePurged;
      ghost var s := Snapshot();
      var ids := RequestIdsToPurge(caller);
      var numbers := ReadNumbersToRestore(ids);
      var now := Now();
      SamePurge(s, caller, now);
      ghost var purged := Ops.Purge(s, caller);
      reversesDeleted := DeleteReverseRequests(caller, ids);
      assert reverses == purged.reverses;
      requestsDeleted := DeleteRequests(ids);
      assert requests == purged.requests;
      numbersRestored := RestoreNumbers(numbers);
    }

    method RequestIdsToPurge(caller: OperatorId) returns (ids: set<RequestId>)
      ensures ids == RequestsToPurge(Snapshot(), caller) && ids <= requests.Keys
    {
      ids := set id | id in requests && requests[id].request.creator == caller;
    }

    method ReadNumbersToRestore(ids: set<RequestId>) returns (numbers: set<Msisdn>)
      requires ids <= requests.Keys
      ensures numbers == NumbersToRestore(Snapshot(), ids)
    {
      numbers := (set id | id in ids :: requests[id].request.msisdn)
                 + (set id, n | id in ids && n in requests[id].numbers :: n);
    }

    method DeleteReverseRequests(caller: OperatorId, ids: set<RequestId>) returns (deleted: nat)
      modifies this`reverses
      ensures reverses == map rid | rid in old(reverses) && !ReversePurged(old(reverses)[rid], caller, ids) ::
          old(reverses)[rid]
      ensures deleted == |old(reverses).Keys - reverses.Keys|
    {
      var theirs := set rid | rid in reverses && ReversePurged(reverses[rid], caller, ids);
      reverses := reverses - theirs;
      deleted := |theirs|;
      assert old(reverses).Keys - reverses.Keys == theirs;
    }

    method DeleteRequests(ids: set<RequestId>) returns (deleted: nat)
      modifies this`requests
      ensures requests == map id | id in old(requests) && id !in ids :: old(requests)[id]
      ensures ids <= old(requests).Keys ==> deleted == |ids|
    {
      var found := ids * requests.Keys;
      requests := requests - ids;
      deleted := |found|;
      assert ids <= old(requests).Keys ==> found == ids;
    }

    method RestoreNumbers(numbers: set<Msisdn>) returns (restored: nat)
      modifies this`registry
      ensures registry == Restored(old(registry), numbers)
      ensures restored == |numbers * old(registry).Keys|
    {
      registry := map n | n in registry ::
        if n in numbers then RegistryEntry(registry[n].origin, registry[n].origin, None, false) else registry[n];
      restored := |numbers * registry.Keys|;
      assert registry.Keys == old(registry).Keys;
    }

    // ---- The a-confirmer queue ------------------------------------------------------------------

    /** The earliest of the requests still to come. */
    method Earliest(rows: set<RequestId>) returns (first: RequestId)
      requires rows <= requests.Keys && exists id :: id in rows
      ensures first in rows
      ensures forall id | id in rows :: requests[first].request.createdAt <= requests[id].request.createdAt
    {
      first :| first in rows;
      var rest := rows - {first};
      while exists id :: id in rest
        invariant rest <= rows && first in rows
        invariant forall id | id in rows && id !in rest ::
            requests[first].request.createdAt <= requests[id].request.createdAt
        decreases rest
      {
        var id :| id in rest;
        if requests[id].request.createdAt < requests[first].request.createdAt {
          first := id;
        }
        rest := rest - {id};
      }
    }

    /** Drains an answer by request date; requests of one date come in any order. */
    method ScanByDate(answer: set<RequestId>) returns (ids: seq<RequestId>)
      requires answer <= requests.Keys
      ensures forall id :: id in ids <==> id in answer
      ensures ByDate(ids)
    {
      ids := [];
      var rows := answer;
      while exists id :: id in rows
        invariant rows <= answer
        invariant forall id :: id in ids <==> id in answer && id !in rows
        invariant ByDate(ids)
        invariant forall id, k | id in rows && 0 <= k < |ids| && ids[k] in requests ::
            requests[ids[k]].request.createdAt <= requests[id].request.createdAt
        decreases rows
      {
        var first := Earliest(rows);
        ids := ids + [first];
        rows := rows - {first};
      }
    }

    ghost predicate ByDate(ids: seq<RequestId>)
      reads this
    {
      && (forall i | 0 <= i < |ids| :: ids[i] in requests)
      && (forall i, j | 0 <= i < j < |ids| ::
            ids[i] != ids[j] && requests[ids[i]].request.createdAt <= requests[ids[j]].request.createdAt)
    }

    /** Walks the requests at CONFIRMATION, by date, past those the operator already
      confirmed or need not confirm. */
    method IdsToConfirm(operator: OperatorId) returns (ids: seq<RequestId>)
      ensures forall id :: id in ids <==> id in requests && ToConfirm(requests[id], market, operator)
      ensures ByDate(ids)
    {
      hide ExpectedConfirmers;
      var atConfirmation := set id | id in requests && InProgress(requests[id])
          && requests[id].request.step == Confirmation;
      var candidates := ScanByDate(atConfirmation);
      ids := [];
      for i := 0 to |candidates|
        invariant forall id ::
            id in ids <==> id in candidates[..i] && id in requests && ToConfirm(requests[id], market, operator)
        invariant ByDate(ids)
      {
        assert candidates[i] in candidates;
        assert candidates[..i + 1] == candidates[..i] + [candidates[i]];
        assert forall k | 0 <= k < |ids| :: ids[k] in ids && ids[k] in candidates[..i];
        var d := requests[candidates[i]];
        if operator in d.confirmers {
          continue;
        }
        var expected := ListExpectedConfirmers(d.request);
        if operator in expected {
          ids := ids + [candidates[i]];
        }
      }
      assert candidates[..|candidates|] == candidates;
    }

    // ---- Acts outside the API -------------------------------------------------------------------

    method ArtpValidates(reverseId: RequestId)
      modifies this
      ensures old(clock) <= clock && Snapshot() == Next(old(Snapshot()), Event.ArtpValidates(clock, reverseId))
    {
      var now := Now();
      ValidateReverse(reverseId);
    }

    method ArtpRejects(reverseId: RequestId)
      modifies this
      ensures old(clock) <= clock && Snapshot() == Next(old(Snapshot()), Event.ArtpRejects(clock, reverseId))
    {
      var now := Now();
      RejectReverse(reverseId);
    }

    /** An incident that freezes the system is declared, or the last one is resolved. */
    method ChangeFreeze(freeze: bool)
      modifies this
      ensures old(clock) <= clock && Snapshot() == Next(old(Snapshot()), IncidentChanges(clock, freeze))
    {
      var now := Now();
      frozen := freeze;
    }
  }
}
