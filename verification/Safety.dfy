/** Safety over whole runs: every event keeps the invariants, so every reachable
  state has them. */
module Safety {
  import opened Entities
  import opened Tables
  import opened Operations
  import opened Lifecycle
  import opened Invariants
  import opened Fleet

  // ---- Scheduling ----------------------------------------------------------------

  lemma QuietSameNumbers(d: Dossier, d': Dossier, m: Market, now: Time)
    requires Sound(d, m, now) && InProgress(d)
    requires d'.numbers.Keys == d.numbers.Keys && d'.history == d.history && d'.request.step == d.request.step
    requires InProgress(d') && d'.request == d.request.(deadline := d'.request.deadline)
    requires forall n :: Active(d', n) ==> Active(d, n)
    requires Ported(d) ==> d'.numbers == d.numbers
    ensures Quiet(d, d')
  {}

  /** Everybody's quorum stands, and this request's current step may be closed by
    an action. */
  ghost predicate QuorumBut(s: Platform, id: RequestId)
    requires id in s.requests
  {
    && (forall i | i in s.requests && i != id :: QuorumOk(s.requests[i], s.market))
    && QuorumHistory(s.requests[id], s.market)
    && (s.requests[id].request.step == Confirmation ==> Covered(s.requests[id], s.market))
  }

  lemma DeferKeeps(s: Platform, id: RequestId, deadline: Time, initial: Registry)
    requires Inv(s, initial) && id in s.requests && InProgress(s.requests[id])
    requires s.requests[id].request.kind == Reverse ==> s.requests[id].request.step == Confirmation
    ensures Inv(Put(s, id, WithDeadline(s.requests[id], deadline)), initial)
    ensures QuorumBut(s, id) ==> QuorumPlatform(Put(s, id, WithDeadline(s.requests[id], deadline)))
  {
    var d := s.requests[id];
    assert Sound(d, s.market, s.clock);
    ScheduleSound(d, s.market, s.clock, s.clock, deadline);
    QuietSameNumbers(d, WithDeadline(d, deadline), s.market, s.clock);
    hide Quiet, Sound, Inv;
    PutKeeps(s, id, WithDeadline(d, deadline), initial);
  }

  lemma ImmediateKeeps(s: Platform, id: RequestId, initial: Registry)
    requires Inv(s, initial) && id in s.requests
    ensures Inv(ApplyTransition(s, id, Action), initial)
    ensures QuorumBut(s, id) ==> QuorumPlatform(ApplyTransition(s, id, Action))
  {
    TransitionKeeps(s, id, Action, initial);
    if QuorumBut(s, id) {
      TransitionKeepsQuorum(s, id, Action);
    }
  }

  lemma ScheduleKeeps(s: Platform, id: RequestId, window: Window, initial: Registry)
    requires Inv(s, initial) && id in s.requests && InProgress(s.requests[id])
    requires s.requests[id].request.kind == Reverse ==> s.requests[id].request.step == Confirmation
    ensures Inv(ScheduleTransition(s, id, window), initial)
    ensures QuorumBut(s, id) ==> QuorumPlatform(ScheduleTransition(s, id, window))
  {
    hide Inv, QuorumBut, QuorumPlatform;
    match window
    case Immediate => ImmediateKeeps(s, id, initial);
    case Deferred(delay) => DeferKeeps(s, id, s.clock + delay, initial);
  }

  // ---- The operators' calls on an existing request ----------------------------------

  lemma WithdrawnQuiet(d: Dossier, rejected: seq<RejectedNumber>, status: RequestStatus, caller: OperatorId, now: Time)
    requires InProgress(d) && d.request.step == Acceptance && d.request.kind != Reverse
    requires status == RequestRejected || status == RequestCancelled
    ensures Quiet(d, Withdrawn(RejectNumbers(d, rejected), status, caller, now))
  {
    RejectNumbersEffect(d, rejected);
  }

  lemma RejectThenWithdraw(d: Dossier, rejected: seq<RejectedNumber>, m: Market, status: RequestStatus,
      caller: OperatorId, now: Time)
    requires Sound(d, m, now) && InProgress(d) && d.request.step == Acceptance
    requires status == RequestRejected || status == RequestCancelled
    ensures var d' := Withdrawn(RejectNumbers(d, rejected), status, caller, now);
      Sound(d', m, now) && Quiet(d, d') && (QuorumOk(d, m) ==> QuorumOk(d', m))
  {
    RejectNumbersSound(d, m, rejected, now);
    RejectNumbersEffect(d, rejected);
    WithdrawnSound(RejectNumbers(d, rejected), m, status, caller, now, now);
    WithdrawnQuiet(d, rejected, status, caller, now);
    hide Quiet;
  }

  lemma WithdrawKeeps(
    s: Platform, id: RequestId, rejected: seq<RejectedNumber>, caller: OperatorId, status: RequestStatus,
    initial: Registry)
    requires Inv(s, initial) && id in s.requests
    requires InProgress(s.requests[id]) && s.requests[id].request.step == Acceptance
    requires status == RequestRejected || status == RequestCancelled
    ensures var s' := Put(s, id, Withdrawn(RejectNumbers(s.requests[id], rejected), status, caller, s.clock));
      Inv(s', initial) && (QuorumPlatform(s) ==> QuorumPlatform(s'))
    ensures s.requests[id].request.deadline.None? ==>
      Withdrawn(RejectNumbers(s.requests[id], rejected), status, caller, s.clock)
      == Ended(RejectNumbers(s.requests[id], rejected), status, caller, s.clock)
  {
    RejectThenWithdraw(s.requests[id], rejected, s.market, status, caller, s.clock);
    RejectNumbersEffect(s.requests[id], rejected);
    PutKeeps(s, id, Withdrawn(RejectNumbers(s.requests[id], rejected), status, caller, s.clock), initial);
  }

  lemma AcceptKeeps(
    s: Platform, caller: OperatorId, id: RequestId, accept: bool, reason: Option<ReasonId>, window: Window,
    initial: Registry)
    requires Inv(s, initial)
    ensures Inv(Accept(s, caller, id, accept, reason, window), initial)
    ensures QuorumPlatform(s) ==> QuorumPlatform(Accept(s, caller, id, accept, reason, window))
  {
    if AcceptFault(s, caller, id, accept, reason).None? {
      if accept {
        ScheduleKeeps(s, id, window, initial);
      } else {
        WithdrawKeeps(s, id, [], caller, RequestRejected, initial);
      }
    }
  }

  lemma PartialRejectKeeps(s: Platform, id: RequestId, rejected: seq<RejectedNumber>, initial: Registry)
    requires Inv(s, initial) && id in s.requests && InProgress(s.requests[id])
    requires s.requests[id].request.step == Acceptance
    requires HasActiveNumber(RejectNumbers(s.requests[id], rejected))
    ensures var s' := Put(s, id, RejectNumbers(s.requests[id], rejected));
      Inv(s', initial) && (QuorumPlatform(s) ==> QuorumPlatform(s'))
  {
    var d := s.requests[id];
    RejectNumbersSound(d, s.market, rejected, s.clock);
    RejectNumbersEffect(d, rejected);
    QuietSameNumbers(d, RejectNumbers(d, rejected), s.market, s.clock);
    hide Quiet, Sound, Inv;
    PutKeeps(s, id, RejectNumbers(d, rejected), initial);
  }

  lemma AcceptedFleetSchedules(s: Platform, id: RequestId, window: Window, initial: Registry)
    requires Inv(s, initial) && id in s.requests && InProgress(s.requests[id])
    requires s.requests[id].request.step == Acceptance
    ensures Inv(ScheduleTransition(s, id, window), initial)
    ensures QuorumPlatform(s) ==> QuorumPlatform(ScheduleTransition(s, id, window))
  {
    assert Sound(s.requests[id], s.market, s.clock);
    ScheduleKeeps(s, id, window, initial);
  }

  lemma AcceptFleetKeeps(
    s: Platform, caller: OperatorId, id: RequestId, accept: bool, rejected: seq<RejectedNumber>,
    reason: Option<ReasonId>,
    window: Window, initial: Registry)
    requires Inv(s, initial)
    ensures Inv(AcceptFleet(s, caller, id, accept, rejected, reason, window), initial)
    ensures QuorumPlatform(s) ==> QuorumPlatform(AcceptFleet(s, caller, id, accept, rejected, reason, window))
  {
    if AcceptFleetFault(s, caller, id, accept, rejected, reason).None? {
      var d := s.requests[id];
      var d' := RejectNumbers(d, rejected);
      hide Inv, QuorumPlatform, ScheduleTransition, Withdrawn;
      if !accept {
        WithdrawKeeps(s, id, [], caller, RequestRejected, initial);
      } else if HasActiveNumber(d') {
        RejectNumbersEffect(d, rejected);
        assert Sound(d, s.market, s.clock);
        PartialRejectKeeps(s, id, rejected, initial);
        AcceptedFleetSchedules(Put(s, id, d'), id, window, initial);
      } else {
        WithdrawKeeps(s, id, rejected, caller, RequestRejected, initial);
      }
    }
  }

  lemma ConfirmedKeeps(s: Platform, caller: OperatorId, id: RequestId, initial: Registry)
    requires Inv(s, initial) && ConfirmFault(s, caller, id).None?
    ensures Inv(Put(s, id, Confirmed(s.requests[id], caller)), initial)
  {
    var d, d' := s.requests[id], Confirmed(s.requests[id], caller);
    ConfirmedSound(d, s.market, caller, s.clock, s.clock);
    QuietSameNumbers(d, d', s.market, s.clock);
    hide Quiet, Sound, Inv;
    PutKeeps(s, id, d', initial);
  }

  lemma ConfirmedQuorum(s: Platform, caller: OperatorId, id: RequestId)
    requires SoundPlatform(s) && QuorumPlatform(s) && ConfirmFault(s, caller, id).None?
    ensures var s' := Put(s, id, Confirmed(s.requests[id], caller));
      if CountReached(s'.requests[id], s.market) then QuorumBut(s', id) else QuorumPlatform(s')
  {
    var d, d' := s.requests[id], Confirmed(s.requests[id], caller);
    assert Sound(d, s.market, s.clock);
    ConfirmedHistory(d, s.market, caller);
    CountIsCoverage(d', s.market);
  }

  lemma ConfirmKeeps(s: Platform, caller: OperatorId, id: RequestId, window: Window, initial: Registry)
    requires Inv(s, initial)
    ensures Inv(Confirm(s, caller, id, window), initial)
    ensures QuorumPlatform(s) ==> QuorumPlatform(Confirm(s, caller, id, window))
  {
    if ConfirmFault(s, caller, id).None? {
      var s' := Put(s, id, Confirmed(s.requests[id], caller));
      assert Sound(s.requests[id], s.market, s.clock);
      ConfirmedKeeps(s, caller, id, initial);
      if QuorumPlatform(s) {
        ConfirmedQuorum(s, caller, id);
      }
      hide Inv, Sound, QuorumPlatform, QuorumBut;
      if CountReached(s'.requests[id], s.market) {
        ScheduleKeeps(s', id, window, initial);
      }
    }
  }

  lemma ProcessKeeps(s: Platform, caller: OperatorId, id: RequestId, window: Window, initial: Registry)
    requires Inv(s, initial)
    ensures Inv(Process(s, caller, id, window), initial)
    ensures QuorumPlatform(s) ==> QuorumPlatform(Process(s, caller, id, window))
  {
    if ProcessFault(s, caller, id).None? {
      assert Sound(s.requests[id], s.market, s.clock);
      ScheduleKeeps(s, id, window, initial);
    }
  }

  lemma CancelKeeps(s: Platform, caller: OperatorId, id: RequestId, initial: Registry)
    requires Inv(s, initial)
    ensures Inv(Cancel(s, caller, id), initial)
    ensures QuorumPlatform(s) ==> QuorumPlatform(Cancel(s, caller, id))
  {
    if CancelFault(s, caller, id).None? {
      WithdrawKeeps(s, id, [], caller, RequestCancelled, initial);
    }
  }

  // ---- Creations ------------------------------------------------------------------

  /** A freshly built dossier is sound on its own. */
  lemma NewDossierSound(s: Platform, d: Dossier)
    requires SoundPlatform(s) && d == NewDossier(d.request, d.numbers)
    requires d.request.status == RequestInProgress && d.request.stepStatus == StepInProgress
    requires d.request.step == if d.request.kind == Reverse then Confirmation else Acceptance
    requires d.request.createdAt == d.request.stepStart == s.clock && d.request.deadline.None?
    requires d.request.endedAt.None?
    requires d.request.source in s.market.prefixes && d.request.recipient in s.market.prefixes
    requires PartiesOk(d) && RowsOk(d)
    requires d.request.routing == if d.request.kind == Porting then RoutingPrefix(s.market, d.request.source) else None
    requires forall n | n in d.numbers :: d.numbers[n].routing ==
               if d.request.kind == Porting
                   && d.numbers[n].exclusion.None? then RoutingPrefix(s.market, d.request.source) else None
    ensures Sound(d, s.market, s.clock) && QuorumOk(d, s.market)
  {
    assert RoutingOk(d, s.market);
    assert HistoryShape(d);
    assert Covered(d, s.market) ==> ExpectedSet(d, s.market) == {};
  }

  lemma CreateIndividualKeeps(
    s: Platform, caller: OperatorId, n: Msisdn, source: OperatorId, recipient: OperatorId, otp: bool,
    initial: Registry)
    requires Inv(s, initial) && caller in s.market.prefixes
    ensures Inv(CreateIndividual(s, caller, n, source, recipient, otp), initial)
    ensures QuorumPlatform(s) ==> QuorumPlatform(CreateIndividual(s, caller, n, source, recipient, otp))
  {
    if CreateIndividualFault(s, caller, n, source, recipient, otp).None? {
      var prefix := RoutingPrefix(s.market, source);
      var d := NewDossier(NewRequest(n, Individual, Porting, Acceptance, source, recipient, prefix, s.clock),
          SingleRow(n, prefix));
      assert Active(d, n);
      NewDossierSound(s, d);
      InsertKeeps(s, d, initial);
    }
  }

  lemma CreateFleetKeeps(
    s: Platform, caller: OperatorId, carrier: Msisdn, source: OperatorId, recipient: OperatorId,
    numbers: seq<Msisdn>, otp: bool,
    initial: Registry)
    requires Inv(s, initial) && caller in s.market.prefixes
    ensures Inv(CreateFleet(s, caller, carrier, source, recipient, numbers, otp), initial)
    ensures QuorumPlatform(s) ==> QuorumPlatform(CreateFleet(s, caller, carrier, source, recipient, numbers, otp))
  {
    if CreateFleetFault(s, caller, source, recipient, numbers, otp).None? {
      var d := CreatedFleet(s, carrier, source, recipient, numbers);
      FleetAdmissible(s, carrier, source, recipient, numbers);
      InsertKeeps(s, d, initial);
    }
  }

  lemma FleetRowsOk(s: Platform, carrier: Msisdn, source: OperatorId, recipient: OperatorId, numbers: seq<Msisdn>)
    requires AllKnown(s, Deduplicate(numbers)) && Retained(s, Deduplicate(numbers), source, recipient) != []
    ensures var d := CreatedFleet(s, carrier, source, recipient, numbers);
      && RowsOk(d)
      && (forall n | n in d.numbers :: n in s.registry && d.numbers[n].routing ==
            if d.numbers[n].exclusion.None? then RoutingPrefix(s.market, source) else None)
      && (forall n | Active(d, n) :: n in s.registry && FleetCheck(s, n, source, recipient).None?)
  {
    var d, distinct := CreatedFleet(s, carrier, source, recipient, numbers), Deduplicate(numbers);
    var kept, out := Retained(s, distinct, source, recipient), Excluded(s, distinct, source, recipient);
    DeduplicateKeepsFirstAppearances(numbers);
    FleetPartition(s, distinct, source, recipient);
    FleetStored(s, carrier, source, recipient, numbers);
    assert kept[0] in kept && Active(d, kept[0]);
    forall n | n in d.numbers
      ensures n in s.registry
      ensures d.numbers[n].exclusion.Some? ==> d.numbers[n].status == RowRejected
      ensures d.numbers[n].routing == if d.numbers[n].exclusion.None? then RoutingPrefix(s.market, source) else None
    {
      if n in kept {
        var i :| 0 <= i < |kept| && kept[i] == n;
      } else {
        var x :| x in out && x.msisdn == n;
      }
    }
  }

  lemma FleetAdmissible(s: Platform, carrier: Msisdn, source: OperatorId, recipient: OperatorId, numbers: seq<Msisdn>)
    requires SoundPlatform(s) && recipient in s.market.prefixes && source in s.market.prefixes
    requires AllKnown(s, Deduplicate(numbers)) && Retained(s, Deduplicate(numbers), source, recipient) != []
    ensures Admissible(s, CreatedFleet(s, carrier, source, recipient, numbers))
  {
    var d := CreatedFleet(s, carrier, source, recipient, numbers);
    FleetRowsOk(s, carrier, source, recipient, numbers);
    var n :| Active(d, n);
    assert FleetCheck(s, n, source, recipient).None?;
    NewDossierSound(s, d);
  }

  lemma RestitutionAdmissible(s: Platform, caller: OperatorId, n: Msisdn)
    requires SoundPlatform(s) && CreateRestitutionFault(s, caller, n).None?
    ensures var e := s.registry[n];
      Admissible(s, NewDossier(NewRequest(n, Individual, Restitution, Acceptance, e.holder, e.origin, None, s.clock),
          SingleRow(n, None)))
  {
    var e := s.registry[n];
    var d := NewDossier(NewRequest(n, Individual, Restitution, Acceptance, e.holder, e.origin, None, s.clock),
        SingleRow(n, None));
    assert Active(d, n);
    NewDossierSound(s, d);
  }

  lemma CreateRestitutionKeeps(s: Platform, caller: OperatorId, n: Msisdn, initial: Registry)
    requires Inv(s, initial)
    ensures Inv(CreateRestitution(s, caller, n), initial)
    ensures QuorumPlatform(s) ==> QuorumPlatform(CreateRestitution(s, caller, n))
  {
    if CreateRestitutionFault(s, caller, n).None? {
      var e := s.registry[n];
      RestitutionAdmissible(s, caller, n);
      hide Inv, Admissible, QuorumPlatform;
      InsertKeeps(s, NewDossier(NewRequest(n, Individual, Restitution, Acceptance, e.holder, e.origin, None,
          s.clock), SingleRow(n, None)), initial);
    }
  }

  // ---- Reverse requests -------------------------------------------------------------

  /** Rewriting the reverse requests alone. */
  lemma ReversesKeep(s: Platform, s': Platform, initial: Registry)
    requires Inv(s, initial)
    requires s' == s.(reverses := s'.reverses, nextId := s'.nextId) && s.nextId <= s'.nextId
    requires ReversesOk(s')
    ensures Inv(s', initial)
    ensures QuorumPlatform(s) ==> QuorumPlatform(s')
  {}

  lemma SubmitReverseKeeps(s: Platform, caller: OperatorId, n: Msisdn, initial: Registry)
    requires Inv(s, initial)
    ensures Inv(SubmitReverse(s, caller, n), initial)
    ensures QuorumPlatform(s) ==> QuorumPlatform(SubmitReverse(s, caller, n))
  {
    var s' := SubmitReverse(s, caller, n);
    forall rid | rid in s'.reverses ensures ReverseOk(s', rid, s'.reverses[rid]) {
      assert rid in s.reverses ==> ReverseOk(s, rid, s.reverses[rid]);
    }
    ReversesKeep(s, s', initial);
  }

  lemma RejectReverseKeeps(s: Platform, rid: RequestId, initial: Registry)
    requires Inv(s, initial)
    ensures Inv(RejectReverse(s, rid), initial)
    ensures QuorumPlatform(s) ==> QuorumPlatform(RejectReverse(s, rid))
  {
    var s' := RejectReverse(s, rid);
    forall r | r in s'.reverses ensures ReverseOk(s', r, s'.reverses[r]) {
      assert ReverseOk(s, r, s.reverses[r]);
    }
    ReversesKeep(s, s', initial);
  }

  lemma ReverseAdmissible(s: Platform, rid: RequestId)
    requires SoundPlatform(s) && CanValidate(s, rid)
    ensures var rr := s.reverses[rid];
      Admissible(s, NewDossier(NewRequest(rr.msisdn, Individual, Reverse, Confirmation, s.registry[rr.msisdn].holder,
          rr.operator, None, s.clock),
                               SingleRow(rr.msisdn, None)))
  {
    var rr := s.reverses[rid];
    assert ReverseOk(s, rid, rr);
    var d := NewDossier(NewRequest(rr.msisdn, Individual, Reverse, Confirmation, s.registry[rr.msisdn].holder,
        rr.operator, None, s.clock),
                        SingleRow(rr.msisdn, None));
    assert Active(d, rr.msisdn);
    NewDossierSound(s, d);
  }

  lemma ValidateReverseKeeps(s: Platform, rid: RequestId, initial: Registry)
    requires Inv(s, initial)
    ensures Inv(ValidateReverse(s, rid), initial)
    ensures QuorumPlatform(s) ==> QuorumPlatform(ValidateReverse(s, rid))
  {
    if CanValidate(s, rid) {
      var rr := s.reverses[rid];
      var r := NewRequest(rr.msisdn, Individual, Reverse, Confirmation, s.registry[rr.msisdn].holder, rr.operator,
          None, s.clock);
      var s1, s' := Insert(s, NewDossier(r, SingleRow(rr.msisdn, None))), ValidateReverse(s, rid);
      ReverseAdmissible(s, rid);
      InsertKeeps(s, NewDossier(r, SingleRow(rr.msisdn, None)), initial);
      ReferencesValidated(s, rid);
      ReversesKeep(s1, s', initial);
    }
  }

  lemma ReferencesValidated(s: Platform, rid: RequestId)
    requires ReversesOk(s) && CanValidate(s, rid) && s.nextId !in s.requests
    ensures ReversesOk(ValidateReverse(s, rid))
  {
    var s' := ValidateReverse(s, rid);
    forall x | x in s'.reverses ensures ReverseOk(s', x, s'.reverses[x]) {
      assert ReverseOk(s, x, s.reverses[x]);
    }
  }

  // ---- The purge --------------------------------------------------------------------

  lemma PurgeKeeps(s: Platform, caller: OperatorId)
    requires SoundPlatform(s)
    ensures SoundPlatform(Purge(s, caller))
    ensures QuorumPlatform(s) ==> QuorumPlatform(Purge(s, caller))
  {
    var s' := Purge(s, caller);
    forall i, j, n | i in s'.requests && j in s'.requests && Claims(s'.requests[i], n) && Claims(s'.requests[j], n)
      ensures i == j
    {
      assert Claims(s.requests[i], n) && Claims(s.requests[j], n);
    }
    forall rid | rid in s'.reverses ensures ReverseOk(s', rid, s'.reverses[rid]) {
      assert ReverseOk(s, rid, s.reverses[rid]);
    }
  }

  /** The purge keeps the invariant at the numbers it does not name. */
  lemma PurgeKeepsInv(s: Platform, caller: OperatorId, initial: Registry)
    requires Inv(s, initial)
    ensures Inv(Purge(s, caller), Unnamed(s, caller, initial))
    ensures QuorumPlatform(s) ==> QuorumPlatform(Purge(s, caller))
  {
    hide Purge, Ledger, Spaced, RestitutedOnce, HoldersOk, Unnamed;
    PurgeKeeps(s, caller);
    PurgeKeepsLedger(s, caller, initial);
    PurgeKeepsSpacing(s, caller, initial);
    PurgeKeepsHolders(s, caller, initial);
  }

  lemma PerformKeeps(s: Platform, caller: OperatorId, call: Call, initial: Registry)
    requires Inv(s, initial) && caller in s.market.prefixes
    ensures Inv(Perform(s, caller, call), if call.PurgeCall? then Unnamed(s, caller, initial) else initial)
    ensures QuorumPlatform(s) ==> QuorumPlatform(Perform(s, caller, call))
  {
    hide Inv, SoundPlatform, QuorumPlatform, Ledger, Spaced, RestitutedOnce, HoldersOk, Unnamed;
    if call.PurgeCall? {
      PurgeKeepsInv(s, caller, initial);
    }
    hide CreateIndividual, CreateFleet, CreateRestitution, Accept, AcceptFleet, Confirm, Process, Cancel,
      SubmitReverse, Purge;
    match call
    case CreateIndividualCall(n, source, recipient, otp) =>
      CreateIndividualKeeps(s, caller, n, source, recipient, otp, initial);
    case CreateFleetCall(carrier, source, recipient, numbers, otp) =>
      CreateFleetKeeps(s, caller, carrier, source, recipient, numbers, otp, initial);
    case CreateRestitutionCall(n) => CreateRestitutionKeeps(s, caller, n, initial);
    case AcceptCall(id, accept, reason, window) => AcceptKeeps(s, caller, id, accept, reason, window, initial);
    case AcceptFleetCall(id, accept, rejected, reason, window) =>
      AcceptFleetKeeps(s, caller, id, accept, rejected, reason, window, initial);
    case ConfirmCall(id, window) => ConfirmKeeps(s, caller, id, window, initial);
    case ProcessCall(id, window) => ProcessKeeps(s, caller, id, window, initial);
    case CancelCall(id) => CancelKeeps(s, caller, id, initial);
    case SubmitReverseCall(n) => SubmitReverseKeeps(s, caller, n, initial);
    case PurgeCall =>
  }
}
