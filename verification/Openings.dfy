/** What a creation answers and what it stores, said of the tables and the calendar: the
  cause of every refusal, and the request that is opened when nothing refuses it. */
module Openings {
  import opened Entities
  import opened Tables
  import opened Operations
  import opened Fleet

  // ---- Numbers ---------------------------------------------------------------------

  /** Some request in progress still has the number among those it moves. */
  ghost predicate Busy(s: Platform, n: Msisdn) {
    exists id | id in s.requests ::
      && s.requests[id].request.status == RequestInProgress && n in s.requests[id].numbers
      && s.requests[id].numbers[n].exclusion == None && s.requests[id].numbers[n].status == RowInProgress
  }

  /** The number's last move is less than so many days old. */
  predicate Recent(s: Platform, n: Msisdn, at: Time, days: int)
    requires n in s.registry
  {
    s.registry[n].lastPorting.Some? && at < s.registry[n].lastPorting.value + days * DAY
  }

  /** The number may be ported from the source to the recipient. */
  ghost predicate Portable(s: Platform, n: Msisdn, source: OperatorId, recipient: OperatorId, at: Time) {
    && n in s.registry && s.registry[n].holder == source && source != recipient
    && !Busy(s, n) && !Recent(s, n, at, 90)
  }

  lemma BusyIsRead(s: Platform, n: Msisdn)
    ensures Busy(s, n) <==> RequestInProgressFor(s.requests, n)
  {
    if RequestInProgressFor(s.requests, n) {
      var id :| id in s.requests && InProgress(s.requests[id]) && Active(s.requests[id], n);
      assert s.requests[id].numbers[n].status == RowInProgress;
    }
    if Busy(s, n) {
      var id :| id in s.requests && s.requests[id].request.status == RequestInProgress && n in s.requests[id].numbers
                && s.requests[id].numbers[n].exclusion == None && s.requests[id].numbers[n].status == RowInProgress;
      assert InProgress(s.requests[id]) && Active(s.requests[id], n);
    }
  }

  /** The rules of a porting, one number: what each answer means. */
  lemma PortingAnswers(s: Platform, n: Msisdn, source: OperatorId, recipient: OperatorId, at: Time)
    requires n in s.registry
    ensures var f, holder := FleetCheck(At(s, at), n, source, recipient), s.registry[n].holder;
      && (f == None <==> Portable(s, n, source, recipient, at))
      && (f == Some(NumberAlreadyAtRecipient) <==> holder == recipient)
      && (f == Some(IncorrectSourceOperator) <==> holder != recipient && holder != source)
      && (f == Some(RequestAlreadyInProgressForNumber) <==> holder == source != recipient && Busy(s, n))
      && (f == Some(PortingDelayNotRespected)
          <==> holder == source != recipient && !Busy(s, n) && Recent(s, n, at, 90))
  {
    BusyIsRead(s, n);
    hide Busy, RequestInProgressFor;
  }

  // ---- One number --------------------------------------------------------------------

  /** The creation of an individual porting: what each answer means. */
  lemma IndividualAnswers(
    s: Platform, at: Time, caller: OperatorId, n: Msisdn, source: OperatorId, recipient: OperatorId, otp: bool)
    ensures var f := CreateIndividualFault(At(s, at), caller, n, source, recipient, otp);
      var asked, known := recipient == caller && otp, n in s.registry;
      && (f == Some(RequestAccessDenied) <==> recipient != caller)
      && (f == Some(OtpInvalid) <==> recipient == caller && !otp)
      && (f == Some(IncorrectSourceOperator)
          <==> asked && (known ==> s.registry[n].holder != recipient && s.registry[n].holder != source))
      && (f == Some(NumberAlreadyAtRecipient) <==> asked && known && s.registry[n].holder == recipient)
      && (f == Some(RequestAlreadyInProgressForNumber)
          <==> asked && known && s.registry[n].holder == source != recipient && Busy(s, n))
      && (f == Some(PortingDelayNotRespected)
          <==> asked && known && s.registry[n].holder == source != recipient && !Busy(s, n) && Recent(s, n, at, 90))
      && (f == Some(ValidationFailed)
          <==> asked && Portable(s, n, source, recipient, at) && source !in s.market.prefixes)
      && (f == None <==> asked && Portable(s, n, source, recipient, at) && source in s.market.prefixes)
  {
    hide Busy, Portable, Recent;
    if n in s.registry {
      PortingAnswers(s, n, source, recipient, at);
    } else {
      UnknownIsNotPortable(s, n, source, recipient, at);
    }
  }

  lemma UnknownIsNotPortable(s: Platform, n: Msisdn, source: OperatorId, recipient: OperatorId, at: Time)
    requires n !in s.registry
    ensures !Portable(s, n, source, recipient, at)
  {}

  /** The tables once one more request is open, everything else untouched. */
  ghost predicate Opened(s: Platform, s': Platform, at: Time, r: Request, numbers: map<Msisdn, NumberRow>) {
    && s'.requests == s.requests[s.nextId := Dossier(r, numbers, [], {})]
    && s'.nextId == s.nextId + 1 && s'.clock == at && s'.registry == s.registry
    && s'.market == s.market && s'.frozen == s.frozen
  }

  /** The request of an accepted individual creation; a refused one changes nothing. */
  lemma IndividualOpens(
    s: Platform, at: Time, caller: OperatorId, n: Msisdn, source: OperatorId, recipient: OperatorId, otp: bool)
    ensures var s' := Next(s, OperatorCall(caller, at, CreateIndividualCall(n, source, recipient, otp)));
      if recipient == caller && otp && Portable(s, n, source, recipient, at) && source in s.market.prefixes then
        var prefix := Some(s.market.prefixes[source]);
        && s'.reverses == s.reverses
        && Opened(s, s', at,
             Request(n, Individual, Porting, RequestInProgress, Acceptance, StepInProgress, source, caller, caller,
                     prefix, at, at, None, None),
             map[n := NumberRow(RowInProgress, None, 0, prefix)])
      else s' == At(s, at)
  {
    IndividualAnswers(s, at, caller, n, source, recipient, otp);
    hide Portable, CreateIndividualFault;
  }

  // ---- A restitution --------------------------------------------------------------------

  /** The number may go back to its origin. */
  ghost predicate Returnable(s: Platform, n: Msisdn, at: Time) {
    && n in s.registry && s.registry[n].lastPorting.Some? && s.registry[n].holder != s.registry[n].origin
    && !s.registry[n].restituted && !Recent(s, n, at, 180) && !Busy(s, n)
  }

  /** The creation of a restitution: what each answer means. */
  lemma RestitutionAnswers(s: Platform, at: Time, caller: OperatorId, n: Msisdn)
    ensures var f := CreateRestitutionFault(At(s, at), caller, n);
      var known := n in s.registry;
      var mine := known && s.registry[n].origin == caller;
      var ported := mine && s.registry[n].lastPorting.Some? && s.registry[n].holder != s.registry[n].origin;
      && (f == Some(IncorrectSourceOperator) <==> !known)
      && (f == Some(RequestAccessDenied) <==> known && s.registry[n].origin != caller)
      && (f == Some(NumberNotPorted) <==> mine && !ported)
      && (f == Some(NumberAlreadyRestituted) <==> ported && s.registry[n].restituted)
      && (f == Some(RestitutionDelayNotRespected)
          <==> ported && !s.registry[n].restituted && Recent(s, n, at, 180))
      && (f == Some(RequestAlreadyInProgressForNumber)
          <==> ported && !s.registry[n].restituted && !Recent(s, n, at, 180) && Busy(s, n))
      && (f == None <==> mine && Returnable(s, n, at))
  {
    BusyIsRead(s, n);
    hide Busy, RequestInProgressFor;
  }

  /** The request of an accepted restitution: from the holder to the origin. */
  lemma RestitutionOpens(s: Platform, at: Time, caller: OperatorId, n: Msisdn)
    ensures var s' := Next(s, OperatorCall(caller, at, CreateRestitutionCall(n)));
      if n in s.registry && s.registry[n].origin == caller && Returnable(s, n, at) then
        && s'.reverses == s.reverses
        && Opened(s, s', at,
             Request(n, Individual, Restitution, RequestInProgress, Acceptance, StepInProgress,
                     s.registry[n].holder, caller, caller, None, at, at, None, None),
             map[n := NumberRow(RowInProgress, None, 0, None)])
      else s' == At(s, at)
  {
    RestitutionAnswers(s, at, caller, n);
    hide Returnable, CreateRestitutionFault;
  }

  // ---- Reverse requests -------------------------------------------------------------------

  /** Submitting a reverse request: what each answer means, and what is stored. */
  lemma SubmissionAnswers(s: Platform, at: Time, caller: OperatorId, n: Msisdn)
    ensures var f := SubmitReverseFault(At(s, at), caller, n);
      && (f == Some(IncorrectSourceOperator) <==> n !in s.registry)
      && (f == Some(RequestAccessDenied) <==> n in s.registry && s.registry[n].origin != caller)
      && (f == Some(NumberNotPorted)
          <==> n in s.registry && s.registry[n].origin == caller && s.registry[n].holder == caller)
      && (f == None <==> n in s.registry && s.registry[n].origin == caller && s.registry[n].holder != caller)
    ensures var s' := Next(s, OperatorCall(caller, at, SubmitReverseCall(n)));
      if n in s.registry && s.registry[n].origin == caller && s.registry[n].holder != caller
      then s' == s.(clock := at, nextId := s.nextId + 1,
                    reverses := s.reverses[s.nextId := ReverseRequest(n, caller, ReversePending, at, None)])
      else s' == At(s, at)
  {}

  /** The ARTP's approval of a pending request opens a REVERSE at CONFIRMATION, from the
    holder to the operator that asked, and marks the request. */
  lemma ApprovalOpens(s: Platform, at: Time, rid: RequestId)
    requires rid in s.reverses && s.reverses[rid].msisdn in s.registry
    ensures var s', rr := Next(s, ArtpValidates(at, rid)), s.reverses[rid];
      if rr.status == ReversePending then
        && s'.reverses == s.reverses[rid := ReverseRequest(rr.msisdn, rr.operator, ReverseValidated, rr.requestedAt,
                                                          Some(s.nextId))]
        && Opened(s, s', at,
             Request(rr.msisdn, Individual, Reverse, RequestInProgress, Confirmation, StepInProgress,
                     s.registry[rr.msisdn].holder, rr.operator, rr.operator, None, at, at, None, None),
             map[rr.msisdn := NumberRow(RowInProgress, None, 0, None)])
      else s' == At(s, at)
  {}

  /** The ARTP's refusal of a pending request marks it and does nothing else; any other
    request is left alone. */
  lemma RefusalMarks(s: Platform, at: Time, rid: RequestId)
    requires rid in s.reverses
    ensures var s', rr := Next(s, ArtpRejects(at, rid)), s.reverses[rid];
      s' == if rr.status == ReversePending
            then s.(clock := at, reverses := s.reverses[rid := ReverseRequest(rr.msisdn, rr.operator, ReverseRejected,
                                                                             rr.requestedAt, rr.request)])
            else At(s, at)
  {}

  // ---- A fleet ------------------------------------------------------------------------------

  ghost predicate AllNumbersKnown(s: Platform, numbers: seq<Msisdn>) {
    forall n | n in numbers :: n in s.registry
  }

  ghost predicate OneHolder(s: Platform, numbers: seq<Msisdn>)
    requires AllNumbersKnown(s, numbers)
  {
    forall a, b | a in numbers && b in numbers :: s.registry[a].holder == s.registry[b].holder
  }

  ghost predicate SomePortable(s: Platform, numbers: seq<Msisdn>, source: OperatorId, recipient: OperatorId, at: Time) {
    exists n | n in numbers :: Portable(s, n, source, recipient, at)
  }

  lemma KnownIsRead(s: Platform, numbers: seq<Msisdn>, at: Time)
    ensures AllKnown(At(s, at), Deduplicate(numbers)) <==> AllNumbersKnown(s, numbers)
  {
    var distinct := Deduplicate(numbers);
    DeduplicateKeepsFirstAppearances(numbers);
    hide Deduplicate, FirstIndex;
    if AllKnown(At(s, at), distinct) {
      forall n | n in numbers ensures n in s.registry {
        var i :| 0 <= i < |distinct| && distinct[i] == n;
      }
    }
    if AllNumbersKnown(s, numbers) {
      forall i | 0 <= i < |distinct| ensures distinct[i] in s.registry { assert distinct[i] in distinct; }
    }
  }

  lemma OneHolderIsRead(s: Platform, numbers: seq<Msisdn>, at: Time)
    requires AllNumbersKnown(s, numbers) && AllKnown(At(s, at), Deduplicate(numbers))
    ensures SameHolder(At(s, at), Deduplicate(numbers)) <==> OneHolder(s, numbers)
  {
    var distinct := Deduplicate(numbers);
    DeduplicateKeepsFirstAppearances(numbers);
    hide Deduplicate, FirstIndex;
    if SameHolder(At(s, at), distinct) {
      forall a, b | a in numbers && b in numbers ensures s.registry[a].holder == s.registry[b].holder {
        var i :| 0 <= i < |distinct| && distinct[i] == a;
        var j :| 0 <= j < |distinct| && distinct[j] == b;
      }
    }
    if OneHolder(s, numbers) {
      forall i | 0 <= i < |distinct| ensures s.registry[distinct[i]].holder == s.registry[distinct[0]].holder {
        assert distinct[i] in distinct && distinct[0] in distinct;
      }
    }
  }

  /** What is retained and what is excluded, and why. */
  lemma FleetIsRead(
    s: Platform, numbers: seq<Msisdn>, source: OperatorId, recipient: OperatorId, at: Time, n: Msisdn)
    requires AllNumbersKnown(s, numbers) && AllKnown(At(s, at), Deduplicate(numbers))
    ensures var distinct, t := Deduplicate(numbers), At(s, at);
      && (n in Retained(t, distinct, source, recipient) <==> n in numbers && Portable(s, n, source, recipient, at))
      && (forall code :: ExcludedNumber(n, code) in Excluded(t, distinct, source, recipient)
            <==> n in numbers && FleetCheck(t, n, source, recipient) == Some(code))
  {
    var distinct, t := Deduplicate(numbers), At(s, at);
    DeduplicateKeepsFirstAppearances(numbers);
    FleetPartition(t, distinct, source, recipient);
    hide Deduplicate, FirstIndex, Portable, FleetCheck, Retained, Excluded;
    if n in numbers {
      PortingAnswers(s, n, source, recipient, at);
    }
  }

  lemma SomePortableIsRead(s: Platform, numbers: seq<Msisdn>, source: OperatorId, recipient: OperatorId, at: Time)
    requires AllNumbersKnown(s, numbers) && AllKnown(At(s, at), Deduplicate(numbers))
    ensures Retained(At(s, at), Deduplicate(numbers), source, recipient) != []
            <==> SomePortable(s, numbers, source, recipient, at)
  {
    var kept := Retained(At(s, at), Deduplicate(numbers), source, recipient);
    hide Portable, Deduplicate, Retained, AllKnown;
    if kept != [] {
      FleetIsRead(s, numbers, source, recipient, at, kept[0]);
      assert kept[0] in kept;
    }
    if SomePortable(s, numbers, source, recipient, at) {
      var n :| n in numbers && Portable(s, n, source, recipient, at);
      FleetIsRead(s, numbers, source, recipient, at, n);
    }
  }

  /** The creation of a fleet: what each answer means. */
  lemma FleetAnswers(
    s: Platform, at: Time, caller: OperatorId, source: OperatorId, recipient: OperatorId, numbers: seq<Msisdn>,
    otp: bool)
    ensures var f := CreateFleetFault(At(s, at), caller, source, recipient, numbers, otp);
      var asked, known := numbers != [] && recipient == caller && otp, AllNumbersKnown(s, numbers);
      && (f == Some(FleetEmpty) <==> numbers == [])
      && (f == Some(RequestAccessDenied) <==> numbers != [] && recipient != caller)
      && (f == Some(OtpInvalid) <==> numbers != [] && recipient == caller && !otp)
      && (f == Some(IncorrectSourceOperator) <==> asked && !known)
      && (f == Some(FleetMixedOperators) <==> asked && known && !OneHolder(s, numbers))
      && (f == Some(NoEligibleNumber)
          <==> asked && known && OneHolder(s, numbers) && !SomePortable(s, numbers, source, recipient, at))
      && (f == Some(ValidationFailed)
          <==> asked && known && OneHolder(s, numbers) && SomePortable(s, numbers, source, recipient, at)
               && source !in s.market.prefixes)
      && (f == None
          <==> asked && known && OneHolder(s, numbers) && SomePortable(s, numbers, source, recipient, at)
               && source in s.market.prefixes)
  {
    hide Deduplicate, Retained, AllKnown, SameHolder, AllNumbersKnown, OneHolder, SomePortable;
    KnownIsRead(s, numbers, at);
    if AllNumbersKnown(s, numbers) {
      OneHolderIsRead(s, numbers, at);
      SomePortableIsRead(s, numbers, source, recipient, at);
    }
  }

  /** A refused fleet changes nothing. */
  lemma RefusedFleetOpensNothing(
    s: Platform, at: Time, caller: OperatorId, carrier: Msisdn, source: OperatorId, recipient: OperatorId,
    numbers: seq<Msisdn>, otp: bool)
    requires CreateFleetFault(At(s, at), caller, source, recipient, numbers, otp) != None
    ensures Next(s, OperatorCall(caller, at, CreateFleetCall(carrier, source, recipient, numbers, otp))) == At(s, at)
  {
    hide CreateFleetFault;
  }

  /** The code a number is excluded with, or None for a number that is retained. */
  ghost function CodeOf(s: Platform, n: Msisdn, at: Time): Option<Fault>
    requires n in s.registry
  {
    if Busy(s, n) then Some(RequestAlreadyInProgressForNumber)
    else if Recent(s, n, at, 90) then Some(PortingDelayNotRespected)
    else None
  }

  /** In an accepted fleet every number is the source's, so only two causes exclude. */
  lemma CodeIsRead(s: Platform, numbers: seq<Msisdn>, source: OperatorId, recipient: OperatorId, at: Time, n: Msisdn)
    requires AllNumbersKnown(s, numbers) && OneHolder(s, numbers) && SomePortable(s, numbers, source, recipient, at)
    requires n in numbers
    ensures FleetCheck(At(s, at), n, source, recipient) == CodeOf(s, n, at)
    ensures Portable(s, n, source, recipient, at) <==> CodeOf(s, n, at) == None
  {
    var m :| m in numbers && Portable(s, m, source, recipient, at);
    assert s.registry[n].holder == s.registry[m].holder == source && source != recipient;
    PortingAnswers(s, n, source, recipient, at);
    hide Busy, FleetCheck;
  }

  /** An accepted fleet creation: the one request it opens, a row for every number received
    and for no other, retained with the source's prefix or excluded with its cause. */
  lemma FleetOpens(
    s: Platform, at: Time, caller: OperatorId, carrier: Msisdn, source: OperatorId, recipient: OperatorId,
    numbers: seq<Msisdn>, otp: bool)
    requires numbers != [] && recipient == caller && otp && source in s.market.prefixes
    requires AllNumbersKnown(s, numbers) && OneHolder(s, numbers) && SomePortable(s, numbers, source, recipient, at)
    ensures var s' := Next(s, OperatorCall(caller, at, CreateFleetCall(carrier, source, recipient, numbers, otp)));
      var prefix := Some(s.market.prefixes[source]);
      && s.nextId in s'.requests && s'.reverses == s.reverses
      && var rows := s'.requests[s.nextId].numbers;
         && Opened(s, s', at,
              Request(carrier, Enterprise, Porting, RequestInProgress, Acceptance, StepInProgress, source, caller,
                      caller, prefix, at, at, None, None), rows)
         && (forall n :: n in rows <==> n in numbers)
         && (forall n | n in numbers :: rows[n].exclusion == CodeOf(s, n, at)
               && rows[n].status == (if CodeOf(s, n, at) == None then RowInProgress else RowRejected)
               && rows[n].routing == (if CodeOf(s, n, at) == None then prefix else None))
  {
    var t, e := At(s, at), CreateFleetCall(carrier, source, recipient, numbers, otp);
    FleetAnswers(s, at, caller, source, recipient, numbers, otp);
    KnownIsRead(s, numbers, at);
    FleetIsCreated(t, caller, carrier, source, recipient, numbers, otp);
    var d := CreatedFleet(t, carrier, source, recipient, numbers);
    hide Deduplicate, Retained, Excluded, FleetRows, CodeOf, AllNumbersKnown, OneHolder, SomePortable, CreateFleetFault;
    forall n ensures n in d.numbers <==> n in numbers {
      RowIsRead(s, at, carrier, source, recipient, numbers, n);
    }
    forall n | n in numbers
      ensures d.numbers[n].exclusion == CodeOf(s, n, at)
      ensures d.numbers[n].status == (if CodeOf(s, n, at) == None then RowInProgress else RowRejected)
      ensures d.numbers[n].routing == if CodeOf(s, n, at) == None then Some(s.market.prefixes[source]) else None
    {
      RowIsRead(s, at, carrier, source, recipient, numbers, n);
    }
  }

  lemma FleetIsCreated(
    s: Platform, caller: OperatorId, carrier: Msisdn, source: OperatorId, recipient: OperatorId, numbers: seq<Msisdn>,
    otp: bool)
    requires CreateFleetFault(s, caller, source, recipient, numbers, otp) == None
    ensures AllKnown(s, Deduplicate(numbers))
    ensures CreateFleet(s, caller, carrier, source, recipient, numbers, otp)
            == Insert(s, CreatedFleet(s, carrier, source, recipient, numbers))
  {
    hide Deduplicate, Retained, Excluded, FleetRows;
  }

  lemma RowIsRead(
    s: Platform, at: Time, carrier: Msisdn, source: OperatorId, recipient: OperatorId, numbers: seq<Msisdn>, n: Msisdn)
    requires AllNumbersKnown(s, numbers) && OneHolder(s, numbers) && SomePortable(s, numbers, source, recipient, at)
    requires AllKnown(At(s, at), Deduplicate(numbers)) && source in s.market.prefixes
    ensures var rows := CreatedFleet(At(s, at), carrier, source, recipient, numbers).numbers;
      && (n in rows <==> n in numbers)
      && (n in numbers ==>
            && rows[n].exclusion == CodeOf(s, n, at)
            && rows[n].status == (if CodeOf(s, n, at) == None then RowInProgress else RowRejected)
            && rows[n].routing == (if CodeOf(s, n, at) == None then Some(s.market.prefixes[source]) else None))
  {
    var t := At(s, at);
    var kept := Retained(t, Deduplicate(numbers), source, recipient);
    var out := Excluded(t, Deduplicate(numbers), source, recipient);
    FleetStored(t, carrier, source, recipient, numbers);
    FleetIsRead(s, numbers, source, recipient, at, n);
    hide Deduplicate, Retained, Excluded, CreatedFleet, CodeOf, Portable, FleetCheck;
    if n in numbers {
      CodeIsRead(s, numbers, source, recipient, at, n);
      if CodeOf(s, n, at) == None {
        var i :| 0 <= i < |kept| && kept[i] == n;
      } else {
        assert ExcludedNumber(n, CodeOf(s, n, at).value) in out;
      }
    } else {
      NeverExcluded(out, n);
    }
  }

  lemma NeverExcluded(out: seq<ExcludedNumber>, n: Msisdn)
    requires forall code :: ExcludedNumber(n, code) !in out
    ensures !ExcludedIn(out, n)
  {
    forall x | x in out ensures x.msisdn != n {
      assert x == ExcludedNumber(x.msisdn, x.code);
    }
  }

  /** The excluded numbers answered, with their causes: these and no others. */
  lemma ExcludedAnswered(
    s: Platform, at: Time, source: OperatorId, recipient: OperatorId, numbers: seq<Msisdn>, n: Msisdn, code: Fault)
    requires AllNumbersKnown(s, numbers) && OneHolder(s, numbers) && SomePortable(s, numbers, source, recipient, at)
    requires AllKnown(At(s, at), Deduplicate(numbers))
    ensures ExcludedNumber(n, code) in Excluded(At(s, at), Deduplicate(numbers), source, recipient)
            <==> n in numbers && CodeOf(s, n, at) == Some(code)
  {
    hide CodeOf, Portable, FleetCheck, Deduplicate, Excluded, AllKnown, SomePortable, OneHolder;
    FleetIsRead(s, numbers, source, recipient, at, n);
    if n in numbers {
      CodeIsRead(s, numbers, source, recipient, at, n);
    }
  }
}
