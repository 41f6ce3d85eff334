/** The registry as the replay of the steps closed, in the order they were closed: a
  fold over the run's log of history rows, which no tie of dates leaves undetermined. */
module Replay {
  import opened Entities
  import opened Tables
  import opened Operations
  import opened Lifecycle
  import opened Invariants
  import opened Passes
  import opened Fleet
  import opened Safety
  import opened Frame
  import opened Runs

  /** The k-th history row of a request. */
  datatype Closure = Closure(id: RequestId, k: nat)

  predicate Written(requests: map<RequestId, Dossier>, c: Closure) {
    c.id in requests && c.k < |requests[c.id].history|
  }

  // ---- The log of a run ----------------------------------------------------------

  /** The row, if any, that the history of a request gained between two states. */
  function Gained(a: Platform, b: Platform, id: RequestId): seq<Closure> {
    if id in a.requests && id in b.requests && |a.requests[id].history| < |b.requests[id].history|
    then [Closure(id, |a.requests[id].history|)]
    else []
  }

  function PassLog(s: Platform, jobs: seq<Job>, origin: Origin): seq<Closure> {
    if jobs == [] then []
    else
      var front := jobs[..|jobs| - 1];
      PassLog(s, front, origin) + Gained(ApplyAll(s, front, origin), ApplyAll(s, jobs, origin), jobs[|jobs| - 1].id)
  }

  function CompletionLog(s: Platform, j: CompletionJob): seq<Closure> {
    var s1 := if j.fromConfirmation then ApplyTransition(At(s, j.first), j.id, Action) else s;
    Gained(s, s1, j.id) + Gained(s1, CompleteOne(s, j), j.id)
  }

  function CompletionsLog(s: Platform, jobs: seq<CompletionJob>): seq<Closure> {
    if jobs == [] then []
    else
      var front := jobs[..|jobs| - 1];
      CompletionsLog(s, front) + CompletionLog(CompleteAll(s, front), jobs[|jobs| - 1])
  }

  function EngineLog(s: Platform, p: TickPlan): seq<Closure> {
    PassLog(At(s, p.dueAt), p.converge, Action) + PassLog(Converged(s, p), p.expire, Expiration)
  }

  function TickLog(s: Platform, p: TickPlan): seq<Closure> {
    if s.frozen then []
    else EngineLog(s, p) + CompletionsLog(Validated(s, p), p.complete)
  }

  function Target(c: Call): Option<RequestId> {
    match c
    case AcceptCall(id, _, _, _) => Some(id)
    case AcceptFleetCall(id, _, _, _, _) => Some(id)
    case ConfirmCall(id, _) => Some(id)
    case ProcessCall(id, _) => Some(id)
    case CancelCall(id) => Some(id)
    case _ => None
  }

  function EventLog(s: Platform, e: Event): seq<Closure> {
    match e
    case OperatorCall(_, _, call) => if Target(call).Some? then Gained(s, Next(s, e), Target(call).value) else []
    case EngineTicks(p) => TickLog(s, p)
    case _ => []
  }

  function Log(s: Platform, run: seq<Event>): seq<Closure> {
    if run == [] then []
    else
      var front := run[..|run| - 1];
      Log(s, front) + EventLog(Exec(s, front), run[|run| - 1])
  }

  // ---- Replaying it ----------------------------------------------------------------

  /** The numbers that a closed step hands over, as the history tells it. */
  function HandedBy(requests: map<RequestId, Dossier>, c: Closure): set<Msisdn>
    requires Written(requests, c)
  {
    var d := requests[c.id];
    var step := d.history[c.k].step;
    if d.request.kind == Porting then (if step == Activation then set n | n in d.numbers && Active(d, n) else {})
    else if step == Completion then {d.request.msisdn} else {}
  }

  function Settled(before: Registry, requests: map<RequestId, Dossier>, c: Closure): Registry {
    if !Written(requests, c) then before
    else
      var d := requests[c.id];
      Transfer(before, HandedBy(requests, c), d.request.recipient, d.request.kind != Porting, d.history[c.k].end)
  }

  function Replayed(initial: Registry, requests: map<RequestId, Dossier>, log: seq<Closure>): Registry {
    if log == [] then initial
    else Settled(Replayed(initial, requests, log[..|log| - 1]), requests, log[|log| - 1])
  }

  // ---- What one change of the tables posts -------------------------------------------

  ghost predicate Continues(d: Dossier, d': Dossier) {
    && d'.request.kind == d.request.kind && d'.request.recipient == d.request.recipient
    && d'.request.msisdn == d.request.msisdn
    && d.history <= d'.history
    && (d.request.step != Acceptance ==> d'.request.step != Acceptance && forall n :: Active(d', n) == Active(d, n))
  }

  ghost predicate Continue(a: Platform, b: Platform) {
    forall id | id in a.requests :: id in b.requests && Continues(a.requests[id], b.requests[id])
  }

  predicate Fresh(a: Platform, b: Platform, c: Closure) {
    Written(b.requests, c) && !Written(a.requests, c)
  }

  /** From one state to the other, exactly the rows of the log were written, each once,
    and replaying them gives the new registry. */
  ghost predicate Posts(a: Platform, b: Platform, log: seq<Closure>) {
    && Continue(a, b)
    && (forall c :: c in log <==> Fresh(a, b, c))
    && (forall i, j | 0 <= i < j < |log| :: log[i] != log[j])
    && b.registry == Replayed(a.registry, b.requests, log)
  }

  /** A written row hands over the same numbers for ever after. */
  lemma HandedSame(a: Platform, b: Platform, c: Closure)
    requires DossiersSound(a) && Continue(a, b) && Written(a.requests, c)
    ensures Written(b.requests, c) && b.requests[c.id].history[c.k] == a.requests[c.id].history[c.k]
    ensures HandedBy(b.requests, c) == HandedBy(a.requests, c)
    ensures forall before :: Settled(before, b.requests, c) == Settled(before, a.requests, c)
  {
    var d, d' := a.requests[c.id], b.requests[c.id];
    assert Sound(d, a.market, a.clock) && Continues(d, d');
    assert d'.history[c.k] == d.history[c.k];
    if d.request.kind == Porting && d.history[c.k].step == Activation {
      assert d.request.step != Acceptance;
      assert forall n :: Active(d', n) == Active(d, n);
    }
  }

  /** Rows of requests that are gone stay without effect, the others keep theirs. */
  lemma {:induction false} ReplayedOnwards(initial: Registry, a: Platform, b: Platform, log: seq<Closure>)
    requires DossiersSound(a) && Continue(a, b)
    requires forall c | c in log :: Written(a.requests, c) || c.id !in b.requests
    ensures Replayed(initial, b.requests, log) == Replayed(initial, a.requests, log)
  {
    if log != [] {
      var front, last := log[..|log| - 1], log[|log| - 1];
      assert last in log && forall c | c in front :: c in log;
      ReplayedOnwards(initial, a, b, front);
      if Written(a.requests, last) {
        HandedSame(a, b, last);
      } else {
        assert !Written(a.requests, last) && !Written(b.requests, last);
      }
      hide DossiersSound, HandedBy, Transfer;
    }
  }

  lemma {:induction false} ReplayedAppend(initial: Registry, requests: map<RequestId, Dossier>, l1: seq<Closure>,
      l2: seq<Closure>)
    ensures Replayed(initial, requests, l1 + l2) == Replayed(Replayed(initial, requests, l1), requests, l2)
  {
    if l2 == [] {
      assert l1 + l2 == l1;
    } else {
      var front := l2[..|l2| - 1];
      ReplayedAppend(initial, requests, l1, front);
      assert (l1 + l2)[..|l1 + l2| - 1] == l1 + front;
    }
  }

  lemma ContinueTransitive(a: Platform, b: Platform, c: Platform)
    requires Continue(a, b) && Continue(b, c)
    ensures Continue(a, c)
  {
    forall id | id in a.requests ensures id in c.requests && Continues(a.requests[id], c.requests[id]) {
      assert Continues(a.requests[id], b.requests[id]) && Continues(b.requests[id], c.requests[id]);
    }
  }

  lemma FreshSplit(a: Platform, b: Platform, c: Platform, x: Closure)
    requires Continue(a, b) && Continue(b, c)
    ensures Fresh(a, c, x) <==> Fresh(a, b, x) || Fresh(b, c, x)
    ensures !(Fresh(a, b, x) && Fresh(b, c, x))
  {
    if x.id in a.requests { assert Continues(a.requests[x.id], b.requests[x.id]); }
    if x.id in b.requests { assert Continues(b.requests[x.id], c.requests[x.id]); }
  }

  lemma DistinctAppend(l1: seq<Closure>, l2: seq<Closure>)
    requires forall i, j | 0 <= i < j < |l1| :: l1[i] != l1[j]
    requires forall i, j | 0 <= i < j < |l2| :: l2[i] != l2[j]
    requires forall x | x in l1 :: x !in l2
    ensures forall i, j | 0 <= i < j < |l1 + l2| :: (l1 + l2)[i] != (l1 + l2)[j]
  {
    forall i, j | 0 <= i < j < |l1 + l2| ensures (l1 + l2)[i] != (l1 + l2)[j] {
      if i < |l1| <= j {
        assert l1[i] in l1 && l2[j - |l1|] in l2;
      }
    }
  }

  lemma PostsTransitive(a: Platform, b: Platform, c: Platform, l1: seq<Closure>, l2: seq<Closure>)
    requires DossiersSound(b) && Posts(a, b, l1) && Posts(b, c, l2)
    ensures Posts(a, c, l1 + l2)
  {
    ContinueTransitive(a, b, c);
    hide DossiersSound, Continue;
    forall x ensures x in l1 + l2 <==> Fresh(a, c, x) { FreshSplit(a, b, c, x); }
    forall x | x in l1 ensures x !in l2 { FreshSplit(a, b, c, x); }
    DistinctAppend(l1, l2);
    ReplayedOnwards(a.registry, b, c, l1);
    ReplayedAppend(a.registry, c.requests, l1, l2);
  }

  /** Nothing closed, no number moved. */
  lemma PostsNothing(a: Platform, b: Platform)
    requires Continue(a, b) && b.registry == a.registry
    requires forall c :: !Fresh(a, b, c)
    ensures Posts(a, b, [])
  {}

  lemma PostsSame(s: Platform)
    ensures Posts(s, s, [])
  {
    PostsNothing(s, s);
  }

  /** The current step of one request closed. */
  ghost predicate ClosesOne(a: Platform, b: Platform, id: RequestId) {
    && Continue(a, b) && b.requests.Keys == a.requests.Keys && id in a.requests
    && |b.requests[id].history| == |a.requests[id].history| + 1
    && (forall x | x in a.requests && x != id :: b.requests[x] == a.requests[x])
  }

  lemma PostsOne(a: Platform, b: Platform, id: RequestId)
    requires ClosesOne(a, b, id)
    requires b.registry == Replayed(a.registry, b.requests, Gained(a, b, id))
    ensures Posts(a, b, Gained(a, b, id))
  {
    var c := Closure(id, |a.requests[id].history|);
    assert Gained(a, b, id) == [c];
    forall x ensures x == c <==> Fresh(a, b, x) {
      if x.id in a.requests && x.id != id { assert b.requests[x.id] == a.requests[x.id]; }
    }
  }

  lemma ReplayedOne(a: Platform, b: Platform, id: RequestId)
    requires ClosesOne(a, b, id)
    ensures var c, d := Closure(id, |a.requests[id].history|), b.requests[id];
      Replayed(a.registry, b.requests, Gained(a, b, id))
      == Transfer(a.registry, HandedBy(b.requests, c), d.request.recipient, d.request.kind != Porting,
          d.history[c.k].end)
  {
    var c := Closure(id, |a.requests[id].history|);
    assert Gained(a, b, id) == [c] && [c][..0] == [];
    assert Replayed(a.registry, b.requests, []) == a.registry;
  }

  /** A transition posts the row it writes, or nothing on an ended request. */
  lemma TransitionPosts(s: Platform, id: RequestId, origin: Origin)
    requires DossiersSound(s)
    ensures var s' := ApplyTransition(s, id, origin); Posts(s, s', Gained(s, s', id))
  {
    hide Advance, HandedBy, Departing, Timeline, RoutingOk, RowsOk;
    var s' := ApplyTransition(s, id, origin);
    if id in s.requests && InProgress(s.requests[id]) {
      var d := s.requests[id];
      assert Sound(d, s.market, s.clock);
      AdvanceCloses(d, s.market, origin, s.clock);
      AdvanceHands(s, id, origin);
      hide DossiersSound, Sound, Advance, Posts, HandedBy, Departing, Continues;
      ReplayedOne(s, s', id);
      PostsOne(s, s', id);
    } else {
      PostsNothing(s, s');
    }
  }

  lemma AdvanceCloses(d: Dossier, m: Market, origin: Origin, now: Time)
    requires Sound(d, m, now) && InProgress(d)
    ensures var d' := Advance(m, d, origin, now);
      && Continues(d, d') && |d'.history| == |d.history| + 1
      && d'.history[|d.history|].step == d.request.step && d'.history[|d.history|].end == now
      && d'.request.kind == d.request.kind && d'.request.recipient == d.request.recipient
  {
    AdvanceRouting(d, m, origin, now);
  }

  /** The row it writes hands over the numbers that depart. */
  lemma AdvanceHands(s: Platform, id: RequestId, origin: Origin)
    requires DossiersSound(s) && id in s.requests && InProgress(s.requests[id])
    ensures var c, s' := Closure(id, |s.requests[id].history|), ApplyTransition(s, id, origin);
      Written(s'.requests, c) && HandedBy(s'.requests, c) == Departing(s.requests[id])
  {
    var d := s.requests[id];
    assert Sound(d, s.market, s.clock);
    AdvanceRouting(d, s.market, origin, s.clock);
  }

  // ---- What each event posts ------------------------------------------------------------

  lemma QuietPosts(s: Platform, id: RequestId, d: Dossier)
    requires id in s.requests && Continues(s.requests[id], d) && d.history == s.requests[id].history
    ensures Posts(s, Put(s, id, d), [])
  {
    PostsNothing(s, Put(s, id, d));
  }

  /** A rejection or a cancellation closes ACCEPTATION, which moves nothing. */
  lemma WithdrawPosts(s: Platform, id: RequestId, d: Dossier)
    requires id in s.requests && Continues(s.requests[id], d) && |d.history| == |s.requests[id].history| + 1
    requires d.history[|s.requests[id].history|].step == Acceptance
    ensures var s' := Put(s, id, d); Posts(s, s', Gained(s, s', id))
  {
    var s' := Put(s, id, d);
    ReplayedOne(s, s', id);
    assert HandedBy(s'.requests, Closure(id, |s.requests[id].history|)) == {};
    assert forall to, restitution, now :: Transfer(s.registry, {}, to, restitution, now) == s.registry;
    PostsOne(s, s', id);
  }

  lemma InsertPosts(s: Platform, d: Dossier)
    requires s.nextId !in s.requests && d.history == []
    ensures Posts(s, Insert(s, d), [])
  {
    PostsNothing(s, Insert(s, d));
  }

  lemma QuietFirst(a: Platform, b: Platform, c: Platform, id: RequestId)
    requires DossiersSound(b) && Posts(a, b, []) && Posts(b, c, Gained(b, c, id))
    requires id in a.requests && id in b.requests && b.requests[id].history == a.requests[id].history
    ensures Posts(a, c, Gained(a, c, id))
  {
    PostsTransitive(a, b, c, [], Gained(b, c, id));
    assert [] + Gained(b, c, id) == Gained(a, c, id);
  }

  lemma SchedulePosts(s: Platform, id: RequestId, window: Window)
    requires DossiersSound(s)
    ensures var s' := ScheduleTransition(s, id, window); Posts(s, s', Gained(s, s', id))
  {
    hide Posts, Gained, DossiersSound, ApplyTransition;
    match window
    case Immediate => TransitionPosts(s, id, Action);
    case Deferred(delay) => DeferralPosts(s, id, s.clock + delay);
  }

  lemma DeferralPosts(s: Platform, id: RequestId, deadline: Time)
    ensures var s' := if id in s.requests then Put(s, id, WithDeadline(s.requests[id], deadline)) else s;
      Posts(s, s', Gained(s, s', id))
  {
    if id in s.requests {
      assert forall n :: Active(WithDeadline(s.requests[id], deadline), n) == Active(s.requests[id], n);
      QuietPosts(s, id, WithDeadline(s.requests[id], deadline));
    } else {
      PostsNothing(s, s);
    }
  }

  lemma EndedContinues(d: Dossier, rejected: seq<RejectedNumber>, status: RequestStatus, caller: OperatorId, now: Time)
    requires d.request.step == Acceptance
    ensures var d' := Ended(RejectNumbers(d, rejected), status, caller, now);
      Continues(d, d') && |d'.history| == |d.history| + 1 && d'.history[|d.history|].step == Acceptance
    ensures Continues(d, RejectNumbers(d, rejected)) && RejectNumbers(d, rejected).history == d.history
  {
    RejectNumbersEffect(d, rejected);
  }

  lemma AcceptPosts(s: Platform, caller: OperatorId, id: RequestId, accept: bool, reason: Option<ReasonId>,
      window: Window)
    requires DossiersSound(s)
    ensures var s' := Accept(s, caller, id, accept, reason, window); Posts(s, s', Gained(s, s', id))
  {
    if AcceptFault(s, caller, id, accept, reason).Some? {
      PostsNothing(s, s);
    } else if accept {
      SchedulePosts(s, id, window);
    } else {
      EndedContinues(s.requests[id], [], RequestRejected, caller, s.clock);
      WithdrawPosts(s, id, Reject(s.requests[id], caller, s.clock));
    }
  }

  lemma AcceptFleetPosts(
    s: Platform, caller: OperatorId, id: RequestId, accept: bool, rejected: seq<RejectedNumber>,
    reason: Option<ReasonId>,
    window: Window)
    requires SoundPlatform(s)
    ensures var s' := AcceptFleet(s, caller, id, accept, rejected, reason, window); Posts(s, s', Gained(s, s', id))
  {
    hide Posts, ScheduleTransition, RejectNumbers, Ended, HasActiveNumber, Continues, SoundPlatform;
    if AcceptFleetFault(s, caller, id, accept, rejected, reason).Some? {
      PostsSame(s);
    } else {
      var d := s.requests[id];
      var d1 := RejectNumbers(d, rejected);
      NoRejection(d);
      EndedContinues(d, [], RequestRejected, caller, s.clock);
      EndedContinues(d, rejected, RequestRejected, caller, s.clock);
      if !accept {
        WithdrawPosts(s, id, Reject(d, caller, s.clock));
      } else if HasActiveNumber(d1) {
        QuietPosts(s, id, d1);
        FleetStillSound(s, caller, id, rejected);
        SchedulePosts(Put(s, id, d1), id, window);
        QuietFirst(s, Put(s, id, d1), ScheduleTransition(Put(s, id, d1), id, window), id);
      } else {
        WithdrawPosts(s, id, Reject(d1, caller, s.clock));
      }
    }
  }

  lemma NoRejection(d: Dossier)
    ensures RejectNumbers(d, []) == d
  {}

  lemma FleetStillSound(s: Platform, caller: OperatorId, id: RequestId, rejected: seq<RejectedNumber>)
    requires SoundPlatform(s) && id in s.requests && CanAccept(s.requests[id].request, caller).None?
    requires HasActiveNumber(RejectNumbers(s.requests[id], rejected))
    ensures DossiersSound(Put(s, id, RejectNumbers(s.requests[id], rejected)))
  {
    PartialRejectKeeps(s, id, rejected, map[]);
  }

  lemma ConfirmPosts(s: Platform, caller: OperatorId, id: RequestId, window: Window)
    requires SoundPlatform(s)
    ensures var s' := Confirm(s, caller, id, window); Posts(s, s', Gained(s, s', id))
  {
    hide ScheduleTransition, CountReached, Posts, SoundPlatform;
    if ConfirmFault(s, caller, id).Some? {
      PostsNothing(s, s);
    } else {
      var d1 := Confirmed(s.requests[id], caller);
      assert forall n :: Active(d1, n) == Active(s.requests[id], n);
      QuietPosts(s, id, d1);
      ConfirmedKeeps(s, caller, id, map[]);
      SoundDossiers(Put(s, id, d1));
      if CountReached(d1, s.market) {
        SchedulePosts(Put(s, id, d1), id, window);
        QuietFirst(s, Put(s, id, d1), ScheduleTransition(Put(s, id, d1), id, window), id);
      }
    }
  }

  lemma ProcessPosts(s: Platform, caller: OperatorId, id: RequestId, window: Window)
    requires DossiersSound(s)
    ensures var s' := Process(s, caller, id, window); Posts(s, s', Gained(s, s', id))
  {
    if ProcessFault(s, caller, id).Some? {
      PostsNothing(s, s);
    } else {
      SchedulePosts(s, id, window);
    }
  }

  lemma CancelPosts(s: Platform, caller: OperatorId, id: RequestId)
    ensures var s' := Cancel(s, caller, id); Posts(s, s', Gained(s, s', id))
  {
    if CancelFault(s, caller, id).Some? {
      PostsNothing(s, s);
    } else {
      var d := s.requests[id];
      EndedContinues(d, [], RequestCancelled, caller, s.clock);
      var d' := CancelWrite(d, d.request.step, caller, s.clock).value;
      assert forall n :: Active(d', n) == Active(d, n);
      WithdrawPosts(s, id, d');
    }
  }

  lemma CreationPosts(s: Platform, caller: OperatorId, c: Call)
    requires SoundPlatform(s) && Target(c).None? && !c.PurgeCall?
    ensures Posts(s, Perform(s, caller, c), [])
  {
    assert s.nextId !in s.requests;
    match c
    case CreateIndividualCall(n, source, recipient, otp) => IndividualPosts(s, caller, n, source, recipient, otp);
    case CreateFleetCall(carrier, source, recipient, numbers, otp) =>
      FleetPosts(s, caller, carrier, source, recipient, numbers, otp);
    case CreateRestitutionCall(n) => RestitutionPosts(s, caller, n);
    case SubmitReverseCall(n) => PostsNothing(s, SubmitReverse(s, caller, n));
  }

  lemma IndividualPosts(s: Platform, caller: OperatorId, n: Msisdn, source: OperatorId, recipient: OperatorId,
      otp: bool)
    requires s.nextId !in s.requests
    ensures Posts(s, CreateIndividual(s, caller, n, source, recipient, otp), [])
  {
    if CreateIndividualFault(s, caller, n, source, recipient, otp).Some? {
      PostsNothing(s, s);
    } else {
      var prefix := RoutingPrefix(s.market, source);
      InsertPosts(s, NewDossier(NewRequest(n, Individual, Porting, Acceptance, source, recipient, prefix, s.clock),
                                SingleRow(n, prefix)));
    }
  }

  lemma FleetPosts(
    s: Platform, caller: OperatorId, carrier: Msisdn, source: OperatorId, recipient: OperatorId,
    numbers: seq<Msisdn>, otp: bool)
    requires s.nextId !in s.requests
    ensures Posts(s, CreateFleet(s, caller, carrier, source, recipient, numbers, otp), [])
  {
    hide Deduplicate, Retained, Excluded, FleetRows, FleetCheck, SameHolder, Posts;
    if CreateFleetFault(s, caller, source, recipient, numbers, otp).Some? {
      PostsNothing(s, s);
    } else {
      InsertPosts(s, CreatedFleet(s, carrier, source, recipient, numbers));
    }
  }

  lemma RestitutionPosts(s: Platform, caller: OperatorId, n: Msisdn)
    requires s.nextId !in s.requests
    ensures Posts(s, CreateRestitution(s, caller, n), [])
  {
    if CreateRestitutionFault(s, caller, n).Some? {
      PostsNothing(s, s);
    } else {
      var e := s.registry[n];
      InsertPosts(s, NewDossier(NewRequest(n, Individual, Restitution, Acceptance, e.holder, e.origin, None, s.clock),
                                SingleRow(n, None)));
    }
  }

  lemma PerformPosts(s: Platform, caller: OperatorId, c: Call)
    requires SoundPlatform(s) && !c.PurgeCall?
    ensures var s' := Perform(s, caller, c);
      Posts(s, s', if Target(c).Some? then Gained(s, s', Target(c).value) else [])
  {
    hide SoundPlatform, Posts, Gained, Accept, AcceptFleet, Confirm, Process, Cancel;
    assert DossiersSound(s) by { SoundDossiers(s); }
    match c
    case AcceptCall(id, accept, reason, window) => AcceptPosts(s, caller, id, accept, reason, window);
    case AcceptFleetCall(id, accept, rejected, reason, window) =>
      AcceptFleetPosts(s, caller, id, accept, rejected, reason, window);
    case ConfirmCall(id, window) => ConfirmPosts(s, caller, id, window);
    case ProcessCall(id, window) => ProcessPosts(s, caller, id, window);
    case CancelCall(id) => CancelPosts(s, caller, id);
    case _ => CreationPosts(s, caller, c);
  }

  lemma SoundDossiers(s: Platform)
    requires SoundPlatform(s)
    ensures DossiersSound(s)
  {}

  // ---- The passes of a tick ------------------------------------------------------------

  /** Posting looks at no clock. */
  lemma PostsAt(a: Platform, b: Platform, t: Time, log: seq<Closure>)
    ensures Posts(At(a, t), b, log) <==> Posts(a, b, log)
  {}

  lemma {:induction false} PassPosts(s: Platform, jobs: seq<Job>, origin: Origin)
    requires Inv(s, map[]) && InOrder(s.clock, jobs)
    ensures Posts(s, ApplyAll(s, jobs, origin), PassLog(s, jobs, origin))
  {
    if jobs == [] {
      PostsNothing(s, s);
    } else {
      var front, last := jobs[..|jobs| - 1], jobs[|jobs| - 1];
      PassPosts(s, front, origin);
      PassKeeps(s, front, origin, map[]);
      var s1, s2 := ApplyAll(s, front, origin), ApplyAll(s, jobs, origin);
      AtKeeps(s1, last.at, map[]);
      TransitionPosts(At(s1, last.at), last.id, origin);
      hide Posts, Inv, PassLog;
      PostsAt(s1, s2, last.at, Gained(s1, s2, last.id));
      PostsTransitive(s, s1, s2, PassLog(s, front, origin), Gained(s1, s2, last.id));
      assert PassLog(s, jobs, origin) == PassLog(s, front, origin) + Gained(s1, s2, last.id)
          by { PassLogLast(s, jobs, origin); }
    }
  }

  lemma PassLogLast(s: Platform, jobs: seq<Job>, origin: Origin)
    requires jobs != []
    ensures var front := jobs[..|jobs| - 1];
      PassLog(s, jobs, origin)
      == PassLog(s, front, origin) + Gained(ApplyAll(s, front, origin), ApplyAll(s, jobs, origin), jobs[|jobs| - 1].id)
  {}

  lemma CompletionPosts(s: Platform, j: CompletionJob)
    requires Inv(s, map[]) && s.clock <= j.first <= j.second
    ensures Posts(s, CompleteOne(s, j), CompletionLog(s, j))
  {
    var s1 := if j.fromConfirmation then ApplyTransition(At(s, j.first), j.id, Action) else s;
    var s2 := CompleteOne(s, j);
    AtKeeps(s, j.first, map[]);
    TransitionKeeps(At(s, j.first), j.id, Action, map[]);
    AtKeeps(s1, j.second, map[]);
    TransitionPosts(At(s, j.first), j.id, Action);
    TransitionPosts(At(s1, j.second), j.id, Action);
    PostsAt(s, s1, j.first, Gained(s, s1, j.id));
    PostsAt(s1, s2, j.second, Gained(s1, s2, j.id));
    if !j.fromConfirmation {
      PostsNothing(s, s);
    }
    hide Posts, ApplyTransition;
    PostsTransitive(s, s1, s2, Gained(s, s1, j.id), Gained(s1, s2, j.id));
  }

  lemma {:induction false} CompletionsPosts(s: Platform, jobs: seq<CompletionJob>)
    requires Inv(s, map[]) && CompletionsInOrder(s.clock, jobs)
    ensures Posts(s, CompleteAll(s, jobs), CompletionsLog(s, jobs))
  {
    if jobs == [] {
      PostsNothing(s, s);
    } else {
      var front, last := jobs[..|jobs| - 1], jobs[|jobs| - 1];
      CompletionsPosts(s, front);
      CompleteAllKeeps(s, front, map[]);
      var s1 := CompleteAll(s, front);
      hide Posts, CompleteOne, CompletionLog;
      CompletionPosts(s1, last);
      PostsTransitive(s, s1, CompleteOne(s1, last), CompletionsLog(s, front), CompletionLog(s1, last));
    }
  }

  lemma {:induction false} AllValidationsPost(s: Platform, jobs: seq<Job>)
    requires Inv(s, map[]) && InOrder(s.clock, jobs)
    ensures Posts(s, ValidateAll(s, jobs), [])
  {
    if jobs == [] {
      PostsNothing(s, s);
    } else {
      var front, last := jobs[..|jobs| - 1], jobs[|jobs| - 1];
      AllValidationsPost(s, front);
      ValidateAllKeeps(s, front, map[]);
      hide Posts, ValidateReverse, SoundPlatform;
      var s1 := ValidateAll(s, front);
      ValidationPosts(s1, last.at, last.id);
      assert DossiersSound(s1) by { SoundDossiers(s1); }
      var nothing: seq<Closure> := [];
      PostsTransitive(s, s1, ValidateAll(s, jobs), nothing, nothing);
      assert nothing + nothing == nothing;
    }
  }

  lemma ValidationsPost(s: Platform, p: TickPlan)
    requires Inv(s, map[]) && ValidatePossible(s, p)
    ensures Posts(s, ValidateAll(At(s, p.validateAt), p.validate), [])
  {
    AtKeeps(s, p.validateAt, map[]);
    AllValidationsPost(At(s, p.validateAt), p.validate);
    PostsAt(s, ValidateAll(At(s, p.validateAt), p.validate), p.validateAt, []);
  }

  lemma ConvergencePosts(s: Platform, p: TickPlan)
    requires Inv(s, map[]) && ConvergePossible(s, p)
    ensures Posts(s, Converged(s, p), PassLog(At(s, p.dueAt), p.converge, Action)) && Inv(Converged(s, p), map[])
  {
    AtKeeps(s, p.dueAt, map[]);
    ConvergeKeeps(s, p, map[]);
    hide Inv, Posts, QuorumPlatform;
    PassPosts(At(s, p.dueAt), p.converge, Action);
    PostsAt(s, Converged(s, p), p.dueAt, PassLog(At(s, p.dueAt), p.converge, Action));
  }

  lemma EnginePosts(s: Platform, p: TickPlan)
    requires Inv(s, map[]) && ConvergePossible(s, p) && ExpirePossible(Converged(s, p), p)
    ensures Posts(s, Expired(s, p), EngineLog(s, p)) && Inv(Expired(s, p), map[])
  {
    var s1, s2 := Converged(s, p), Expired(s, p);
    ConvergencePosts(s, p);
    SoundDossiers(s1);
    hide Inv, Posts, PassLog, DossiersSound, QuorumPlatform;
    ExpireKeeps(s1, p, map[]);
    PassPosts(s1, p.expire, Expiration);
    PostsTransitive(s, s1, s2, PassLog(At(s, p.dueAt), p.converge, Action), PassLog(s1, p.expire, Expiration));
  }

  lemma ActsPost(s: Platform, p: TickPlan)
    requires Inv(s, map[]) && ValidatePossible(s, p)
    requires CompletePossible(ValidateAll(At(s, p.validateAt), p.validate), p)
    ensures var s1 := ValidateAll(At(s, p.validateAt), p.validate);
      Posts(s, CompleteAll(s1, p.complete), CompletionsLog(s1, p.complete))
  {
    var s1 := ValidateAll(At(s, p.validateAt), p.validate);
    ValidationsPost(s, p);
    ValidateKeeps(s, p, map[]);
    SoundDossiers(s1);
    hide Inv, Posts, CompletionsLog, DossiersSound, QuorumPlatform;
    CompletionsPosts(s1, p.complete);
    PostsTransitive(s, s1, CompleteAll(s1, p.complete), [], CompletionsLog(s1, p.complete));
    assert [] + CompletionsLog(s1, p.complete) == CompletionsLog(s1, p.complete);
  }

  lemma TickPosts(s: Platform, p: TickPlan)
    requires Inv(s, map[]) && TickPossible(s, p)
    ensures Posts(s, Tick(s, p), TickLog(s, p))
  {
    if s.frozen {
      PostsNothing(s, Tick(s, p));
    } else {
      EnginePosts(s, p);
      SoundDossiers(Expired(s, p));
      hide Inv, Posts, DossiersSound, EngineLog, CompletionsLog;
      ActsPost(Expired(s, p), p);
      PostsTransitive(s, Expired(s, p), Tick(s, p), EngineLog(s, p), CompletionsLog(Validated(s, p), p.complete));
    }
  }

  lemma EventPosts(s: Platform, e: Event)
    requires Inv(s, map[]) && Possible(s, e) && !IsPurge(e)
    ensures Posts(s, Next(s, e), EventLog(s, e))
  {
    hide Posts, Tick, TickLog, Perform, SoundPlatform, TickPossible;
    match e
    case OperatorCall(caller, at, call) =>
      AtKeeps(s, at, map[]);
      PerformPosts(At(s, at), caller, call);
      PostsAt(s, Next(s, e), at, EventLog(s, e));
      assert Target(call).Some?
          ==> Gained(At(s, at), Next(s, e), Target(call).value) == Gained(s, Next(s, e), Target(call).value);
    case ArtpValidates(at, rid) => ValidationPosts(s, at, rid);
    case ArtpRejects(at, rid) => RejectionPosts(s, at, rid);
    case IncidentChanges(at, frozen) => PostsNothing(s, Next(s, e));
    case EngineTicks(plan) => TickPosts(s, plan);
  }

  lemma ValidationPosts(s: Platform, at: Time, rid: RequestId)
    requires SoundPlatform(s)
    ensures Posts(s, ValidateReverse(At(s, at), rid), [])
  {
    SoundDossiers(s);
    hide SoundPlatform;
    assert s.nextId !in s.requests;
    PostsNothing(s, ValidateReverse(At(s, at), rid));
  }

  lemma RejectionPosts(s: Platform, at: Time, rid: RequestId)
    ensures Posts(s, RejectReverse(At(s, at), rid), [])
  {
    PostsNothing(s, RejectReverse(At(s, at), rid));
  }

  // ---- The theorem ------------------------------------------------------------------------

  lemma {:induction false} RunPosts(s: Platform, run: seq<Event>)
    requires Initial(s) && PossibleRun(s, run) && PurgeFree(run)
    ensures Posts(s, Exec(s, run), Log(s, run))
  {
    if run == [] {
      PostsNothing(s, s);
    } else {
      var front, last := run[..|run| - 1], run[|run| - 1];
      assert last in run && PurgeFree(front) by {
        forall e | e in front ensures !IsPurge(e) { assert e in run; }
      }
      RunPosts(s, front);
      hide Posts, Next, EventLog, Possible, Initial, PurgeFree, SoundPlatform, Inv, Kept, QuorumPlatform;
      RunKeeps(s, front);
      var s1 := Exec(s, front);
      InvAtNothing(s1, Kept(s, front));
      EventPosts(s1, last);
      assert DossiersSound(s1) by { SoundDossiers(s1); }
      PostsTransitive(s, s1, Next(s1, last), Log(s, front), EventLog(s1, last));
    }
  }

  /** In a run without purge the log holds every history row exactly once, and the
    registry is its replay over the initial one: each closed ACTIVATION of a porting
    and each closed COMPLETION of a restitution or reverse, in the order the run closed
    them, nothing else. */
  lemma RegistryIsReplay(s: Platform, run: seq<Event>, s': Platform)
    requires Reaches(s, run, s') && PurgeFree(run)
    ensures forall c :: c in Log(s, run) <==> Written(s'.requests, c)
    ensures forall i, j | 0 <= i < j < |Log(s, run)| :: Log(s, run)[i] != Log(s, run)[j]
    ensures s'.registry == Replayed(s.registry, s'.requests, Log(s, run))
  {
    RunPosts(s, run);
  }

  predicate HandsOver(requests: map<RequestId, Dossier>, c: Closure, n: Msisdn) {
    Written(requests, c) && n in HandedBy(requests, c)
  }

  /** Only the last closure that hands a number over decides who holds it. */
  lemma {:induction false} LastMover(
    initial: Registry, requests: map<RequestId, Dossier>, log: seq<Closure>, n: Msisdn, i: nat)
    requires n in initial && i <= |log|
    requires forall j | i <= j < |log| :: !HandsOver(requests, log[j], n)
    requires i == 0 || HandsOver(requests, log[i - 1], n)
    ensures var after := Replayed(initial, requests, log);
      && n in after
      && (i == 0 ==> after[n] == initial[n])
      && (i > 0 ==> var d := requests[log[i - 1].id];
            && after[n].holder == d.request.recipient
            && after[n].lastPorting == Some(d.history[log[i - 1].k].end))
  {
    if log != [] {
      var front := log[..|log| - 1];
      if i < |log| {
        LastMover(initial, requests, front, n, i);
      } else {
        SameNumbers(initial, requests, front);
      }
    }
  }

  lemma {:induction false} SameNumbers(initial: Registry, requests: map<RequestId, Dossier>, log: seq<Closure>)
    ensures Replayed(initial, requests, log).Keys == initial.Keys
  {
    if log != [] {
      SameNumbers(initial, requests, log[..|log| - 1]);
    }
  }

  // ---- Runs with purges ---------------------------------------------------------------------

  /** What is true of a log across purges: the rows of the requests still there, each
    once, and, at every number spared, a replay that gives the registry. */
  ghost predicate Accounts(initial: Registry, kept: Registry, s: Platform, log: seq<Closure>) {
    && (forall c | c in log :: c.id < s.nextId && (c.id in s.requests ==> Written(s.requests, c)))
    && (forall c | Written(s.requests, c) :: c in log)
    && (forall i, j | 0 <= i < j < |log| :: log[i] != log[j])
    && kept.Keys <= initial.Keys && initial.Keys == s.registry.Keys
    && forall n | n in kept :: SameEntry(Replayed(initial, s.requests, log), s.registry, n)
  }

  predicate SameEntry(a: Registry, b: Registry, n: Msisdn) {
    n in a && n in b && a[n] == b[n]
  }

  /** Entry by entry, a replay depends on the entry it starts from. */
  lemma {:induction false} ReplayedPointwise(
    a: Registry, b: Registry, requests: map<RequestId, Dossier>, log: seq<Closure>, n: Msisdn)
    requires SameEntry(a, b, n)
    ensures SameEntry(Replayed(a, requests, log), Replayed(b, requests, log), n)
  {
    if log != [] {
      ReplayedPointwise(a, b, requests, log[..|log| - 1], n);
    }
  }

  lemma {:induction false} ReplayedPurged(initial: Registry, s: Platform, caller: OperatorId, log: seq<Closure>,
      n: Msisdn)
    requires DossiersSound(s) && n in initial && !NamedBy(s, caller, n)
    ensures SameEntry(Replayed(initial, s.requests, log), Replayed(initial, Purge(s, caller).requests, log), n)
  {
    hide DossiersSound, NamedBy, Purge, HandedBy;
    if log != [] {
      var front, last := log[..|log| - 1], log[|log| - 1];
      ReplayedPurged(initial, s, caller, front, n);
      SettledPurged(s, caller, last, n);
    }
  }

  lemma SettledPurged(s: Platform, caller: OperatorId, c: Closure, n: Msisdn)
    requires DossiersSound(s) && !NamedBy(s, caller, n)
    ensures var after := Purge(s, caller).requests;
      && (Written(after, c) ==> Written(s.requests, c) && after[c.id] == s.requests[c.id]
                                && HandedBy(after, c) == HandedBy(s.requests, c))
      && (Written(s.requests, c) && !Written(after, c) ==> n !in HandedBy(s.requests, c))
  {
    PurgeFrame(s, caller);
    PurgeSparesOthers(s, caller);
    hide Purge, DossiersSound;
    if Written(s.requests, c) {
      var d := s.requests[c.id];
      assert n in HandedBy(s.requests, c) ==> n == d.request.msisdn || n in d.numbers;
    }
  }

  lemma PurgeFrame(s: Platform, caller: OperatorId)
    ensures var s' := Purge(s, caller);
      && s'.nextId == s.nextId && s'.registry.Keys == s.registry.Keys
      && forall id | id in s'.requests :: id in s.requests && s'.requests[id] == s.requests[id]
  {
    hide RequestsToPurge, NumbersToRestore, ReversePurged;
  }

  lemma UnnamedIs(s: Platform, caller: OperatorId, initial: Registry)
    ensures forall n :: n in Unnamed(s, caller, initial) <==> n in initial && !NamedBy(s, caller, n)
  {}

  lemma PurgeAccounts(initial: Registry, kept: Registry, s: Platform, caller: OperatorId, log: seq<Closure>)
    requires DossiersSound(s) && Accounts(initial, kept, s, log)
    ensures Accounts(initial, Unnamed(s, caller, kept), Purge(s, caller), log)
  {
    hide Purge, NamedBy, DossiersSound, Replayed, Unnamed;
    var s', spared := Purge(s, caller), Unnamed(s, caller, kept);
    PurgeFrame(s, caller);
    UnnamedIs(s, caller, kept);
    forall n | n in spared ensures SameEntry(Replayed(initial, s'.requests, log), s'.registry, n) {
      PurgeSpares(s, caller, n);
      ReplayedPurged(initial, s, caller, log, n);
      assert SameEntry(Replayed(initial, s.requests, log), s.registry, n);
    }
  }

  lemma EventAccounts(initial: Registry, kept: Registry, s: Platform, s': Platform, log: seq<Closure>,
      more: seq<Closure>)
    requires DossiersSound(s) && DossiersSound(s') && Framed(s, s')
    requires Accounts(initial, kept, s, log) && Posts(s, s', more)
    ensures Accounts(initial, kept, s', log + more)
  {
    forall c | c in log ensures c.id in s'.requests ==> Written(s.requests, c) && Written(s'.requests, c) {
      if c.id in s.requests && c.id in s'.requests { assert Continues(s.requests[c.id], s'.requests[c.id]); }
    }
    forall c | Written(s'.requests, c) ensures c in log + more {
      assert Written(s.requests, c) || Fresh(s, s', c);
    }
    forall c | c in more ensures c !in log && c.id < s'.nextId { assert Fresh(s, s', c); }
    DistinctAppend(log, more);
    forall n | n in kept ensures SameEntry(Replayed(initial, s'.requests, log + more), s'.registry, n) {
      EntryAccounts(initial, s, s', log, more, n);
    }
  }

  lemma EntryAccounts(initial: Registry, s: Platform, s': Platform, log: seq<Closure>, more: seq<Closure>, n: Msisdn)
    requires DossiersSound(s) && Posts(s, s', more)
    requires forall c | c in log :: Written(s.requests, c) || c.id !in s'.requests
    requires SameEntry(Replayed(initial, s.requests, log), s.registry, n)
    ensures SameEntry(Replayed(initial, s'.requests, log + more), s'.registry, n)
  {
    hide DossiersSound, Continue, Fresh;
    ReplayedOnwards(initial, s, s', log);
    ReplayedAppend(initial, s'.requests, log, more);
    ReplayedPointwise(Replayed(initial, s'.requests, log), s.registry, s'.requests, more, n);
  }

  lemma {:induction false} RunAccounts(s: Platform, run: seq<Event>)
    requires Initial(s) && PossibleRun(s, run)
    ensures Accounts(s.registry, Kept(s, run), Exec(s, run), Log(s, run))
  {
    if run != [] {
      var front, last := run[..|run| - 1], run[|run| - 1];
      RunAccounts(s, front);
      RunKeeps(s, front);
      RunKeeps(s, run);
      hide Accounts, Next, EventLog, Possible, Initial, SoundPlatform, Ledger, Spaced, RestitutedOnce, HoldersOk,
        Unnamed;
      var s1 := Exec(s, front);
      SoundDossiers(s1);
      SoundDossiers(Exec(s, run));
      NextFrames(s1, last);
      if IsPurge(last) {
        AtPurge(s1, last);
        PurgeAccounts(s.registry, Kept(s, front), s1, last.caller, Log(s, front));
        AccountsAt(s.registry, Kept(s, run), Purge(s1, last.caller), last.at, Log(s, front));
        assert Log(s, run) == Log(s, front);
      } else {
        InvAtNothing(s1, Kept(s, front));
        EventPosts(s1, last);
        EventAccounts(s.registry, Kept(s, front), s1, Next(s1, last), Log(s, front), EventLog(s1, last));
      }
    }
  }

  lemma InvAtNothing(s: Platform, initial: Registry)
    requires Inv(s, initial)
    ensures Inv(s, map[]) && SoundPlatform(s)
  {
    SoundIsInv(s);
  }

  lemma AtPurge(s: Platform, e: Event)
    requires IsPurge(e)
    ensures Next(s, e) == At(Purge(s, e.caller), e.at) && EventLog(s, e) == []
  {
    assert RequestsToPurge(At(s, e.at), e.caller) == RequestsToPurge(s, e.caller);
    assert NumbersToRestore(At(s, e.at), RequestsToPurge(s, e.caller)) == NumbersToRestore(s,
        RequestsToPurge(s, e.caller));
  }

  lemma AccountsAt(initial: Registry, kept: Registry, s: Platform, t: Time, log: seq<Closure>)
    ensures Accounts(initial, kept, At(s, t), log) <==> Accounts(initial, kept, s, log)
  {}

  /** In every run, purges included, the log holds every row of the requests still there
    exactly once, and at every number that no purge names the registry is its replay. */
  lemma SparedIsReplay(s: Platform, run: seq<Event>, s': Platform, n: Msisdn)
    requires Reaches(s, run, s') && Spared(s, run, n) && n in s.registry
    ensures forall c :: Written(s'.requests, c) <==> c in Log(s, run) && c.id in s'.requests
    ensures forall i, j | 0 <= i < j < |Log(s, run)| :: Log(s, run)[i] != Log(s, run)[j]
    ensures SameEntry(Replayed(s.registry, s'.requests, Log(s, run)), s'.registry, n)
  {
    RunAccounts(s, run);
    KeptIsSpared(s, run, n);
    hide PossibleRun, Exec, Initial, Replayed, Spared;
  }

  /** So, ties of dates included, a number is held by the recipient of the last closure
    of the run that handed it over, or by its initial holder when none did, unless a
    purge named it. */
  lemma HolderIsLastMover(s: Platform, run: seq<Event>, s': Platform, n: Msisdn, i: nat)
    requires Reaches(s, run, s') && Spared(s, run, n) && n in s'.registry
    requires i <= |Log(s, run)| && (i == 0 || HandsOver(s'.requests, Log(s, run)[i - 1], n))
    requires forall j | i <= j < |Log(s, run)| :: !HandsOver(s'.requests, Log(s, run)[j], n)
    ensures n in s.registry && (i > 0 ==> Log(s, run)[i - 1].id in s'.requests)
    ensures s'.registry[n].holder
            == if i == 0 then s.registry[n].holder else s'.requests[Log(s, run)[i - 1].id].request.recipient
  {
    RunFrames(s, run);
    assert s'.registry.Keys == s.registry.Keys;
    hide Reaches, Log, Framed, Spared;
    SparedIsReplay(s, run, s', n);
    LastMover(s.registry, s'.requests, Log(s, run), n, i);
  }

  /** The same through one tick, from any sound state: the last closure of the tick that
    hands the number over decides who holds it. */
  lemma TickHolderIsLastMover(s: Platform, p: TickPlan, s': Platform, n: Msisdn, i: nat)
    requires SoundPlatform(s) && TickPossible(s, p) && s' == Tick(s, p) && n in s.registry
    requires i <= |TickLog(s, p)| && (i == 0 || HandsOver(s'.requests, TickLog(s, p)[i - 1], n))
    requires forall j | i <= j < |TickLog(s, p)| :: !HandsOver(s'.requests, TickLog(s, p)[j], n)
    ensures n in s'.registry && (i > 0 ==> TickLog(s, p)[i - 1].id in s'.requests)
    ensures s'.registry[n].holder
            == if i == 0 then s.registry[n].holder else s'.requests[TickLog(s, p)[i - 1].id].request.recipient
  {
    SoundIsInv(s);
    hide SoundPlatform, Inv, TickPossible, Tick, TickLog;
    TickPosts(s, p);
    LastMover(s.registry, s'.requests, TickLog(s, p), n, i);
  }
}
