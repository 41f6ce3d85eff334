/** Progress whatever else happens: the engine brings a request forward at every late
  enough tick, with any calls, acts and freezes in between. */
module Liveness {
  import opened Entities
  import opened Tables
  import opened Operations
  import opened Finite
  import opened Lifecycle
  import opened Invariants
  import opened Evolution
  import opened Runs
  import opened Ticks

  /** The event is an unfrozen tick late enough for the request. */
  predicate LateTick(s: Platform, e: Event, id: RequestId) {
    e.EngineTicks? && !s.frozen && id in s.requests && LateFor(s.requests[id], e.plan)
  }

  function LateTicks(s: Platform, run: seq<Event>, id: RequestId): nat {
    if run == [] then 0
    else
      var front := run[..|run| - 1];
      LateTicks(s, front, id) + if LateTick(Exec(s, front), run[|run| - 1], id) then 1 else 0
  }

  /** How far a request must be after some late ticks, if it has not ended. */
  predicate Ahead(d: Dossier, ticks: nat, d': Dossier) {
    && d'.request.kind == d.request.kind
    && (InProgress(d')
        ==> Rank(d.request.step) + ticks <= Rank(d'.request.step) && (d.request.kind == Reverse ==> ticks == 0))
  }

  lemma EvolvesAhead(d: Dossier, ticks: nat, d1: Dossier, d2: Dossier)
    requires Ahead(d, ticks, d1) && Evolves(d1, d2) && HistoryShape(d1) && HistoryShape(d2)
    ensures Ahead(d, ticks, d2)
  {}

  lemma OneStepAhead(d: Dossier, ticks: nat, d1: Dossier, d2: Dossier)
    requires Ahead(d, ticks, d1) && InProgress(d1) && d2.request.kind == d1.request.kind
    requires if d1.request.kind == Reverse || d1.request.step == Completion then d2.request.status == RequestCompleted
             else InProgress(d2) && NextStep(d1.request.step) == Some(d2.request.step)
    ensures Ahead(d, ticks + 1, d2)
  {}

  lemma EndedAhead(d: Dossier, ticks: nat, d1: Dossier, d2: Dossier)
    requires Ahead(d, ticks, d1) && Evolves(d1, d2) && !InProgress(d1)
    ensures Ahead(d, ticks + 1, d2)
  {}

  lemma EventAhead(s: Platform, e: Event, id: RequestId, d: Dossier, ticks: nat)
    requires SoundPlatform(s) && Possible(s, e) && id in s.requests && Ahead(d, ticks, s.requests[id])
    requires IsPurge(e) ==> e.caller != s.requests[id].request.creator
    ensures var s' := Next(s, e);
      && id in s'.requests && SoundPlatform(s') && Evolves(s.requests[id], s'.requests[id])
      && Ahead(d, ticks, s'.requests[id]) && s'.requests[id].request.kind == s.requests[id].request.kind
  {
    SoundNext(s, e);
    EventEvolves(s, e, id);
    var s' := Next(s, e);
    assert Sound(s.requests[id], s.market, s.clock) && Sound(s'.requests[id], s'.market, s'.clock);
    hide SoundPlatform, Possible, Next, Evolves, Ahead, HistoryShape;
    EvolvesAhead(d, ticks, s.requests[id], s'.requests[id]);
  }

  lemma StepAhead(s: Platform, e: Event, id: RequestId, d: Dossier, ticks: nat)
    requires SoundPlatform(s) && Possible(s, e) && id in s.requests && Ahead(d, ticks, s.requests[id])
    requires IsPurge(e) ==> e.caller != s.requests[id].request.creator
    ensures var s' := Next(s, e);
      id in s'.requests && SoundPlatform(s') && Ahead(d, ticks + (if LateTick(s, e, id) then 1 else 0), s'.requests[id])
  {
    hide SoundPlatform, TickPossible, Tick, Ahead, Evolves, LateFor;
    EventAhead(s, e, id, d, ticks);
    if LateTick(s, e, id) && InProgress(s.requests[id]) {
      LateTickAdvances(s, e.plan, id);
      OneStepAhead(d, ticks, s.requests[id], Next(s, e).requests[id]);
    } else if LateTick(s, e, id) {
      EndedAhead(d, ticks, s.requests[id], Next(s, e).requests[id]);
    }
  }

  lemma AheadEnds(d: Dossier, ticks: nat, d': Dossier)
    requires Ahead(d, ticks, d')
    ensures ticks >= (if d.request.kind == Reverse then 1 else 5 - Rank(d.request.step)) ==> !InProgress(d')
  {}

  /** Whatever calls, acts and freezes come in between, a porting or restitution has
    ended or has gained a step for every late tick, and a REVERSE has ended after one;
    so a request at step k of the sequence has ended after 5 - k of them. */
  lemma {:induction false} ProgressAmidCalls(s: Platform, run: seq<Event>, id: RequestId)
    requires SoundPlatform(s) && PossibleRun(s, run) && id in s.requests && InProgress(s.requests[id])
    requires Stays(run, s.requests[id].request.creator)
    ensures var d, s', ticks := s.requests[id], Exec(s, run), LateTicks(s, run, id);
      && id in s'.requests && SoundPlatform(s') && s'.requests[id].request.creator == d.request.creator
      && Ahead(d, ticks, s'.requests[id])
      && (ticks >= (if d.request.kind == Reverse then 1 else 5 - Rank(d.request.step)) ==> !InProgress(s'.requests[id]))
  {
    if run != [] {
      var front, last := run[..|run| - 1], run[|run| - 1];
      StaysFront(run, s.requests[id].request.creator);
      ProgressAmidCalls(s, front, id);
      hide SoundPlatform, Possible, Next, Stays, LateTick, Ahead;
      StepAhead(Exec(s, front), last, id, s.requests[id], LateTicks(s, front, id));
      EventEvolves(Exec(s, front), last, id);
      AheadEnds(s.requests[id], LateTicks(s, run, id), Next(Exec(s, front), last).requests[id]);
    }
  }

  // ---- A late tick always exists --------------------------------------------------------

  function JobsAt(ids: seq<RequestId>, t: Time): (jobs: seq<Job>)
    ensures |jobs| == |ids| && forall i | 0 <= i < |ids| :: jobs[i] == Job(ids[i], t)
  {
    seq(|ids|, i requires 0 <= i < |ids| => Job(ids[i], t))
  }

  lemma JobsFor(ids: set<RequestId>, t: Time) returns (jobs: seq<Job>)
    ensures Enumerates(jobs, ids) && InOrder(t, jobs) && forall i | 0 <= i < |jobs| :: jobs[i].at == t
  {
    var listed := Enumerate(ids);
    jobs := JobsAt(listed, t);
    forall id | id in ids ensures exists i | 0 <= i < |jobs| :: jobs[i].id == id {
      assert id in listed;
      var i :| 0 <= i < |listed| && listed[i] == id;
      assert jobs[i].id == id;
    }
    assert forall i | 0 <= i < |listed| :: listed[i] in listed;
  }

  lemma CompletionsFor(s: Platform, t: Time) returns (jobs: seq<CompletionJob>)
    ensures EnumeratesCompletions(jobs, s) && CompletionsInOrder(t, jobs)
  {
    var listed := Enumerate(PendingReverseCompletions(s));
    jobs := seq(|listed|, i requires 0 <= i < |listed| =>
      CompletionJob(listed[i], listed[i] in s.requests && s.requests[listed[i]].request.step == Confirmation, t, t));
    forall id | id in PendingReverseCompletions(s) ensures exists i | 0 <= i < |jobs| :: jobs[i].id == id {
      assert id in listed;
      var i :| 0 <= i < |listed| && listed[i] == id;
      assert jobs[i].id == id;
    }
    assert forall i | 0 <= i < |listed| :: listed[i] in listed;
  }

  lemma {:induction false} PassClock(s: Platform, jobs: seq<Job>, origin: Origin)
    requires forall i | 0 <= i < |jobs| :: jobs[i].at == s.clock
    ensures ApplyAll(s, jobs, origin).clock == s.clock
  {
    if jobs != [] {
      PassClock(s, jobs[..|jobs| - 1], origin);
    }
  }

  lemma {:induction false} ValidationsClock(s: Platform, jobs: seq<Job>)
    requires forall i | 0 <= i < |jobs| :: jobs[i].at == s.clock
    ensures ValidateAll(s, jobs).clock == s.clock
  {
    if jobs != [] {
      ValidationsClock(s, jobs[..|jobs| - 1]);
    }
  }

  /** In any state, for any configuration and any instant from now on, some tick starts
    then. */
  lemma ATickIsPossible(s: Platform, start: Time, timeout: Time, delay: Time) returns (p: TickPlan)
    requires s.clock <= start
    ensures TickPossible(s, p) && p.start == start && p.timeout == timeout && p.autoValidation == delay
  {
    hide ApplyAll, ValidateAll, DueConvergences, OverdueSteps, OverdueForAutoValidation, PendingReverseCompletions,
      Enumerates, InOrder, EnumeratesCompletions, CompletionsInOrder;
    var s0 := At(s, start);
    var converge := JobsFor(DueConvergences(s, start), start);
    PassClock(s0, converge, Action);
    var s1 := ApplyAll(s0, converge, Action);
    var expire := JobsFor(if timeout <= 0 then {} else OverdueSteps(s1, timeout, start), start);
    PassClock(s1, expire, Expiration);
    var s2 := ApplyAll(s1, expire, Expiration);
    var validate := JobsFor(if delay <= 0 then {} else OverdueForAutoValidation(s2, delay, start), start);
    ValidationsClock(At(s2, start), validate);
    var s3 := ValidateAll(At(s2, start), validate);
    var complete := CompletionsFor(s3, start);
    p := TickPlan(timeout, delay, start, start, start, converge, expire, validate, complete);
    assert Converged(s, p) == s1 && Expired(s, p) == s2 && Validated(s, p) == s3;
  }

  lemma {:induction false} DeadlineBound(s: Platform, ids: seq<RequestId>) returns (t: Time)
    ensures s.clock <= t
    ensures forall id | id in ids && id in s.requests && s.requests[id].request.deadline.Some? ::
              s.requests[id].request.deadline.value <= t
  {
    if ids == [] {
      t := s.clock;
    } else {
      var last := ids[|ids| - 1];
      t := DeadlineBound(s, ids[..|ids| - 1]);
      assert ids == ids[..|ids| - 1] + [last];
      if last in s.requests && s.requests[last].request.deadline.Some? && t < s.requests[last].request.deadline.value {
        t := s.requests[last].request.deadline.value;
      }
    }
  }

  /** As many unhurried ticks as one likes, the first after every pending deadline. */
  lemma {:induction false} UnhurriedTicks(s: Platform, timeout: Time, delay: Time, t: Time, k: nat)
    returns (plans: seq<TickPlan>)
    requires timeout > 0 && s.clock <= t
    ensures |plans| == k && Unhurried(s, plans) && (k > 0 ==> t <= plans[0].start)
  {
    hide TickPossible, Tick;
    if k == 0 {
      plans := [];
    } else {
      var front := UnhurriedTicks(s, timeout, delay, t, k - 1);
      var s1 := ExecTicks(s, front);
      var from := if k == 1 then t else s1.clock;
      assert k == 1 ==> s1 == s;
      var p := ATickIsPossible(s1, from + timeout, timeout, delay);
      plans := front + [p];
      assert plans[..|plans| - 1] == front;
    }
  }

  lemma {:induction false} EndedStays(s: Platform, plans: seq<TickPlan>, id: RequestId)
    requires SoundPlatform(s) && !s.frozen && Unhurried(s, plans) && id in s.requests && !InProgress(s.requests[id])
    ensures var s' := ExecTicks(s, plans);
      SoundPlatform(s') && !s'.frozen && id in s'.requests && s'.requests[id] == s.requests[id]
  {
    hide SoundPlatform, TickPossible, Tick;
    if plans != [] {
      var front, last := plans[..|plans| - 1], plans[|plans| - 1];
      EndedStays(s, front, id);
      CompletedStays(ExecTicks(s, front), last, id);
      Stages(ExecTicks(s, front), last);
      TickMarket(ExecTicks(s, front), last);
    }
  }

  /** From every sound unfrozen state the engine alone can end every request there is:
    five ticks, that are always possible, are enough. */
  lemma EveryRequestCanEnd(s: Platform, timeout: Time, delay: Time) returns (plans: seq<TickPlan>)
    requires SoundPlatform(s) && !s.frozen && timeout > 0
    ensures |plans| == 5 && Unhurried(s, plans)
    ensures forall id | id in s.requests ::
              id in ExecTicks(s, plans).requests && !InProgress(ExecTicks(s, plans).requests[id])
  {
    hide SoundPlatform, Unhurried, ExecTicks;
    var ids := Enumerate(s.requests.Keys);
    var t := DeadlineBound(s, ids);
    plans := UnhurriedTicks(s, timeout, delay, t, 5);
    assert DeadlinesBy(s, t);
    forall id | id in s.requests
      ensures id in ExecTicks(s, plans).requests && !InProgress(ExecTicks(s, plans).requests[id])
    {
      if InProgress(s.requests[id]) {
        Progress(s, plans, id);
        ReachedEnd(s.requests[id].request, ExecTicks(s, plans).requests[id].request);
      } else {
        EndedStays(s, plans, id);
      }
    }
  }

  lemma ReachedEnd(r: Request, r': Request)
    requires Reached(r, 5, r')
    ensures r'.status == RequestCompleted
  {}
}
