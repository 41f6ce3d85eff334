/** A deferred transition through a whole run: what can reach the request while it waits,
  and where it goes when it stops waiting. */
module Waiting {
  import opened Entities
  import opened Tables
  import opened Operations
  import opened Lifecycle
  import opened Invariants
  import opened Frame
  import opened Evolution
  import opened Runs
  import opened Ticks
  import opened Deferral
  import opened Replay
  import Owners

  // ---- One event -----------------------------------------------------------------

  /** No call but its creator's cancellation reaches a request that waits. */
  lemma CallLeavesWaiting(s: Platform, caller: OperatorId, c: Call, id: RequestId)
    requires id in s.requests && s.requests[id].request.deadline.Some? && s.nextId !in s.requests
    requires !c.PurgeCall? && c != CancelCall(id)
    ensures id in Perform(s, caller, c).requests && Perform(s, caller, c).requests[id] == s.requests[id]
  {
    hide Perform, Owners.FaultFor;
    if Target(c) == Some(id) {
      WaitingRefuses(s, caller, c, id);
      Owners.RefusedLeaves(s, caller, c);
    } else {
      Owners.OthersLeave(s, caller, c, id);
    }
  }

  lemma WaitingRefuses(s: Platform, caller: OperatorId, c: Call, id: RequestId)
    requires id in s.requests && s.requests[id].request.deadline.Some? && Target(c) == Some(id) && c != CancelCall(id)
    ensures Owners.FaultFor(s, caller, c).Some?
  {}

  predicate AcceptedCancel(s: Platform, e: Event, id: RequestId) {
    e.OperatorCall? && e.call == CancelCall(id) && CancelFault(s, e.caller, id).None?
  }

  predicate Converges(s: Platform, e: Event, id: RequestId) {
    e.EngineTicks? && !s.frozen && id in s.requests && Due(s.requests[id], e.plan.dueAt)
  }

  /** The request has stopped waiting: its step was settled, a REVERSE's last one with it. */
  ghost predicate StepSettled(m: Market, d: Dossier, d': Dossier) {
    if d.request.kind == Reverse then AdvancedTwice(m, d, d') else exists t :: d' == Advance(m, d, Action, t)
  }

  lemma CancelWithdraws(s: Platform, e: Event, id: RequestId)
    requires AcceptedCancel(s, e, id) && id in s.requests
    ensures id in Next(s, e).requests
    ensures Next(s, e).requests[id] == Withdrawn(s.requests[id], RequestCancelled, e.caller, e.at)
  {}

  lemma TickSettles(s: Platform, p: TickPlan, id: RequestId)
    requires SoundPlatform(s) && TickPossible(s, p) && Converges(s, EngineTicks(p), id)
    ensures id in Tick(s, p).requests && StepSettled(s.market, s.requests[id], Tick(s, p).requests[id])
  {
    hide SoundPlatform, TickPossible, Tick, Advance, AdvancedTwice;
    if s.requests[id].request.kind == Reverse {
      ConvergedReverse(s, p, id);
    } else {
      OneStepPerTick(s, p, id);
    }
  }

  lemma TickLeavesWaiting(s: Platform, p: TickPlan, id: RequestId)
    requires SoundPlatform(s) && TickPossible(s, p) && id in s.requests && InProgress(s.requests[id])
    requires s.requests[id].request.deadline.Some? && !Converges(s, EngineTicks(p), id)
    ensures id in Tick(s, p).requests && Tick(s, p).requests[id] == s.requests[id]
  {
    hide SoundPlatform, TickPossible;
    if !s.frozen {
      hide Tick;
      WaitingStays(s, p, id);
    }
  }

  /** Exactly three things happen to a request that waits, in any possible event that is
    not its creator's purge: an accepted cancellation withdraws it, an unfrozen tick that
    finds its deadline passed settles its step by an action, anything else leaves it
    entirely alone. */
  lemma WaitsOrSettles(s: Platform, e: Event, id: RequestId)
    requires SoundPlatform(s) && Possible(s, e) && id in s.requests && InProgress(s.requests[id])
    requires s.requests[id].request.deadline.Some?
    requires IsPurge(e) ==> e.caller != s.requests[id].request.creator
    ensures id in Next(s, e).requests
    ensures var d, d' := s.requests[id], Next(s, e).requests[id];
      if AcceptedCancel(s, e, id) then d' == Withdrawn(d, RequestCancelled, e.caller, e.at)
      else if Converges(s, e, id) then StepSettled(s.market, d, d')
      else d' == d
  {
    assert s.nextId !in s.requests;
    hide SoundPlatform, TickPossible, Tick, StepSettled, Purge;
    if AcceptedCancel(s, e, id) {
      CancelWithdraws(s, e, id);
    } else if e.EngineTicks? {
      if Converges(s, e, id) { TickSettles(s, e.plan, id); } else { TickLeavesWaiting(s, e.plan, id); }
    } else if IsPurge(e) {
      PurgeLeaves(At(s, e.at), e.caller, id);
    } else {
      OtherLeavesWaiting(s, e, id);
    }
  }

  lemma OtherLeavesWaiting(s: Platform, e: Event, id: RequestId)
    requires s.nextId !in s.requests && id in s.requests && s.requests[id].request.deadline.Some?
    requires !e.EngineTicks? && !IsPurge(e) && !AcceptedCancel(s, e, id)
    ensures id in Next(s, e).requests && Next(s, e).requests[id] == s.requests[id]
  {
    hide Perform;
    if e.OperatorCall? {
      if e.call == CancelCall(id) {
        RefusedCancel(s, e, id);
      } else {
        CallLeavesWaiting(At(s, e.at), e.caller, e.call, id);
      }
    }
  }

  lemma RefusedCancel(s: Platform, e: Event, id: RequestId)
    requires e.OperatorCall? && e.call == CancelCall(id) && CancelFault(s, e.caller, id).Some?
    ensures Next(s, e) == At(s, e.at)
  {}

  // ---- A whole run -----------------------------------------------------------------

  predicate Settles(s: Platform, e: Event, id: RequestId) {
    AcceptedCancel(s, e, id) || Converges(s, e, id)
  }

  /** The first event of the run that stops the request's waiting, if there is one. */
  function Settling(s: Platform, run: seq<Event>, id: RequestId): Option<nat> {
    if run == [] then None
    else
      var front := run[..|run| - 1];
      if Settling(s, front, id).Some? then Settling(s, front, id)
      else if Settles(Exec(s, front), run[|run| - 1], id) then Some(|front|)
      else None
  }

  lemma {:induction false} SettlingIsInRun(s: Platform, run: seq<Event>, id: RequestId)
    ensures var k := Settling(s, run, id);
      k.Some? ==> k.value < |run| && Settles(Exec(s, run[..k.value]), run[k.value], id)
                  && Settling(s, run[..k.value], id).None?
  {
    hide Settles, Exec;
    if run != [] {
      var front := run[..|run| - 1];
      SettlingIsInRun(s, front, id);
      if Settling(s, front, id).Some? {
        assert front[..Settling(s, front, id).value] == run[..Settling(s, front, id).value];
      }
    }
  }

  /** Until then the request is untouched, whatever else the run does. */
  lemma {:induction false} WaitsUntouched(s: Platform, run: seq<Event>, id: RequestId)
    requires SoundPlatform(s) && PossibleRun(s, run) && id in s.requests && InProgress(s.requests[id])
    requires s.requests[id].request.deadline.Some? && Stays(run, s.requests[id].request.creator)
    requires Settling(s, run, id).None?
    ensures SoundPlatform(Exec(s, run)) && id in Exec(s, run).requests && Exec(s, run).requests[id] == s.requests[id]
  {
    if run != [] {
      var front, last := run[..|run| - 1], run[|run| - 1];
      StaysFront(run, s.requests[id].request.creator);
      WaitsUntouched(s, front, id);
      hide SoundPlatform, Possible, Next, AcceptedCancel, Converges, StepSettled;
      WaitsOrSettles(Exec(s, front), last, id);
      SoundNext(Exec(s, front), last);
    }
  }

  lemma {:induction false} PossiblePrefix(s: Platform, run: seq<Event>, k: nat)
    requires PossibleRun(s, run) && k < |run|
    ensures PossibleRun(s, run[..k]) && Possible(Exec(s, run[..k]), run[k])
    ensures Exec(s, run[..k + 1]) == Next(Exec(s, run[..k]), run[k])
    decreases |run|
  {
    var front := run[..|run| - 1];
    hide Possible, Next;
    if k == |front| {
      assert run[..k] == front && run[..k + 1] == run;
    } else {
      PossiblePrefix(s, front, k);
      assert run[..k] == front[..k] && run[..k + 1] == front[..k + 1] && run[k] == front[k];
    }
  }

  lemma StaysPrefix(run: seq<Event>, k: nat, creator: OperatorId)
    requires Stays(run, creator) && k < |run|
    ensures Stays(run[..k], creator) && (IsPurge(run[k]) ==> run[k].caller != creator)
  {
    assert run[k] in run && forall e | e in run[..k] :: e in run;
  }

  /** A settled step is, dates aside, the one settling it at once would have left. */
  lemma SettledIsImmediate(s: Platform, id: RequestId, d: Dossier, deadline: Time, m: Market, d': Dossier)
    requires id in s.requests && s.requests[id] == d && InProgress(d) && m == s.market
    requires d.request.kind == Reverse ==> d.request.step == Confirmation
    requires StepSettled(m, WithDeadline(d, deadline), d')
    ensures id in SettledAtOnce(s, id).requests && Undated(d') == Undated(SettledAtOnce(s, id).requests[id])
  {
    hide Undated, Advance, AdvancedTwice;
    if d.request.kind == Reverse {
      ImmediateTwice(s, id);
      TwiceUndated(m, d, deadline, d', s.clock);
    } else {
      SettledOnce(s, id);
      var t :| d' == Advance(m, WithDeadline(d, deadline), Action, t);
      AdvanceUndated(m, d, deadline, t, s.clock);
    }
  }

  /** Deferred refines immediate, in every run. From the scheduling on, whatever calls,
    acts, freezes, purges by others and ticks happen, the request is untouched until the
    first event that settles it. If that is a tick, the step is then, dates aside, as
    settling it at once would have left it; if it is the creator's cancellation, the
    request is withdrawn. */
  lemma DeferralRefinesImmediate(
    s: Platform, id: RequestId, delay: nat, s1: Platform, run: seq<Event>)
    requires id in s.requests && InProgress(s.requests[id]) && s1 == ScheduleTransition(s, id, Deferred(delay))
    requires SoundPlatform(s1) && PossibleRun(s1, run) && Stays(run, s.requests[id].request.creator)
    ensures id in s1.requests && id in SettledAtOnce(s, id).requests
    ensures match Settling(s1, run, id)
      case None => id in Exec(s1, run).requests && Exec(s1, run).requests[id] == s1.requests[id]
      case Some(k) =>
        && k < |run|
        && var before, after := Exec(s1, run[..k]), Exec(s1, run[..k + 1]);
           && id in before.requests && before.requests[id] == s1.requests[id] && id in after.requests
           && Settles(before, run[k], id)
           && (if AcceptedCancel(before, run[k], id)
               then after.requests[id] == Withdrawn(s1.requests[id], RequestCancelled, run[k].caller, run[k].at)
               else Undated(after.requests[id]) == Undated(SettledAtOnce(s, id).requests[id]))
  {
    hide SoundPlatform, Undated, Advance, SettledAtOnce, WithDeadline, Settles, Exec, PossibleRun, Next, Possible,
      AcceptedCancel, Converges, StepSettled, ScheduleTransition, Stays, Settling;
    var d := s.requests[id];
    DeferralIs(s, id, delay);
    WaitingDossier(s1, id, d, s.clock + delay);
    SettledExists(s, id);
    var k := Settling(s1, run, id);
    if k.None? {
      WaitsUntouched(s1, run, id);
    } else {
      SettlingIsInRun(s1, run, id);
      PossiblePrefix(s1, run, k.value);
      StaysPrefix(run, k.value, d.request.creator);
      WaitsUntouched(s1, run[..k.value], id);
      RunFrames(s1, run[..k.value]);
      SettlesHere(s, id, s.clock + delay, Exec(s1, run[..k.value]), run[k.value]);
    }
  }

  lemma DeferralIs(s: Platform, id: RequestId, delay: nat)
    requires id in s.requests
    ensures var s1 := ScheduleTransition(s, id, Deferred(delay));
      && id in s1.requests && s1.requests[id] == WithDeadline(s.requests[id], s.clock + delay) && s1.market == s.market
      && s1.requests[id].request.deadline == Some(s.clock + delay)
  {}

  lemma SettledExists(s: Platform, id: RequestId)
    requires id in s.requests
    ensures id in SettledAtOnce(s, id).requests
  {}

  lemma WaitingDossier(s: Platform, id: RequestId, d: Dossier, deadline: Time)
    requires SoundPlatform(s) && id in s.requests && s.requests[id] == WithDeadline(d, deadline) && InProgress(d)
    ensures InProgress(s.requests[id]) && s.requests[id].request.deadline.Some?
    ensures s.requests[id].request.creator == d.request.creator
    ensures d.request.kind == Reverse ==> d.request.step == Confirmation
  {
    assert Sound(s.requests[id], s.market, s.clock);
  }

  lemma SettlesHere(s: Platform, id: RequestId, deadline: Time, before: Platform, e: Event)
    requires id in s.requests && InProgress(s.requests[id]) && before.market == s.market
    requires SoundPlatform(before) && Possible(before, e) && Settles(before, e, id)
    requires id in before.requests && before.requests[id] == WithDeadline(s.requests[id], deadline)
    requires IsPurge(e) ==> e.caller != s.requests[id].request.creator
    ensures var after := Next(before, e);
      && id in after.requests && id in SettledAtOnce(s, id).requests
      && (if AcceptedCancel(before, e, id)
          then after.requests[id] == Withdrawn(before.requests[id], RequestCancelled, e.caller, e.at)
          else Undated(after.requests[id]) == Undated(SettledAtOnce(s, id).requests[id]))
  {
    hide SoundPlatform, Undated, Next, Possible, AcceptedCancel, Converges, StepSettled, SettledAtOnce,
      WithDeadline;
    WaitingDossier(before, id, s.requests[id], deadline);
    SettledExists(s, id);
    WaitsOrSettles(before, e, id);
    if !AcceptedCancel(before, e, id) {
      SettledIsImmediate(s, id, s.requests[id], deadline, s.market, Next(before, e).requests[id]);
    }
  }
}
