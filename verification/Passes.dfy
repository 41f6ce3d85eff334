/** The engine's passes: what each of them does to every request, and why the
  invariants survive a whole tick. */
module Passes {
  import opened Entities
  import opened Tables
  import opened Operations
  import opened Lifecycle
  import opened Invariants
  import opened Safety

  // ---- The effect of a pass on each request -------------------------------------

  ghost predicate DistinctJobs(jobs: seq<Job>) {
    forall i, j | 0 <= i < j < |jobs| :: jobs[i].id != jobs[j].id
  }

  ghost predicate Handles(jobs: seq<Job>, id: RequestId) {
    exists i | 0 <= i < |jobs| :: jobs[i].id == id
  }

  /** Nothing but dossiers, registry and clock differs, and no request appears or
    disappears. */
  ghost predicate SameFrame(s: Platform, s': Platform) {
    && s'.market == s.market && s'.nextId == s.nextId && s'.frozen == s.frozen && s'.reverses == s.reverses
    && s'.requests.Keys == s.requests.Keys
  }

  /** A pass over distinct rows plays exactly one transition on each row it handles,
    at that row's instant, and touches no other. */
  lemma {:induction false} PassEffect(s: Platform, jobs: seq<Job>, origin: Origin)
    requires DistinctJobs(jobs)
    ensures var s' := ApplyAll(s, jobs, origin);
      && SameFrame(s, s')
      && s'.clock == (if jobs == [] then s.clock else jobs[|jobs| - 1].at)
      && (forall id | id in s.requests && !Handles(jobs, id) :: s'.requests[id] == s.requests[id])
      && (forall i | 0 <= i < |jobs| && jobs[i].id in s.requests :: s'.requests[jobs[i].id] ==
            if InProgress(s.requests[jobs[i].id]) then Advance(s.market, s.requests[jobs[i].id], origin, jobs[i].at)
            else s.requests[jobs[i].id])
  {
    if jobs != [] {
      var front, last := jobs[..|jobs| - 1], jobs[|jobs| - 1];
      PassEffect(s, front, origin);
      assert !Handles(front, last.id);
      assert forall i | 0 <= i < |front| :: front[i] == jobs[i] && jobs[i].id != last.id;
      forall id | !Handles(jobs, id) ensures !Handles(front, id) && id != last.id {
        assert last == jobs[|front|];
      }
    }
  }

  lemma {:induction false} PassKeeps(s: Platform, jobs: seq<Job>, origin: Origin, initial: Registry)
    requires Inv(s, initial) && InOrder(s.clock, jobs)
    ensures var s' := ApplyAll(s, jobs, origin);
      Inv(s', initial) && s'.clock == (if jobs == [] then s.clock else jobs[|jobs| - 1].at) >= s.clock
  {
    if jobs != [] {
      var front, last := jobs[..|jobs| - 1], jobs[|jobs| - 1];
      PassKeeps(s, front, origin, initial);
      var s1 := ApplyAll(s, front, origin);
      AtKeeps(s1, last.at, initial);
      TransitionKeeps(At(s1, last.at), last.id, origin, initial);
    }
  }

  /** The requests whose current step an action may close. */
  ghost predicate Closable(d: Dossier, m: Market) {
    InProgress(d) && d.request.step == Confirmation ==> Covered(d, m)
  }

  lemma {:induction false} PassKeepsQuorum(s: Platform, jobs: seq<Job>, origin: Origin, initial: Registry)
    requires Inv(s, initial) && InOrder(s.clock, jobs) && DistinctJobs(jobs) && QuorumPlatform(s)
    requires origin == Action ==> forall i | 0 <= i < |jobs| && jobs[i].id in s.requests ::
        Closable(s.requests[jobs[i].id], s.market)
    ensures QuorumPlatform(ApplyAll(s, jobs, origin))
  {
    if jobs != [] {
      var front, last := jobs[..|jobs| - 1], jobs[|jobs| - 1];
      PassKeepsQuorum(s, front, origin, initial);
      PassKeeps(s, front, origin, initial);
      PassEffect(s, front, origin);
      var s1 := ApplyAll(s, front, origin);
      assert !Handles(front, last.id);
      AtKeeps(s1, last.at, initial);
      assert last.id in s.requests ==> Closable(s.requests[last.id], s.market) || origin != Action;
      TransitionKeepsQuorum(At(s1, last.at), last.id, origin);
    }
  }

  // ---- The reverse passes ---------------------------------------------------------

  /** Validations only open requests: those of before are untouched. */
  lemma {:induction false} ValidateEffect(s: Platform, jobs: seq<Job>)
    requires forall id | id in s.requests :: id < s.nextId
    ensures var s' := ValidateAll(s, jobs);
      && s.requests.Keys <= s'.requests.Keys && s'.market == s.market && s'.registry == s.registry
          && s'.frozen == s.frozen
      && s.nextId <= s'.nextId && (forall id | id in s'.requests :: id < s'.nextId)
      && (forall id | id in s.requests :: s'.requests[id] == s.requests[id])
      && (forall id | id in s'.requests && id !in s.requests ::
            InProgress(s'.requests[id]) && s'.requests[id].request.kind == Reverse
            && s'.requests[id].request.step == Confirmation && s'.requests[id].confirmers == {})
  {
    if jobs != [] {
      ValidateEffect(s, jobs[..|jobs| - 1]);
    }
  }

  lemma {:induction false} ValidateAllKeeps(s: Platform, jobs: seq<Job>, initial: Registry)
    requires Inv(s, initial) && InOrder(s.clock, jobs)
    ensures Inv(ValidateAll(s, jobs), initial)
    ensures QuorumPlatform(s) ==> QuorumPlatform(ValidateAll(s, jobs))
    ensures ValidateAll(s, jobs).clock == (if jobs == [] then s.clock else jobs[|jobs| - 1].at) >= s.clock
  {
    if jobs != [] {
      var front, last := jobs[..|jobs| - 1], jobs[|jobs| - 1];
      ValidateAllKeeps(s, front, initial);
      AtKeeps(ValidateAll(s, front), last.at, initial);
      ValidateReverseKeeps(At(ValidateAll(s, front), last.at), last.id, initial);
    }
  }

  ghost predicate DistinctCompletions(jobs: seq<CompletionJob>) {
    forall i, j | 0 <= i < j < |jobs| :: jobs[i].id != jobs[j].id
  }

  ghost predicate HandlesCompletion(jobs: seq<CompletionJob>, id: RequestId) {
    exists i | 0 <= i < |jobs| :: jobs[i].id == id
  }

  /** What the ARTP's completion makes of a REVERSE. */
  function Finished(m: Market, d: Dossier, j: CompletionJob): Dossier {
    var d1 := if j.fromConfirmation && InProgress(d) then Advance(m, d, Action, j.first) else d;
    if InProgress(d1) then Advance(m, d1, Action, j.second) else d1
  }

  lemma CompleteOneEffect(s: Platform, j: CompletionJob)
    ensures var s' := CompleteOne(s, j);
      && SameFrame(s, s') && s'.clock == j.second
      && (forall id | id in s.requests && id != j.id :: s'.requests[id] == s.requests[id])
      && (j.id in s.requests ==> s'.requests[j.id] == Finished(s.market, s.requests[j.id], j))
  {}

  lemma {:induction false} CompleteEffect(s: Platform, jobs: seq<CompletionJob>)
    requires DistinctCompletions(jobs)
    ensures var s' := CompleteAll(s, jobs);
      && SameFrame(s, s')
      && s'.clock == (if jobs == [] then s.clock else jobs[|jobs| - 1].second)
      && (forall id | id in s.requests && !HandlesCompletion(jobs, id) :: s'.requests[id] == s.requests[id])
      && (forall i | 0 <= i < |jobs| && jobs[i].id in s.requests ::
            s'.requests[jobs[i].id] == Finished(s.market, s.requests[jobs[i].id], jobs[i]))
  {
    if jobs != [] {
      var front, last := jobs[..|jobs| - 1], jobs[|jobs| - 1];
      CompleteEffect(s, front);
      CompleteOneEffect(CompleteAll(s, front), last);
      assert !HandlesCompletion(front, last.id);
      assert forall i | 0 <= i < |front| :: front[i] == jobs[i] && jobs[i].id != last.id;
      forall id | !HandlesCompletion(jobs, id) ensures !HandlesCompletion(front, id) && id != last.id {
        assert last == jobs[|front|];
      }
    }
  }

  lemma CompleteOneKeeps(s: Platform, j: CompletionJob, initial: Registry)
    requires Inv(s, initial) && s.clock <= j.first <= j.second
    ensures Inv(CompleteOne(s, j), initial)
  {
    AtKeeps(s, j.first, initial);
    var s1 := if j.fromConfirmation then ApplyTransition(At(s, j.first), j.id, Action) else s;
    TransitionKeeps(At(s, j.first), j.id, Action, initial);
    AtKeeps(s1, j.second, initial);
    TransitionKeeps(At(s1, j.second), j.id, Action, initial);
  }

  /** A completion handles a REVERSE its query answered. */
  ghost predicate Ready(d: Dossier, m: Market, j: CompletionJob) {
    AwaitsArtp(d, m) && (j.fromConfirmation <==> d.request.step == Confirmation)
  }

  lemma CompleteOneKeepsQuorum(s: Platform, j: CompletionJob, initial: Registry)
    requires Inv(s, initial) && s.clock <= j.first <= j.second && QuorumPlatform(s)
    requires j.id in s.requests && Ready(s.requests[j.id], s.market, j)
    ensures QuorumPlatform(CompleteOne(s, j))
  {
    CountIsCoverage(s.requests[j.id], s.market);
    AtKeeps(s, j.first, initial);
    if j.fromConfirmation {
      TransitionKeepsQuorum(At(s, j.first), j.id, Action);
      var s1 := ApplyTransition(At(s, j.first), j.id, Action);
      TransitionKeeps(At(s, j.first), j.id, Action, initial);
      AtKeeps(s1, j.second, initial);
      TransitionKeepsQuorum(At(s1, j.second), j.id, Action);
    } else {
      AtKeeps(s, j.second, initial);
      TransitionKeepsQuorum(At(s, j.second), j.id, Action);
    }
  }

  lemma {:induction false} CompleteAllKeeps(s: Platform, jobs: seq<CompletionJob>, initial: Registry)
    requires Inv(s, initial) && CompletionsInOrder(s.clock, jobs)
    ensures Inv(CompleteAll(s, jobs), initial)
    ensures CompleteAll(s, jobs).clock == (if jobs == [] then s.clock else jobs[|jobs| - 1].second)
  {
    if jobs != [] {
      CompleteAllKeeps(s, jobs[..|jobs| - 1], initial);
      CompleteOneKeeps(CompleteAll(s, jobs[..|jobs| - 1]), jobs[|jobs| - 1], initial);
    }
  }

  ghost predicate AllReady(s: Platform, jobs: seq<CompletionJob>) {
    forall i | 0 <= i < |jobs| :: jobs[i].id in s.requests && Ready(s.requests[jobs[i].id], s.market, jobs[i])
  }

  lemma {:induction false} CompleteAllKeepsQuorum(s: Platform, jobs: seq<CompletionJob>, initial: Registry)
    requires Inv(s, initial) && QuorumPlatform(s) && CompletionsInOrder(s.clock, jobs) && DistinctCompletions(jobs)
    requires AllReady(s, jobs)
    ensures QuorumPlatform(CompleteAll(s, jobs))
  {
    hide Inv, QuorumPlatform, Ready, CompleteOne, ApplyTransition;
    if jobs != [] {
      var front, last := jobs[..|jobs| - 1], jobs[|jobs| - 1];
      CompleteAllKeepsQuorum(s, front, initial);
      CompleteAllKeeps(s, front, initial);
      CompleteEffect(s, front);
      assert !HandlesCompletion(front, last.id);
      assert jobs[|front|] == last;
      CompleteOneKeepsQuorum(CompleteAll(s, front), last, initial);
    }
  }

  // ---- A whole tick ------------------------------------------------------------------

  lemma ConvergeKeeps(s: Platform, p: TickPlan, initial: Registry)
    requires Inv(s, initial) && ConvergePossible(s, p)
    ensures Inv(Converged(s, p), initial) && p.dueAt <= Converged(s, p).clock
    ensures QuorumPlatform(s) ==> QuorumPlatform(Converged(s, p))
  {
    var s0 := At(s, p.dueAt);
    AtKeeps(s, p.dueAt, initial);
    hide ApplyAll, Ledger, Spaced, RestitutedOnce, HoldersOk, Sound;
    PassKeeps(s0, p.converge, Action, initial);
    if QuorumPlatform(s) {
      PassKeepsQuorum(s0, p.converge, Action, initial);
    }
  }

  lemma ExpireKeeps(s: Platform, p: TickPlan, initial: Registry)
    requires Inv(s, initial) && ExpirePossible(s, p)
    ensures var s' := ApplyAll(s, p.expire, Expiration);
      Inv(s', initial) && s.clock <= s'.clock && (QuorumPlatform(s) ==> QuorumPlatform(s'))
  {
    PassKeeps(s, p.expire, Expiration, initial);
    if QuorumPlatform(s) {
      PassKeepsQuorum(s, p.expire, Expiration, initial);
    }
  }

  lemma ValidateKeeps(s: Platform, p: TickPlan, initial: Registry)
    requires Inv(s, initial) && ValidatePossible(s, p)
    ensures var s' := ValidateAll(At(s, p.validateAt), p.validate);
      Inv(s', initial) && s.clock <= p.validateAt <= s'.clock && (QuorumPlatform(s) ==> QuorumPlatform(s'))
  {
    AtKeeps(s, p.validateAt, initial);
    ValidateAllKeeps(At(s, p.validateAt), p.validate, initial);
  }

  lemma CompleteKeeps(s: Platform, p: TickPlan, initial: Registry)
    requires Inv(s, initial) && CompletePossible(s, p)
    ensures var s' := CompleteAll(s, p.complete);
      Inv(s', initial) && s.clock <= s'.clock && (QuorumPlatform(s) ==> QuorumPlatform(s'))
  {
    hide Inv, QuorumPlatform, CompleteAll;
    CompleteAllKeeps(s, p.complete, initial);
    if QuorumPlatform(s) {
      CompleteAllKeepsQuorum(s, p.complete, initial);
    }
  }

  lemma TickKeeps(s: Platform, p: TickPlan, initial: Registry)
    requires Inv(s, initial) && TickPossible(s, p)
    ensures Inv(Tick(s, p), initial)
    ensures QuorumPlatform(s) ==> QuorumPlatform(Tick(s, p))
    ensures s.clock <= Tick(s, p).clock
  {
    if s.frozen {
      AtKeeps(s, p.start, initial);
    } else {
      ConvergeKeeps(s, p, initial);
      ExpireKeeps(Converged(s, p), p, initial);
      ValidateKeeps(Expired(s, p), p, initial);
      CompleteKeeps(Validated(s, p), p, initial);
    }
  }
}
