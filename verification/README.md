# Number portability: the request workflow, verified

A national number-portability platform moves telephone numbers between operators.
A request (PORTAGE, RESTITUTION or REVERSE) goes through a fixed sequence of steps,
ACCEPTATION, DESACTIVATION, ACTIVATION, CONFIRMATION, COMPLETION; operators close steps by
their calls, and the platform's engine closes, at each tick, the steps whose deferred
transition is due and the steps left untouched past a timeout. A registry says who holds
each number. This project models that workflow as one state machine over the platform's
tables and proves what holds in every state of every run: for any number of requests,
numbers and operators, any order of calls, ticks, regulator (ARTP) acts, freezes and purges.

## How it is built

| file | content |
|---|---|
| `Entities.dfy` | steps, requests, authorization and eligibility rules |
| `Tables.dfy` | the tables as values, and the queries over them |
| `Operations.dfy` | every operation as a function of the tables; events, runs, `Possible`, `Exec` |
| `Store.dfy` | the running platform: one object whose fields are the tables, rewritten statement by statement, with the loops of the source; each method is proved to take the object where the operation of the same name takes the tables |
| `Lifecycle.dfy` | what is true of one request at all times, and what each write keeps of it |
| `Invariants.dfy`, `Safety.dfy`, `Passes.dfy`, `Evolution.dfy` | what is true across requests and registry; every call, pass and tick keeps it |
| `Runs.dfy` | the safety theorems over whole runs |
| `Frame.dfy` | what no event changes: market, known numbers, freshness of identifiers |
| `Openings.dfy`, `Answers.dfy` | every call said of the tables and the calendar: the cause of each refusal, and the whole effect when nothing refuses it |
| `Expiry.dfy`, `Endings.dfy` | exactly which steps the tick expires and which reverse requests it validates; exactly how a request comes to be REJETE or ANNULE |
| `Replay.dfy` | the registry as the replay of a run's log of closed steps |
| `Owners.dfy` | who closes a step |
| `Ticks.dfy` | what one tick does to each request; REVERSE; progress; deferred against immediate |
| `Deferral.dfy` | a tick on a deferred transition: the request and its numbers |
| `Waiting.dfy` | a deferred transition through a whole run |
| `Liveness.dfy` | progress with any calls, acts and freezes between the ticks; a late tick always exists |
| `Calls.dfy`, `Rounds.dfy` | what accepted calls achieve, under a closed and under an open window: nobody is stuck, and the calls left are counted |
| `Queues.dfy`, `Fleet.dfy`, `PurgeLaws.dfy`, `Races.dfy` | work queues, fleet creation, sandbox purge, calls split into a read and a write |
| `Witness.dfy`, `Overtaken.dfy` | concrete runs: a REVERSE that takes a claimed number, a queue that shows a handled step, a REVERSE overtaken by a porting |
| `Finite.dfy` | counting facts |

The chain of reasoning: a method of `PlatformStore.Store` ends in `Next(old state, event)`;
`Runs.NextKeeps` says an event keeps the invariant `Inv`; `Runs.RunKeeps` carries it over any
run; the theorems of `Runs`, `Queues` and `PurgeLaws` read it off for any state a run `Reaches`.

## Conventions

* Each API call, ARTP act and tick is one atomic step. `Races.dfy` is the exception: there the
  authorizing read and the write are two steps with anything in between.
* One clock, in microseconds, never going back, serves the process and the database. A tick may read
  any later instant before each transition; every such choice is in the event (`TickPlan`), as is the order in which the
  database answers a query and the delay drawn from the convergence window.
* Identifiers are fresh. The operators' table is fixed, its ids are distinct and each has a
  routing prefix; callers have an account with one of them; the initial registry
  names only them (the foreign keys of the schema).
* A request's numbers, history and confirmations are deleted with it (ON DELETE CASCADE), so they
  sit with it in one `Dossier`; (request, number) and (request, operator) are keys, hence a map and a set.
* A failed transaction restores everything, so a refused call changes nothing.
* The one-time password is a boolean; the freeze is a flag.

## What the proofs brought out

1. `autoComplete`'s branch for a REVERSE still at CONFIRMATION is never taken when calls are
   atomic, although the comment at internal/usecase/platform/auto_validate_reverses.go:137-141 says it stays
   necessary. The code is followed, and `Ticks.CompletionsStartAtCompletion` is the proof.
2. The guard of a cancellation compares the step only. A rejection between
   its read and its write leaves two ACCEPTATION rows and turns REJETE into ANNULE
   (`Races.RejectionInBetween`); exactly when, `Races.CancelWriteIsSoundIffInProgress`.
3. A transition applied on a stale authorization keeps every invariant but one. At ACTIVATION with nothing pending, two
   processings authorized on one read close CONFIRMATION with no confirmation at all
   (`Races.ProcessedTwice`, for every sound PORTAGE); such a transition keeps the quorum exactly when the count
   that `Confirm` compares is reached (`Races.StaleActionKeepsQuorumIffCounted`), which the code could re-check under its lock.
   Under an open window the stale write sets its deadline with no guard at all: on an ended request
   (`Races.ScheduledAfterTheEnd`) or on a CONFIRMATION nobody confirmed (`Races.ScheduledOnNextStep`); exactly when
   that is sound, `Races.StaleScheduleKeepsIff`.
4. The acceptance and processing queues never look at the pending deadline, so they can show a step that was already
   handled (`Witness.QueueShowsAHandledStep`). They show exactly
   what the operator may act on plus what already waits for its deadline
   (`Queues.WorkQueuesUpToDeadline`), and are exact under the default, closed window.
5. A purge keeps other operators' requests but can send home a number one of
   them is porting (`PurgeLaws.PurgeMovesAClaimedNumber`, four calls); exactly when, in every reachable state,
   `PurgeLaws.PurgeKeepsHolderIff`. The ledger, the ninety days, the single restitution and the holders are therefore
   theorems about every number that no purge of the run names (`Spared`), whoever purges what else.
6. Neither submitting nor validating a reverse looks at the request-in-progress flag, so a reverse can
   complete on a number while a porting of it is in progress (`Witness.ReverseMovesAClaimedNumber`, six events).
   `Runs.HoldersFollowRequests` says exactly what remains: with no reverse completed since, a claimed number is where its
   request expects it; with one completed later, it is with its origin; ties of one instant aside it is in its place if and
   only if no reverse completed since or its origin is that place. `Replay.HolderIsLastMover` settles
   the ties by the order of the run.
7. For the same reason a REVERSE that ends need not leave its number home at the end of the tick: overdue at COMPLETION,
   it is closed by an expiration, and a porting overdue at ACTIVATION may take the number later in the same pass
   (`Overtaken.OverdueReverseIsOvertaken`, eight calls and a tick). Without such a porting the number is home
   (`Deferral.OverdueReverseSendsHome`); in every other case it is home unconditionally (`Deferral.TickSendsHome`);
   what decides in general is the last row of the tick's log (`Replay.TickHolderIsLastMover`).

## Model

| member | source | states |
|---|---|---|
| Runs.RunKeeps | internal/usecase/platform/apply_transition.go:23-96 | Every state of every run from a seeded platform satisfies the whole invariant, its registry half at every number that no purge of the run names. |
| Runs.NextKeeps | internal/framework/engine/engine.go:77-135 | Any single call, act or tick, in any state satisfying the invariant, keeps it and keeps the quorum; a purge keeps it at the numbers it does not name. |
| Runs.MutualExclusion | internal/adapter/gateway/postgres/number_gateway.go:41-51 | At most one PORTAGE or RESTITUTION in progress has a given number active, fleets included. |
| Runs.CountImpliesCoverage | internal/usecase/porting/confirm_request.go:93-129 | A CONFIRMATION closed by an action was confirmed by exactly the expected operators, though the code compares a count with a length. |
| Runs.HistoryIsContiguous | internal/usecase/platform/apply_transition.go:37-75 | The history is the gapless run of steps from the creation step to the current one, exclusive while in progress and inclusive once ended; its rows tile the request's life; at most five rows, two for a REVERSE; a row is expired exactly when its origin is an expiration. |
| Runs.EndIsFinal | internal/usecase/platform/apply_transition.go:37-39 | Until its creator purges it a request never disappears, its history only grows, its end is final, and a step with a pending deadline is never closed by an expiration. |
| Owners.OnlyOwnersCloseSteps | internal/entity/authorization.go:19-108 | In every run, a row written by an action goes back to an accepted call, made while that step was open and unsettled, by the operator the step belongs to (or is the creator's cancellation); only the completion of a REVERSE has no owner. |
| Runs.RowsAndRouting | internal/adapter/gateway/postgres/request_gateway.go:398-433 | No request in progress is without active number, excluded rows are rejected rows, and every prefix is the one promised before and after ACTIVATION or COMPLETION. |
| Replay.RegistryIsReplay | internal/usecase/platform/apply_transition.go:52-95 | Without purge the log of a run holds every history row exactly once, and the registry is its replay, in the order of the run, over the initial one: closed ACTIVATIONs of a PORTAGE for its active numbers, closed COMPLETIONs of a RESTITUTION or REVERSE, nothing else. |
| Replay.SparedIsReplay | internal/usecase/sandbox/purge_test_data.go:50-97 | In every run, purges included, the log holds every row of the requests still there exactly once, and at every number no purge names the registry entry is its replay. |
| Replay.HolderIsLastMover | internal/adapter/gateway/postgres/request_gateway.go:398-433 | A number no purge names is held by the recipient of the last closed step of the run that handed it over, equal dates included, or by its initial holder when none did. |
| Replay.TickHolderIsLastMover | internal/framework/engine/engine.go:78-99 | Through one tick, from any sound state, the last closed step of the tick that hands a number over decides who holds it. |
| Replay.TransitionPosts | internal/usecase/platform/apply_transition.go:29-96 | A transition posts the one row it writes, and replaying that row gives the registry it leaves. |
| Replay.TickPosts | internal/framework/engine/engine.go:78-99 | A tick posts the rows of its passes in their order, and replaying them gives the registry it leaves. |
| Runs.RegistryIsLedger | internal/usecase/platform/apply_transition.go:63-93 | The registry entry of a number no purge names follows from the requests alone: initial if nothing moved the number, else the date and recipient of a mover of the latest date; restituted exactly when it was or a RESTITUTION or REVERSE completed. |
| Runs.WithdrawnNeverMoved | internal/adapter/gateway/postgres/request_gateway.go:270-332 | A cancelled or rejected request moved no number. |
| Runs.PortingsNinetyDaysApart | internal/entity/eligibility.go:24-40 | Two different PORTAGE requests that moved one number, which no purge names, did so at least ninety days apart. |
| Runs.OneRestitutionPerNumber | internal/entity/eligibility.go:43-57 | A number that no purge names completes at most one RESTITUTION. |
| Runs.HoldersFollowRequests | internal/usecase/platform/apply_transition.go:63-95 | For a number no purge names. No REVERSE completed since: a claimed number is with the source until ACTIVATION is closed, with the recipient from then on. One completed later: it is with its origin. Ties aside, in its place if and only if no REVERSE since or its origin is that place. A RESTITUTION's recipient is the number's origin. |
| Runs.NoReverseWithoutValidation | internal/usecase/platform/auto_validate_reverses.go:19-55 | Only a reverse validation, by the ARTP or by the tick, ever opens a REVERSE. |
| Runs.HoldersFollowRequestsExactly | internal/usecase/creation/create_restitution_request.go:64-88 | Without reverse validation, holders follow the requests exactly at every number no purge names. |
| Witness.ReverseMovesAClaimedNumber | internal/usecase/reverse/submit_reverse_request.go:46-65 | A concrete run without purge after which a porting at ACCEPTATION claims a number its source no longer holds. |
| Witness.QueueShowsAHandledStep | internal/adapter/gateway/postgres/query_gateway.go:65-87 | A concrete run with an open window after which a request is in its source's a-accepter and a-traiter queues while CanAccept and CanProcess refuse it. |
| Ticks.AfterExpire | internal/framework/engine/engine.go:78-99 | After convergence and expiration a due request was advanced once by an action, an overdue one once by an expiration, no request by both, the others untouched. Which are overdue, by the calendar: Expiry.TickExpiresIff. |
| Ticks.OneStepPerTick | internal/framework/engine/engine.go:78-99 | A frozen tick changes nothing; an unfrozen one closes at most one step of a PORTAGE or RESTITUTION, and says exactly which and how; by the calendar alone: Expiry.TickExpiresIff. |
| Ticks.JustAdvanced | internal/usecase/platform/expire_overdue_steps.go:31-50 | A step opened by the convergence pass cannot expire in the same tick, because expiry is judged at the tick's start. |
| Ticks.ReverseNeverStranded | internal/usecase/platform/auto_validate_reverses.go:142-161 | After an unfrozen tick every REVERSE in progress is at CONFIRMATION, with a deadline or a confirmation missing. |
| Ticks.EndsAtHome | internal/adapter/gateway/postgres/request_gateway.go:424-433 | The moment a REVERSE or RESTITUTION ends, its number is held by its origin operator, flagged restituted and dated; no other number changes. |
| Ticks.CompletionsStartAtCompletion | internal/usecase/platform/auto_validate_reverses.go:147-155 | With atomic calls the engine never finds a fully confirmed REVERSE with nothing pending at CONFIRMATION. |
| Ticks.LateTickAdvances | internal/usecase/platform/expire_overdue_steps.go:36-50 | A tick that starts a timeout after a request's step and after its deadline closes exactly one step of a PORTAGE or RESTITUTION in progress and completes a REVERSE. |
| Ticks.Progress | internal/framework/engine/engine.go:78-99 | Left alone with a positive timeout, a PORTAGE or RESTITUTION at step k is at step k + j after j such ticks and TERMINE from the (5 - k)-th on; a REVERSE after the first: all requests at once. |
| Liveness.ProgressAmidCalls | internal/framework/engine/engine.go:62-99 | Whatever calls, acts, freezes and purges by others come in between, a PORTAGE or RESTITUTION has ended or gained a step for every unfrozen tick late enough for it, and a REVERSE has ended after one. |
| Liveness.ATickIsPossible | internal/framework/engine/engine.go:62-99 | In any state, for any configuration and any instant from now on, some tick starts then. |
| Liveness.EveryRequestCanEnd | internal/framework/engine/engine.go:78-99 | From every sound unfrozen state five ticks, which exist, end every request there is. |
| Expiry.TickExpiresIff | internal/adapter/gateway/postgres/request_gateway.go:464-475 | In one unfrozen tick a request in progress gains an expiration row if and only if the timeout is positive, nothing is pending and its step began at least a timeout before the tick did; the row is the first it gains and closes that step. A PORTAGE or RESTITUTION gains a row by an action if and only if its deadline has passed, and otherwise is untouched. |
| Expiry.TickOnReverse | internal/usecase/platform/auto_validate_reverses.go:142-161 | In one unfrozen tick a REVERSE in progress ends if it is at COMPLETION, its deadline has passed or its step is late; otherwise it is untouched. |
| Expiry.ExpirationsAreLate | internal/usecase/platform/expire_overdue_steps.go:36-50 | In every run, each expiration row was written by an unfrozen tick of the run that found that step open with nothing pending and started at least its timeout after the step did. |
| Expiry.TickValidatesIff | internal/usecase/platform/auto_validate_reverses.go:109-123 | In one unfrozen tick a pending reverse request becomes validated, into its own new REVERSE, if and only if validation is on and it has been pending for the delay; any other is left alone. |
| Expiry.CallActs | internal/framework/engine/engine.go:113-135 | No call but a purge, which deletes whole requests, writes a row by an expiration, or removes or rewrites a row. |
| Endings.EndingsAreDecisions | internal/adapter/gateway/postgres/request_gateway.go:270-332 | In every run, a request is REJETE if and only if an event of the run was an accepted refusal, or an acceptance leaving its fleet without a number, by its source; and ANNULE if and only if one was an accepted cancellation by its creator. |
| Endings.EventEnds | internal/usecase/platform/apply_transition.go:37-39 | One event turns a request in progress into REJETE or ANNULE exactly for those causes. |
| Runs.RestitutionsWaitSixMonths | internal/usecase/creation/create_restitution_request.go:64-80 | In every run, a RESTITUTION was created at least a hundred and eighty days after any earlier move of its number, which no purge names. |
| Openings.PortingAnswers | internal/entity/eligibility.go:24-40 | Each code of the porting rules holds if and only if its cause does: held by the recipient, held by neither, in progress for some request that has it active, with a registry date less than ninety days old; no code exactly when none does. |
| Openings.IndividualAnswers | internal/usecase/creation/create_individual_request.go:59-92 | Each fault of an individual creation, and its acceptance, if and only if its cause, read on the tables. |
| Openings.IndividualOpens | internal/usecase/creation/create_individual_request.go:84-133 | An accepted individual creation opens this one request with this one row and changes nothing else; a refused one changes nothing. |
| Openings.RestitutionAnswers | internal/entity/eligibility.go:43-57 | Each fault of a restitution, and its acceptance, if and only if its cause: the caller is the origin, the number is ported and held elsewhere, not restituted, its registry date is at least a hundred and eighty days old, and no request in progress has it active. |
| Openings.RestitutionOpens | internal/usecase/creation/create_restitution_request.go:49-108 | An accepted restitution opens this one request from the holder to the origin and changes nothing else; a refused one changes nothing. |
| Openings.FleetAnswers | internal/usecase/creation/create_enterprise_request.go:88-156 | Each fault of a fleet creation, and its acceptance, if and only if its cause, read on the numbers received and not on the lists computed from them. |
| Openings.FleetOpens | internal/usecase/creation/create_enterprise_request.go:127-182 | An accepted fleet stores a row for every number received and no other: excluded for a request in progress if and only if some request in progress has it active, for the delay if and only if none has and its registry date is less than ninety days old, retained with the prefix of the source if and only if neither. |
| Openings.RefusedFleetOpensNothing | internal/usecase/creation/create_enterprise_request.go:88-156 | A refused fleet changes nothing. |
| Openings.ExcludedAnswered | internal/usecase/creation/create_enterprise_request.go:127-136 | The excluded numbers answered are the same, with the same causes. |
| Openings.SubmissionAnswers | internal/usecase/reverse/submit_reverse_request.go:46-86 | Each fault of a reverse submission if and only if its cause; the pending row an accepted one stores. |
| Openings.ApprovalOpens | internal/usecase/platform/auto_validate_reverses.go:19-55 | Approving a pending reverse request opens this one REVERSE, from the holder of that moment to the operator that asked, at CONFIRMATION, and marks it validated into it; any other is left alone. |
| Openings.RefusalMarks | internal/adapter/gateway/postgres/reverse_gateway.go:106-111 | Refusing a pending reverse request marks it refused and does nothing else; any other is left alone. |
| Answers.AcceptanceAnswers | internal/usecase/acceptance/accept_request.go:105-127 | Each fault of an acceptance or refusal, and success, if and only if its cause. |
| Answers.AcceptanceWrites | internal/usecase/acceptance/accept_request.go:124-157 | Accepted, yes schedules the transition; no leaves the request REJETE with one row more, ACCEPTATION closed by the caller; numbers, registry and every other request untouched. |
| Answers.FleetAcceptanceAnswers | internal/usecase/acceptance/accept_fleet_request.go:80-132 | A fleet acceptance is refused for the same causes, or for a listed number that is not its own or a reason unknown. |
| Answers.FleetAcceptanceWrites | internal/usecase/acceptance/accept_fleet_request.go:98-170 | A refusal ends the whole fleet REJETE. An acceptance: exactly the listed rows become rejected; if some row neither rejected before nor listed is left the transition is scheduled, otherwise the request is REJETE with one row more, that of the caller. |
| Answers.ProcessingAnswers | internal/entity/authorization.go:19-60 | Each fault of a processing, and success, if and only if its cause; nobody completes a REVERSE, whatever its status. |
| Answers.ProcessingWrites | internal/usecase/porting/process_step.go:61-106 | An accepted processing closes the step and opens the one that follows, or waits for its deadline; the registry moves exactly as the step settled says. |
| Answers.TransitionRegisters | internal/adapter/gateway/postgres/request_gateway.go:398-433 | A transition, whatever closes the step, gives the active numbers to the recipient at ACTIVATION of a PORTAGE, sends the number to the recipient for good at COMPLETION of the others, and touches no other entry. |
| Answers.ConfirmationAnswers | internal/usecase/porting/confirm_request.go:65-110 | Each fault of a confirmation, and success, if and only if its cause. |
| Answers.ConfirmationWrites | internal/usecase/porting/confirm_request.go:110-136 | An accepted confirmation adds the caller, and schedules the transition if and only if everyone who must confirm then has. |
| Answers.CancellationAnswers | internal/entity/authorization.go:98-108 | A cancellation is accepted if and only if it is the creator of a request in progress at ACCEPTATION that asks: neither a freeze nor a pending deadline refuses it. |
| Answers.CancellationWrites | internal/usecase/porting/cancel_request.go:47-82 | An accepted cancellation leaves the request ANNULE, one row of the caller more, nothing pending, nothing else changed. |
| Waiting.DeferralRefinesImmediate | internal/framework/engine/engine.go:113-135 | In every run after the scheduling, whatever calls, acts, freezes, purges by others and ticks it holds: the request is untouched until the first event that settles it; if a tick, it is then, dates aside, as settling it at once would have left it; if the creator's cancellation, it is withdrawn. |
| Waiting.WaitsOrSettles | internal/usecase/platform/converge_pending_transitions.go:27-38 | One event on a request with a pending deadline: an accepted cancellation withdraws it, an unfrozen tick that finds the deadline passed settles its step by an action, anything else leaves it entirely alone. |
| Ticks.DeferredRefinesImmediate | internal/usecase/platform/apply_transition.go:29-96 | Applying a deferred transition, in whatever state the rest of the tables has reached, does to the request and to the numbers it hands over what applying it at once would have done, dates aside, and touches nothing else. |
| Deferral.TickConvergesDeferred | internal/usecase/platform/converge_pending_transitions.go:32-36 | In whatever state the rest of the tables has reached: before its deadline a tick does not move a deferred request; at or after it the tick leaves it, dates aside, where the immediate transition would have, followed for a REVERSE by its completion. |
| Deferral.TickHandsOver | internal/adapter/gateway/postgres/request_gateway.go:398-405 | From any sound state, after a tick that converges a PORTAGE's ACTIVATION its active numbers are with the recipient, unless a REVERSE completed on them since, and home if one completed later. |
| Deferral.TickSendsHome | internal/usecase/platform/auto_validate_reverses.go:142-161 | A RESTITUTION, or a REVERSE not overdue at COMPLETION, that ends during a tick has its number with its origin at the tick's end, whatever else the tick does; a REVERSE found at COMPLETION does end. |
| Deferral.OverdueReverseSendsHome | internal/usecase/platform/expire_overdue_steps.go:36-50 | A REVERSE overdue at COMPLETION ends and its number is home, unless a PORTAGE closes its ACTIVATION on the number later in the same pass. |
| Overtaken.OverdueReverseIsOvertaken | internal/usecase/platform/expire_overdue_steps.go:40-48 | A concrete run and tick with such a PORTAGE: the REVERSE has ended and the number is with the PORTAGE's recipient. |
| Queues.ConfirmationQueueIsExact | internal/adapter/gateway/postgres/query_gateway.go:151-200 | A request is in an operator's a-confirmer queue if and only if that confirmation would be accepted, freeze aside. |
| Queues.WorkQueuesUpToDeadline | internal/adapter/gateway/postgres/query_gateway.go:65-87 | What an operator may accept, or may accept or process, is exactly its queue minus the requests with a pending deadline; never both; no REVERSE in either. |
| Queues.WorkQueuesAreExact | internal/framework/engine/engine.go:124-126 | With the closed window the a-accepter and a-traiter queues equal CanAccept, and CanAccept or CanProcess. |
| Queues.ImmediateRunHasNoDeadline | internal/framework/engine/engine.go:113-126 | With the closed window no request ever has a pending deadline. |
| Calls.OperatorsCanFinish | internal/usecase/porting/confirm_request.go:65-136 | With the closed window: from any sound unfrozen state the operators alone can finish a request with nothing pending, in exactly the calls that remain (four plus one per operator but the recipient, for a new PORTAGE), touching no other; a REVERSE is brought to the COMPLETION the next tick pronounces. |
| Rounds.OperatorsCanFinishLater | internal/framework/engine/engine.go:128-134 | With an open window and any delay: the same number of calls, with ticks in between, finishes it. |
| Calls.SomeoneMayAct | internal/entity/authorization.go:19-95 | A request in progress with nothing pending always has an operator whose next call would be accepted, except a REVERSE awaiting the ARTP. |
| Calls.CallCounts | internal/framework/engine/engine.go:113-126 | With the closed window every accepted forward call brings its request exactly one call nearer to its end and touches no other request. |
| Fleet.FleetSplit | internal/usecase/creation/create_enterprise_request.go:127-139 | Retained and excluded cover the list received, disjointly; the counts add up with the duplicates. |
| Fleet.FleetRoundTrip | internal/usecase/creation/create_enterprise_request.go:85-209 | The numbers read back are the eligible ones in first-appearance order; with the excluded they partition the list received; the count exceeds them by the duplicates; only two codes can exclude. |
| Fleet.FleetStored | internal/usecase/creation/create_enterprise_request.go:169-182 | Retained rows keep their rank and prefix and are active, excluded rows are rejected with their code, nothing else is stored. |
| Fleet.FleetReadBack | internal/adapter/gateway/postgres/request_gateway.go:178-197 | The ordered listing of a created fleet is exactly its retained numbers, in order. |
| Fleet.ListingIsUnique | internal/adapter/gateway/postgres/request_gateway.go:179-182 | Ordering by position then number reads rows stored at 0, 1, 2, ... back as given, and in no other order. |
| Fleet.FleetPartition | internal/usecase/creation/create_enterprise_request.go:127-136 | Retained and excluded partition a list without duplicates; each excluded number carries the code of its own check, whose cause Openings.PortingAnswers and Openings.ExcludedAnswered give. |
| Fleet.RetainedInOrder | internal/usecase/creation/create_enterprise_request.go:129-136 | The retained numbers keep the order of the list. |
| Fleet.ExclusionCodes | internal/usecase/creation/create_enterprise_request.go:121-139 | When at least one number is retained and all share a holder, a number is excluded only for a request in progress or the delay. |
| Fleet.DeduplicateKeepsFirstAppearances | internal/usecase/creation/create_enterprise_request.go:213-224 | Deduplication keeps the same numbers, once each, in order of first appearance. |
| PurgeLaws.PurgeIsExact | internal/usecase/sandbox/purge_test_data.go:50-97 | On reachable states: exactly the caller's requests and exactly its own reverse requests go, no reference dangles, exactly the named numbers go home with date and flag cleared, the invariant survives. |
| PurgeLaws.PurgeIsIdempotent | internal/adapter/gateway/postgres/sandbox_gateway.go:27-125 | Purging twice is purging once. |
| PurgeLaws.PurgeKeepsHolderIff | internal/adapter/gateway/postgres/sandbox_gateway.go:110-125 | In every reachable state, a number another operator's request claims is afterwards where that request expects it if and only if its home is there, when the caller named it, or it was there before, when not. |
| PurgeLaws.PurgeMovesAClaimedNumber | internal/adapter/gateway/postgres/sandbox_gateway.go:53-75 | A concrete run after which a purge moves a number another operator is porting. |
| Races.StepsOnlyAdvance | internal/adapter/gateway/postgres/request_gateway.go:298-309 | Whatever the engine does between read and write, the step read is found again in progress if and only if no transition was applied; no ABA. |
| Races.CancelAgainstEngine | internal/usecase/porting/cancel_request.go:47-72 | Against the engine a cancellation is refused exactly when a transition was applied since the read, and writes nothing; otherwise it leaves exactly one row, the caller's, and no deadline. |
| Races.CancelWriteIsSoundIffInProgress | internal/adapter/gateway/postgres/request_gateway.go:309-332 | The guarded write leaves a well-formed history if and only if the request was still in progress. |
| Races.RejectionInBetween | internal/adapter/gateway/postgres/request_gateway.go:319-323 | For every new PORTAGE: the source may reject, the recipient may cancel, and a rejection between the recipient's read and write is overwritten, leaving two rows. |
| Races.StaleActionKeepsQuorumIffCounted | internal/adapter/gateway/postgres/request_gateway.go:338-357 | A stale scheduled action at CONFIRMATION keeps the request sound, and keeps the quorum if and only if the count of confirmations reaches the number expected. |
| Races.StaleScheduleKeepsIff | internal/adapter/gateway/postgres/request_gateway.go:435-446 | A stale deadline keeps a request sound if and only if it is still in progress, a REVERSE at CONFIRMATION, and keeps the quorum if and only if the count is reached should it be at CONFIRMATION. |
| Races.ScheduledAfterTheEnd | internal/framework/engine/engine.go:128-134 | On every PORTAGE or RESTITUTION at COMPLETION: authorized, then expired, then scheduled, an ended request carries a deadline that no convergence applies. |
| Races.ScheduledOnNextStep | internal/usecase/porting/process_step.go:72-94 | On every PORTAGE at ACTIVATION: authorized, then expired, then scheduled, a CONFIRMATION nobody confirmed is due to be closed by an action. |
| Races.ProcessedTwice | internal/usecase/porting/process_step.go:72-94 | On every sound PORTAGE at ACTIVATION with nothing pending, two processings authorized on one read close CONFIRMATION with no confirmer and break the quorum. |
| Entities.NextStepFollowsSequence | internal/entity/step.go:4-17 | The step after is the element that follows in the sequence, and none exactly for the last. |
| Lifecycle.ExpectedIsFilter | internal/entity/authorization.go:68-77 | Expected confirmers are all operators but, for a PORTAGE, the recipient. |
| Lifecycle.CountIsCoverage | internal/usecase/porting/confirm_request.go:121-129 | With confirmers among the expected, the count is reached if and only if everyone expected has confirmed, on the confirm path and on the engine's reverse path. |
| Lifecycle.ActiveNotionsAgree | internal/adapter/gateway/postgres/request_gateway.go:258-264 | Fleet exhaustion, registry transfer, routing and request-in-progress use the same active numbers. |
| Lifecycle.AdvanceSound | internal/usecase/platform/apply_transition.go:29-96 | A transition keeps history, timeline, rows, routing and deadline of a request, whoever authorized it. |
| Lifecycle.AdvanceQuorum | internal/usecase/porting/confirm_request.go:121-129 | A transition keeps the quorum unless it closes by an action a CONFIRMATION not covered. |
| Lifecycle.ScheduleSound | internal/adapter/gateway/postgres/request_gateway.go:435-446 | Setting a deadline keeps a request sound, and the quorum when everyone confirmed. |
| Lifecycle.WithdrawnSound | internal/adapter/gateway/postgres/request_gateway.go:270-332 | Rejecting or cancelling at ACCEPTATION leaves a sound, ended request. |
| Lifecycle.RejectNumbersSound | internal/usecase/acceptance/accept_fleet_request.go:134-158 | A partial rejection that leaves an active number keeps the request sound. |
| Invariants.TransitionKeeps | internal/usecase/platform/apply_transition.go:23-96 | Applying a transition to any request, authorized or stale, keeps exclusion, ledger, spacing and holders. |
| Invariants.TransitionKeepsQuorum | internal/usecase/platform/apply_transition.go:29-54 | It keeps every request's quorum when the CONFIRMATION it closes by an action was covered. |
| Invariants.InsertKeeps | internal/adapter/gateway/postgres/request_gateway.go:45-64 | Inserting a request whose numbers are free, held by its source and past the delay keeps the invariant. |
| Safety.AcceptKeeps | internal/usecase/acceptance/accept_request.go:105-157 | An acceptance or rejection keeps the invariant. |
| Safety.AcceptFleetKeeps | internal/usecase/acceptance/accept_fleet_request.go:80-170 | So does a fleet acceptance, partial rejection or exhaustion. |
| Safety.ConfirmKeeps | internal/usecase/porting/confirm_request.go:65-136 | So does a confirmation, the one that settles the step included. |
| Safety.ProcessKeeps | internal/usecase/porting/process_step.go:61-106 | So does processing a step. |
| Safety.CancelKeeps | internal/usecase/porting/cancel_request.go:47-82 | So does a cancellation. |
| Safety.CreateIndividualKeeps | internal/usecase/creation/create_individual_request.go:59-133 | An individual creation through its guards keeps the invariant. |
| Safety.CreateFleetKeeps | internal/usecase/creation/create_enterprise_request.go:85-209 | A fleet creation through its guards, number by number, keeps the invariant. |
| Safety.CreateRestitutionKeeps | internal/usecase/creation/create_restitution_request.go:49-108 | A restitution creation, with its roles read from the registry, keeps the invariant. |
| Safety.SubmitReverseKeeps | internal/usecase/reverse/submit_reverse_request.go:46-86 | A submitted reverse request belongs to the number's origin operator; the invariant is kept. |
| Safety.ValidateReverseKeeps | internal/usecase/platform/auto_validate_reverses.go:19-55 | A validation opens a sound REVERSE towards the origin operator and keeps the reference to it; the invariant is kept. |
| Safety.RejectReverseKeeps | internal/adapter/gateway/postgres/reverse_gateway.go:106-111 | So does the ARTP's refusal. |
| Safety.PurgeKeeps | internal/usecase/sandbox/purge_test_data.go:50-97 | A purge keeps the soundness of what remains and its references. |
| Safety.PurgeKeepsInv | internal/adapter/gateway/postgres/sandbox_gateway.go:27-125 | A purge keeps ledger, spacing, single restitution and holders at every number it does not name. |
| Frame.RunFrames | internal/adapter/gateway/postgres/request_gateway.go:45-56 | No run changes the market or the numbers of the registry, and requests only appear under fresh identifiers. |
| Passes.PassEffect | internal/usecase/platform/converge_pending_transitions.go:27-38 | A pass over distinct ids plays exactly one transition on each request in progress it lists, at that id's instant, and nothing elsewhere. |
| Passes.ValidateEffect | internal/usecase/platform/auto_validate_reverses.go:109-123 | Validations leave every existing request untouched. |
| Passes.CompleteEffect | internal/usecase/platform/auto_validate_reverses.go:142-161 | The completions finish each request they list, once, and touch no other. |
| Passes.TickKeeps | internal/framework/engine/engine.go:78-99 | A tick keeps the invariant and the quorum, in whatever order its queries answer. |
| Evolution.NextEvolves | internal/usecase/platform/apply_transition.go:37-39 | Every event but a purge lets each request only evolve, and only validations open a REVERSE. |
| PlatformStore.Store.ApplyTransition | internal/usecase/platform/apply_transition.go:23-96 | The statements, in order, on history, registry, routing and request row amount to the transition as one operation. |
| PlatformStore.Store.TransferToRegistry | internal/adapter/gateway/postgres/request_gateway.go:398-405 | Moves exactly the rows neither excluded nor rejected, and dates them. |
| PlatformStore.Store.ApplyRouting | internal/adapter/gateway/postgres/request_gateway.go:409-418 | Source prefix on rejected or excluded rows, recipient prefix on the others and on the request. |
| PlatformStore.Store.ApplyEndOfRequestRestitution | internal/adapter/gateway/postgres/request_gateway.go:424-433 | Moves and marks one number, gives the request its prefix. |
| PlatformStore.Store.ScheduleTransitionAt | internal/adapter/gateway/postgres/request_gateway.go:441-446 | Sets the deadline, whatever the request's status. |
| PlatformStore.Store.ScheduleTransition | internal/framework/engine/engine.go:113-135 | A closed window applies at once; an open one defers by a delay from its minimum, below its maximum when there is a spread, and exactly its minimum otherwise. |
| PlatformStore.Store.Reject | internal/adapter/gateway/postgres/request_gateway.go:270-289 | Two statements that close the step on the caller's decision and end the request REJETE (Answers.AcceptanceWrites). |
| PlatformStore.Store.Accept | internal/usecase/acceptance/accept_request.go:105-157 | The guards in order and the fault each gives; the whole new state. Causes and effect: Answers.AcceptanceAnswers, Answers.AcceptanceWrites. |
| PlatformStore.Store.AcceptFleet | internal/usecase/acceptance/accept_fleet_request.go:80-170 | Validates every rejection before writing one; an exhausted fleet is rejected, otherwise the transition is scheduled. Causes and effect: Answers.FleetAcceptanceAnswers, Answers.FleetAcceptanceWrites. |
| PlatformStore.Store.CheckRejections | internal/usecase/acceptance/accept_fleet_request.go:116-132 | Answers whether every rejected number belongs to the request with a known reason, or none given. |
| PlatformStore.Store.RejectEach | internal/usecase/acceptance/accept_fleet_request.go:136-140 | The loop rejects exactly the listed rows. |
| PlatformStore.Store.ListExpectedConfirmers | internal/entity/authorization.go:68-77 | The loop answers the expected confirmers in the order of the table. |
| PlatformStore.Store.Confirm | internal/usecase/porting/confirm_request.go:65-136 | The guards, the scan for the caller, the anti-replay key, then the count against the length; the whole new state. Causes and effect: Answers.ConfirmationAnswers, Answers.ConfirmationWrites. |
| PlatformStore.Store.Process | internal/usecase/porting/process_step.go:61-106 | The guard's fault, or the scheduled transition. Causes and effect: Answers.ProcessingAnswers, Answers.ProcessingWrites. |
| PlatformStore.Store.Cancel | internal/usecase/porting/cancel_request.go:47-82 | The guard's fault, or the guarded write. Causes and effect: Answers.CancellationAnswers, Answers.CancellationWrites. |
| PlatformStore.Store.WriteCancel | internal/adapter/gateway/postgres/request_gateway.go:309-332 | Two statements under one guard: both write or neither. |
| PlatformStore.Store.ReadState | internal/adapter/gateway/postgres/number_gateway.go:27-54 | The registry's view of a number, with the flag computed over all requests in progress, or nothing for an unknown one. |
| PlatformStore.Store.CreateIndividual | internal/usecase/creation/create_individual_request.go:59-133 | The guards in order and the fault each gives; the whole new state. Causes and effect: Openings.IndividualAnswers, Openings.IndividualOpens. |
| PlatformStore.Store.CreateRestitution | internal/usecase/creation/create_restitution_request.go:49-108 | Roles from the registry, guards in order; the whole new state. Causes and effect: Openings.RestitutionAnswers, Openings.RestitutionOpens. |
| PlatformStore.Store.DeduplicateFleet | internal/usecase/creation/create_enterprise_request.go:213-224 | The loop with its seen set computes the deduplication. |
| PlatformStore.Store.ReadStates | internal/usecase/creation/create_enterprise_request.go:110-120 | The state of every number, or nothing as soon as one is unknown. |
| PlatformStore.Store.HoldersDiffer | internal/usecase/creation/create_enterprise_request.go:121-125 | Answers whether the numbers have different holders. |
| PlatformStore.Store.PartitionFleet | internal/usecase/creation/create_enterprise_request.go:127-136 | The loop computes the retained and the excluded numbers; the cause of each exclusion: Openings.ExcludedAnswered. |
| PlatformStore.Store.AuthorizeFleet | internal/usecase/creation/create_enterprise_request.go:88-156 | The guards in order, the fault each gives, and the partition on success. Causes: Openings.FleetAnswers. |
| PlatformStore.Store.StoreFleetRows | internal/usecase/creation/create_enterprise_request.go:169-182 | The two insertion loops store the retained then the excluded rows. |
| PlatformStore.Store.CreateFleet | internal/usecase/creation/create_enterprise_request.go:85-209 | The whole creation: fault, new state, listing read back, count and excluded numbers answered. Causes and effect: Openings.FleetAnswers, Openings.FleetOpens, Openings.ExcludedAnswered. |
| PlatformStore.Store.FleetNumbers | internal/adapter/gateway/postgres/request_gateway.go:178-197 | Exactly the rows not excluded, by position then number. |
| PlatformStore.Store.SubmitReverse | internal/usecase/reverse/submit_reverse_request.go:46-86 | Only the origin operator, only a number held elsewhere; the whole new state (Openings.SubmissionAnswers). |
| PlatformStore.Store.ValidateReverse | internal/usecase/platform/auto_validate_reverses.go:19-55 | Opens the REVERSE and marks the reverse request, or does nothing if it is not pending (Openings.ApprovalOpens). |
| PlatformStore.Store.RejectReverse | internal/usecase/platform/auto_validate_reverses.go:60-64 | Marks a pending reverse request and nothing else (Openings.RefusalMarks). |
| PlatformStore.Store.TransitionEach | internal/usecase/platform/converge_pending_transitions.go:32-36 | The loop plays one transition per id, at instants that never go back. |
| PlatformStore.Store.ConvergePendingTransitions | internal/usecase/platform/converge_pending_transitions.go:27-38 | Exactly the due requests, once each, by an action. |
| PlatformStore.Store.ExpireOverdueSteps | internal/usecase/platform/expire_overdue_steps.go:36-50 | Exactly the requests overdue at the given instant with nothing pending, once each, by an expiration; none when the timeout is not positive. By the calendar: Expiry.TickExpiresIff. |
| PlatformStore.Store.AutoValidate | internal/usecase/platform/auto_validate_reverses.go:109-123 | Exactly the reverse requests pending too long, once each; none when the delay is not positive. By the calendar: Expiry.TickValidatesIff. |
| PlatformStore.Store.AutoComplete | internal/usecase/platform/auto_validate_reverses.go:142-161 | Exactly the REVERSE requests awaiting the ARTP, once each, two transitions from CONFIRMATION and one from COMPLETION. |
| PlatformStore.Store.Tick | internal/framework/engine/engine.go:78-99 | Frozen, nothing; otherwise the four passes in order under one shared instant, following a plan the queries allow. Effect by the calendar: Expiry.TickExpiresIff, Expiry.TickOnReverse, Expiry.TickValidatesIff. |
| PlatformStore.Store.Purge | internal/usecase/sandbox/purge_test_data.go:50-97 | The ordered deletions and the restoration amount to the purge; the three counters are the rows concerned. |
| PlatformStore.Store.IdsToConfirm | internal/adapter/gateway/postgres/query_gateway.go:151-200 | The loop keeps exactly the requests at CONFIRMATION that still expect this operator, each once, by request date. |

## Left out

- HTTP, authentication, controllers, JSON rendering and the two fidelity renderings: transport and presentation.
- One-time passwords beyond their verdict, client identities, comments, rejection reasons stored on rows, the PREPAID/POSTPAID process: no step reads them.
- Declaring and resolving incidents: only their effect, the market-wide freeze, is an event.
- The read-only lists (incoming, outgoing, own, already confirmed) and pagination: thin reads.
- PlatformStore.Store.ScheduleTransition: the delay is any one of the window, the distribution it is drawn from is not modelled; it is counted in microseconds.
- Runs.RegistryIsLedger: reads the requests only and so leaves two moves of one instant unordered; Replay.RegistryIsReplay orders them by the run.
- PlatformStore.Store.Purge: does not count or delete one-time passwords, which are not modelled.
- PlatformStore.Store.AuthorizeFleet: the prefix of the source is read inside the transaction in the source; nothing is written before it, so the guard is placed with the others.
- Completion latency, skew between the Go and Postgres clocks, identifier generation, the reading of configuration and the seeding of data.
- Failures of the database and a tick interrupted by one: a tick is modelled as running to its end.
- Database isolation levels; the two-step level covers a request between a read and a write, not two creations racing for the same number.
- The in-memory test doubles: they skip the registry, the routing and the step guards.
