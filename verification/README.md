# A verified model of the session daemon and its lease router

The daemon supervises terminal agents: it reads their screens and lifecycle hooks, decides when an
agent waits for somebody, publishes that as an event, and types the answers back.  A router beside it
leases capacity to daemons and retires their epochs.  This project models the hand-written state
machines in the middle of that and proves the properties they are built for.

Almost every component has two files.  One gives its meaning: a value for the state, a function for each
atomic step, and theorems about every run of steps in every order.  The other is the program's own
form: a class whose fields are updated in place, each method proved to move the abstract state exactly
as the step it models.  So the theorems about runs are theorems about the methods.

| component | meaning and theorems | the program's form |
|---|---|---|
| router leases | `Leases.dfy` | `LeaseService.dfy` |
| leases over a network | `LeaseProtocol.dfy`, `LeaseHandshake.dfy`, `LeaseCustody.dfy` | `LeaseClient.dfy` (the client's part) |
| bounded event queue | `EventLog.dfy` | `EventQueue.dfy` |
| belief engine | `Hooks.dfy`, `Belief.dfy` (what it may do), `BeliefDuty.dfy` (what it owes its hooks), `BeliefEvidence.dfy`, `BeliefPrompt.dfy` and `BeliefAdvice.dfy` (when it acts on what it sees) | `BeliefEngine.dfy` |
| answer hand-off | `HandOff.dfy`, `Landing.dfy` (when a typed submit has landed) | `SessionSlots.dfy` |
| retirement barrier | `Retirement.dfy`, `Barrier.dfy` (when the epoch is certified) | `RetirementManager.dfy` |
| frames, dialog, capture, transcript, rate limit | `FrameFeed.dfy`, `Dialog.dfy`, `Capture.dfy`, `Transcript.dfy`, `RateLimiter.dfy` | in the same files |

`dafny verify dfyconfig.toml` checks the whole project.

## What the code does not promise

Properties one would expect, that the code as written does not have.  Each has a concrete run that
breaks it and the exact condition under which it holds.

- *A token whose release was acknowledged never counts again.*  An acquire may answer a token whose
  release is still waiting in the outbox, and the manager takes it into its maps.  The release is
  then acknowledged, the router restarts, and the snapshot registers the token again
  (`LeaseProtocol.AcknowledgedTokenComesBack`).  Committing a granted token keeps every later run safe if
  and only if its release has not begun and its own slot does not already hold it
  (`LeaseProtocol.CommitIsSafeExactlyWhenNotOnItsWayOut`); under that guard all runs are safe.
- *Certification is final.*  A session is registered before its row is made.  If the orphan reaper
  persists a terminal in between, the store knows no such session, the error is swallowed and the
  obligation is discharged.  A terminal that goes to the store and is discharged leaves every later
  certification right, and every later number under the certified high water, if and only if its
  session's row was already made (`Retirement.DischargeIsSafeExactlyWhenNotEarly`): from every state after
  an early one, whatever else is going on, there is a continuation with no further early terminal that
  certifies the epoch and then numbers a terminal above its high water.
  `Retirement.NumberedAfterCertification` is one such run from the empty manager.  The model lets a thread
  wait at any point for any time.  By the clock, the row must be held back until the session has gone
  unobserved for its grace, was marked, and stayed so for the grace again; and the session's monitor must
  have passed its own teardown check before the reaper raises it, and then outlast the reaper's ten-second
  join (daemon/manager.py:1842-1955).
- *An answered gate is never asked about again.*  A new invocation of the same call in an open turn
  asks again, by design (`Belief.InvokedGateIsAskedAgain`).
- *The synthesised capture holds the raw input.*  Only for a positive chunk size; a negative one
  writes an empty file and zero raises (`Capture.SynthesizeCapture`).

## Model

| member | source | states |
|---|---|---|
| Leases.RunKeeps | router/leases.py:78-298 | over any run of acquires, releases, epoch releases, registrations and new ids, counts stay within the limits and no token of an epoch holds two keys |
| Leases.AcquireKeeps | router/leases.py:78-141 | one acquire, all kinds or none, keeps both |
| Leases.RegisterKeeps | router/leases.py:208-298 | replacing an epoch by any snapshot that is accepted keeps both |
| Leases.RemovalKeeps | router/leases.py:145-204 | taking any leases away keeps both |
| Leases.SnapshotLoads | router/leases.py:270-298 | an accepted snapshot becomes leases of that epoch only, one per listed entry, and as many of each kind as were listed |
| Leases.LoadedFacts | router/leases.py:276-287 | a validated batch without repetitions becomes exactly the leases it lists |
| Leases.RefusalChangesNothing | router/leases.py:78-268 | a refused acquire or registration changes no lease, no registration and not the router's id |
| Leases.AcquireAnswers | router/leases.py:78-141 | granted if and only if the id is current, the epoch registered, and every kind held already or with room, and a refusal names the first of these that fails; then each kind is held under the caller's key, new exactly when it was not held before, with a token the epoch did not have, and nothing else changed |
| Leases.RegisterAnswers | router/leases.py:208-298 | accepted if and only if the id is current and the epoch is registered already or its snapshot is well formed and fits beside the other epochs, and a refusal names the first of these that fails; a new registration then holds exactly what the snapshot lists, and no other epoch is touched |
| Leases.WellFormedExactlyWhenItListsLeases | router/leases.py:227-248 | a snapshot passes validation if and only if it lists, each once and by kind, leases the epoch can hold: no token under two keys |
| Leases.ReleaseEpochAnswers | router/leases.py:185-204 | the epoch holds nothing, every other key what it had; doing it again changes nothing |
| Leases.ReacquireReturnsSame | router/leases.py:95-141 | after any number of other acquires, asking again for a granted kind answers the same token, not new, even when the service is full |
| Leases.ReleaseIsOnce | router/leases.py:145-183 | a release answers true exactly when the token was held and removes one lease; repeating it answers false and changes nothing |
| Leases.ReleaseAnswers | router/leases.py:145-183 | refused as stale or rebuilding exactly then; otherwise just what the token holds in its epoch is gone, and the answer says whether that was anything |
| LeaseServices.LeaseService.constructor | router/leases.py:42-52 | a new service stands for the empty ledger with its limits |
| LeaseServices.LeaseService.SetReconciliationId | router/leases.py:58-62 | a new id leaves every lease and withdraws every registration made under another id |
| LeaseServices.LeaseService.Epoch | router/leases.py:64-70 | an epoch is created empty on first use and otherwise left alone |
| LeaseServices.LeaseService.Acquire | router/leases.py:78-141 | answer and ledger are those of the abstract acquire, with both indexes and all four counters exact afterwards |
| LeaseServices.LeaseService.Mint | router/leases.py:122-141 | exactly the missing kinds get a new token, under their own kind-keys |
| LeaseServices.LeaseService.Release | router/leases.py:145-183 | answer and ledger are those of the abstract release, indexes and counters exact |
| LeaseServices.LeaseService.ReleaseEpoch | router/leases.py:185-204 | after the loop the epoch holds nothing, other epochs are unchanged, and the global counters dropped by just what it held |
| LeaseServices.LeaseService.RegisterSnapshot | router/leases.py:208-298 | answer and ledger are those of the abstract registration, for every snapshot, well formed or not |
| LeaseServices.LeaseService.Replace | router/leases.py:250-298 | capacity is judged with the epoch's old leases taken out; over the limit nothing changes |
| LeaseServices.LeaseService.GlobalCountsAreSums | router/leases.py:39-52 | each global counter is the sum of the per-epoch counters |
| LeaseServices.SumCounts | router/leases.py:24-37 | summing the per-epoch counters counts the tokens of a kind |
| LeaseServices.ValidateBatch | router/leases.py:300-333 | the loop accepts a batch exactly when every entry is a token of that kind and epoch |
| LeaseServices.CheckDistinct | router/leases.py:227-248 | the two passes accept exactly the snapshots in which no token id and no key comes twice, across both lists |
| LeaseServices.Fill | router/leases.py:273-287 | the rebuilt indexes are inverse to each other and hold exactly the snapshot |
| LeaseProtocol.StepKeeps | daemon/lease_client.py:87-237 | every step of client, manager, network or router keeps the protocol invariant, provided no token on its way out is committed |
| LeaseProtocol.AcknowledgedNeverCountsAgain | daemon/manager.py:1126-1193 | in every such run, with any delay, loss, retry and restart, no acknowledged token counts, and every release once begun is acknowledged, queued, or in flight |
| LeaseProtocol.CommitIsSafeExactlyWhenNotOnItsWayOut | daemon/manager.py:1458-1477 | committing a granted token keeps all later guarded runs safe if and only if the token is not on its way out |
| LeaseProtocol.HeldOnItsWayOutComesBack | daemon/manager.py:1126-1148 | from any state whose maps hold a token being released, its acknowledgement and two router restarts bring it back |
| LeaseProtocol.ReachesOutboxToken | daemon/lease_client.py:177-210 | a run of the program after which an acquire has been answered with a token waiting in the outbox |
| LeaseProtocol.AcknowledgedTokenComesBack | daemon/manager.py:1458-1477 | the run in which the program commits that token and an acknowledged token counts again |
| LeaseCustody.NoGrantIsLost | daemon/manager.py:1126-1148 | in every run of the program, guarded or not, a new token the manager has committed or rolled back is in its maps, or its release is acknowledged, queued, or in flight |
| LeaseCustody.RunCustody | daemon/lease_client.py:87-210 | the invariant behind it, over every run |
| LeaseHandshakes.HandshookIsRegistered | daemon/manager.py:1150-1193 | in every run of the program, guarded or not, with any restarts and late replies, a marked id that is still the router's is one under which the epoch is registered |
| LeaseHandshakes.UnregisteredIsDue | daemon/lease_client.py:57-64 | so an unregistered daemon that knows the router's id knows a handshake is due; and when none is due its releases succeed and its acquires are not refused as rebuilding or stale |
| LeaseHandshakes.HandshakeSettles | daemon/manager.py:1150-1193 | a handshake under the router's present id can be marked if and only if its snapshot is accepted, and then none is due any more |
| LeaseClients.LeaseClient.constructor | daemon/lease_client.py:25-35 | nothing heard, nothing owed, nothing registered |
| LeaseClients.LeaseClient.UpdateFromResponse | daemon/lease_client.py:46-50 | the id is the newest one heard; an answer without an id leaves it |
| LeaseClients.LeaseClient.MarkHandshook | daemon/lease_client.py:57-59 | remembers the very id registered under, and nothing else changes |
| LeaseClients.LeaseClient.NeedsHandshake | daemon/lease_client.py:61-64 | a handshake is due exactly when the id last heard is not the one marked; wherever the protocol can be with this client, it answers yes if the router has that id and does not have the epoch registered |
| LeaseClients.LeaseClient.Release | daemon/lease_client.py:177-210 | the outbox gains the token unless it was acknowledged or refused for good, and loses it when acknowledged |
| LeaseClients.LeaseClient.RetryOutbox | daemon/lease_client.py:87-105 | every token of the outbox is sent once, each request under the id known at the start; exactly the unacknowledged tokens are left |
| LeaseClients.LeaseClient.EnsureHandshake | daemon/manager.py:1150-1193 | registers only when due, marks the id captured before the snapshot and not the one heard since, only on acceptance, and then retries the outbox |
| LeaseClients.DeliverIsClientStep | daemon/lease_client.py:177-210 | taking a release's reply in the protocol is what the client does with it |
| LeaseClients.GiveUpIsClientStep | daemon/lease_client.py:177-210 | giving a release up in the protocol is what the client does when the router cannot be reached |
| LeaseClients.RegistrationIsClientStep | daemon/lease_client.py:214-237 | taking a registration's reply in the protocol is hearing its id; it can be marked exactly when it was accepted, and the mark is the id it was sent under |
| LeaseClients.RoundKeepsUnacknowledged | daemon/lease_client.py:87-105 | a round of the protocol, whatever else daemon, network and router do during it, leaves in the outbox just the tokens whose retry was not acknowledged |
| EventLog.NoSilentGap | daemon/events.py:246-344 | unless told its cursor expired, a waiter gets the earliest event ever published in its scope after its cursor, or nothing when there is none, through any nesting of publishes and resolves in callbacks |
| EventLog.ExpiredExactlyWhenGone | daemon/events.py:252-270 | a cursor is expired if and only if it is negative or an event in scope after it is gone |
| EventLog.ResyncNeverExpires | daemon/events.py:319-323 | the cursor handed out for resynchronising is never expired, and nothing lies after it |
| EventLog.ResyncCursorIsNewest | daemon/events.py:319-323 | for a session not forgotten, that cursor is its newest event on the whole log |
| EventLog.PendingAsOnTheLog | daemon/events.py:446-456 | the pending decision is the one the unbounded log has pending |
| EventLog.ResolveAsOnTheLog | daemon/events.py:424-444 | resolving answers the sequence number, and resolves the events, that it would on the unbounded log |
| EventLog.RunStandsFor | daemon/events.py:78-508 | after every run the ring stands for the log: same events, same fate of each retained one, no unresolved decision missing |
| EventLog.EvictionIsFair | daemon/events.py:192-230 | an evicted event of an owner none of whose sessions was forgotten was no unresolved decision, was not being published, and at every later time has at least the floor of newer retained events of that owner |
| EventLog.EvictsOnlyWhenFull | daemon/events.py:223-230 | in every run, a step other than forgetting that drops an event leaves at least as many evictable events as the bound allows |
| EventLog.NothingLostWithinBound | daemon/events.py:223-230 | a queue that has seen no more events than its bound, and forgotten no session, has every one of them |
| EventLog.EvictionPrefersOlder | daemon/events.py:192-206 | when an event is dropped, an older evictable one is left only if its owner is down to the floor |
| EventLog.ForgetTakesTheSession | daemon/events.py:458-508 | forgetting drops the session's events and no other, its last number and its watermark, and leaves every other session's |
| EventLog.EvictionTakesOldest | daemon/events.py:192-206 | what a step evicts is older than every indexed event its owner keeps |
| EventLog.VictimIsOwnersOldest | daemon/events.py:192-206 | scanning all retained events oldest first picks the oldest indexed one of its owner |
| EventLog.BoundedAfterEveryStep | daemon/events.py:223-230 | after every step the evictable events are within the bound, or every owner is down to its floor |
| EventLog.EvictKeeps | daemon/events.py:208-230 | the eviction loop, started anywhere an operation can leave it, restores the whole invariant including the watermarks |
| EventLog.StepKeeps | daemon/events.py:272-508 | every step keeps the invariant of events, watermarks, floors and pins |
| EventLog.RunKeeps | daemon/events.py:272-508 | so does every run |
| EventQueues.EventQueue.constructor | daemon/events.py:102-133 | an empty queue is the empty ring with its bound and floor |
| EventQueues.EventQueue.Publish | daemon/events.py:272-317 | number, then callback, then index, then evict: the ring moves through exactly the steps the publish and its callback stand for, however deeply the callback publishes and resolves |
| EventQueues.EventQueue.RunHook | daemon/events.py:298-316 | a callback's own publishes and resolves move the ring as their steps say, and return with its event on top |
| EventQueues.EventQueue.GiveUp | daemon/events.py:298-316 | a callback that supersedes its event settles that event only, and drops nothing |
| EventQueues.PublishReturns | daemon/events.py:272-317 | the steps of a publish are well bracketed and end by closing and evicting in the state its callback left |
| EventQueues.HookReturns | daemon/events.py:272-317 | whatever a callback does, it leaves the publishes under way as they were |
| EventQueues.EventQueue.IndexEvictable | daemon/events.py:160-169 | the owner's history stays in order with the event in its place, counted once |
| EventQueues.EventQueue.IndexNew | daemon/events.py:171-179 | an unresolved decision is pinned, anything else becomes evictable, and all indexes agree |
| EventQueues.EventQueue.Unpin | daemon/events.py:181-190 | the event leaves both pin indexes and enters its owner's history in order |
| EventQueues.EventQueue.PickVictim | daemon/events.py:192-206 | the oldest retained event that is not pinned and whose owner is above its floor, or none exactly when there is none |
| EventQueues.EventQueue.DropVictim | daemon/events.py:208-221 | the event leaves every index and both watermarks take it in |
| EventQueues.EventQueue.EvictIfNeeded | daemon/events.py:223-230 | the loop leaves the ring at the fixed point of eviction |
| EventQueues.EventQueue.ResolveDecision | daemon/events.py:424-444 | every unresolved event of the decision is resolved, and the newest answered |
| EventQueues.EventQueue.MarkAnswered | daemon/events.py:412-422 | one event is answered, unpinned if it was pinned, and its number returned |
| EventQueues.EventQueue.HighWater | daemon/events.py:252-270 | the largest number gone from the scope: global, one session's, or the largest over a set of sessions |
| EventQueues.EventQueue.FirstAfter | daemon/events.py:246-250 | the earliest retained event in scope after the cursor, or none |
| EventQueues.EventQueue.LatestAfter | daemon/events.py:331-344 | expiry is told before any event is given |
| EventQueues.EventQueue.WaitEvent | daemon/events.py:346-370 | without a session the wait is refused, never answered with another session's event |
| EventQueues.EventQueue.WaitEventAny | daemon/events.py:372-410 | an empty set of sessions is refused; otherwise the wake is that of the set |
| EventQueues.EventQueue.LatestSeq | daemon/events.py:319-323 | the number of everything published, or the session's last |
| EventQueues.EventQueue.Pending | daemon/events.py:446-456 | the newest unresolved decision in scope, or none |
| EventQueues.EventQueue.ForgetSession | daemon/events.py:458-508 | every event and watermark of the session is gone from all indexes, and nothing else |
| EventQueues.Bisect | daemon/events.py:160-169 | the place after every smaller or equal number |
| Hooks.OnlyPreToolUseInvokes | daemon/hooks.py:58-114 | a hook reports a gate's new invocation if and only if it is the PreToolUse of that very call by an ordinary tool |
| Hooks.OneRole | daemon/hooks.py:58-114 | which hook opens, closes, clears, pauses, interrupts, and with which prompt kind and gate, event by event; never two roles at once |
| Hooks.BothHooksOfAGateAgree | daemon/hooks.py:58-114 | the two hooks of one question carry one identity and differ in their prompt kind only |
| Belief.RunKeeps | daemon/belief.py:64-774 | over every run of hooks, submits and ticks: the pending pause is not answered, a closed turn stays closed, and no screen decision is out under hooks |
| Belief.AnsweredStaysQuiet | daemon/belief.py:216-393 | in any run, a pause once answered is not published until a turn opens or a plain working hook carries its gate in an open turn |
| Belief.AnsweredGateStaysQuiet | daemon/belief.py:216-393 | the same from raw hooks: only a submitted prompt or the PreToolUse of that very call can lift it |
| Belief.SpentStaysQuiet | daemon/belief.py:216-324 | the invariant behind it, from any reachable engine |
| Belief.PendingIsNotAnswered | daemon/belief.py:365-381 | in every run the pending key is never in the answered set |
| Belief.PausePublishesExactlyWhen | daemon/belief.py:266-308 | a pause hook publishes if and only if the turn is not over and it is either new and unanswered, or refines the kind of the pending one |
| Belief.InvokedGateIsAskedAgain | daemon/belief.py:310-324 | the exception is real: after a new invocation an answered gate is published again |
| Belief.IdleOncePerTurn | daemon/belief.py:495-515 | in every run at most one idle is published for a turn, by Stop hook or by reconciliation |
| Belief.IdleEndsTurn | daemon/belief.py:229-244 | an idle names the turn it is published in, and ends it |
| Belief.NothingAfterIdle | daemon/belief.py:341-474 | from a turn's idle to the next opening hook nothing is published, and the state is idle or terminal |
| Belief.OneScreenDecisionAtATime | daemon/belief.py:740-761 | over every run each screen withdrawal names the one decision that is out, and none is published over another |
| Belief.FreeTextIsPublishedOnlySettled | daemon/belief.py:663-738 | a free-text prompt is published only if the same prompt stood on every living tick for the confirm window, with no submit or hook between, no echo, and no grace running |
| Belief.AdvisoriesOfAFrozenStretch | daemon/belief.py:517-661 | while the screen's meaning does not change, the three escalators together count 1, 2, 3, ... and keep the smallest budget apart |
| Belief.FewAdvisoriesPerStretch | daemon/belief.py:609-661 | a frozen stretch of length T holds at most 1 + T / budget advisories |
| BeliefDuties.TurnEndsExactlyWithItsIdle | daemon/belief.py:229-244 | from any reachable engine, a step ends the turn if and only if it publishes that turn's idle |
| BeliefDuties.ClosingHookEndsTheTurn | daemon/belief.py:229-244 | a closing hook ends every turn not yet over: its idle is published and says whether the hook was an interrupt, whether or not a pause was pending, and a pending one is withdrawn |
| BeliefDuties.HookEndsTurn | daemon/belief.py:216-244 | a hook ends the turn if and only if it closes, does not open, and the turn is not over |
| BeliefDuties.IdlesAreTheEndedTurns | daemon/belief.py:229-515 | over every run exactly one idle was published for each turn that ended, and none for any other |
| BeliefDuties.PendingLeavesWithNotice | daemon/belief.py:216-324 | the pending pause goes only when answered, dropped by a new turn, withdrawn, or replaced by a pause that is published |
| BeliefDuties.HookSetsControl | daemon/belief.py:216-324 | after a hook in a turn not over, the engine waits for the user exactly when that hook's own pause is pending, and is idle exactly when the hook ended the turn |
| BeliefDuties.AnsweredOnlyBySubmit | daemon/belief.py:365-381 | in every run a pause counts as answered only because a submit of this turn found it pending |
| BeliefDuties.NewTurnAsksAgain | daemon/belief.py:216-228 | after an opening hook any pause is published, whatever was answered before |
| BeliefDuties.QuestionIsAChoice | daemon/belief.py:266-333 | the two hooks of one question, in either order, leave it pending as a choice, and the second publishes exactly when it refines the first |
| BeliefDuties.PauseNamesItsKind | daemon/belief.py:266-341 | a published pause is pending, and told with the kind known of it: a choice if either hook said so |
| BeliefDuties.AnsweredQuestionIsWithdrawn | daemon/belief.py:246-264 | the hook that reports a question answered withdraws the pending pause, publishes nothing and lets the turn go on |
| BeliefDuties.OpeningHookStartsTheNextTurn | daemon/belief.py:216-228 | the next turn is open, with nothing pending and nothing answered, and nothing is published |
| BeliefDuties.FirstHookTakesOver | daemon/belief.py:189-215 | the first hook withdraws the decision read off the screen, and hooks are in charge from then on |
| BeliefDuties.WorkLeavesThePause | daemon/belief.py:310-324 | any other working hook publishes nothing, leaves the pending pause, and lifts the tombstone of just the gate it invokes in an open turn |
| BeliefDuties.StragglersChangeNothing | daemon/belief.py:246-324 | a hook that comes after its turn was closed, or plain work before any was open, changes no turn and publishes nothing |
| BeliefEvidence.HungOnlyWhenUnchanged | daemon/belief.py:545-641 | in every run the agent is called hung only when every tick of at least the smallest budget showed the same meaning |
| BeliefEvidence.IdleReconciledOnlyWhenWaiting | daemon/belief.py:445-515 | an idle without a Stop hook is published only when the very free-text prompt now shown stood on every tick for the turn's grace, and the last hook is that old too |
| BeliefEvidence.LostStopOnlyWhenStalled | daemon/belief.py:476-534 | a lost Stop is suspected only when no hook came and no screen showed progress for the whole limit |
| BeliefEvidence.UnconfirmedOnlyWhenEchoed | daemon/belief.py:711-723 | a submit is called unconfirmed only when our text is in the box now and was there a limit ago, with a prompt on every screen and nothing submitted since |
| BeliefEvidence.IdleAfterSubmitNeedsEvidence | daemon/belief.py:563-595 | after a submit a free-text prompt is published only once the grace is over, or a later tick showed no prompt and a heartbeat that had changed within the stale limit, or changed content with our text gone from the box |
| BeliefPrompts.FreeTextIsPublishedExactlyWhen | daemon/belief.py:663-738 | in every run without hooks, a tick publishes the free-text prompt on its screen, if it is not out already, if and only if it stood on every living tick for the confirm window, our text is not in the box, the last submit was taken, no announced hooks are waited for, and the last screen decision withdrawn, if of the same meaning, is a cooldown ago |
| BeliefPrompts.StandingPromptIsPublished | daemon/belief.py:684-738 | so after that tick its decision is out and the engine waits for the user |
| BeliefPrompts.ChoiceIsPublishedAtOnce | daemon/belief.py:696-704 | a modal or permission prompt is out after the first tick that shows it, and published by that tick unless it was out before, whatever was submitted, echoed or expected |
| BeliefPrompts.DecisionStaysExactlyWhileShown | daemon/belief.py:597-682 | a decision that is out stays exactly while its own prompt is on the screen, and otherwise is withdrawn by that tick |
| BeliefPrompts.ScreenDecisionNamesItsPrompt | daemon/belief.py:749-761 | what is published off the screen names the kind and the meaning of the prompt the tick shows |
| BeliefPrompts.StartsExactly | daemon/belief.py:431-443 | the engine holds back for hooks exactly while the run shows that they were announced and not given up |
| BeliefPrompts.StoodIsWatched | daemon/belief.py:684-688 | a prompt that stood since a tick is out, or has been the candidate since that tick at the latest |
| BeliefPrompts.RunWithdrawn | daemon/belief.py:740-747 | in every run the remembered withdrawal is the last one since the last submit, with its cooldown |
| BeliefPrompts.RunRuns | daemon/belief.py:575-595 | in every run the grace after a submit runs only while nothing has shown the submit to be taken |
| BeliefAdvice.HungExactlyWhen | daemon/belief.py:609-641 | in every run without hooks, on a screen without a prompt, the agent is called hung if and only if the screen has meant the same for the budget its heartbeat allows and no earlier advisory's budget runs; the engine asks for intervention meanwhile |
| BeliefAdvice.UnderHooksExactlyWhen | daemon/belief.py:445-534 | in every run with hooks, while the agent is at work: an idle without a Stop is published if and only if the free-text prompt waits too long; a lost Stop is suspected if and only if the screen stalls too long and no earlier advisory's budget runs; otherwise the agent is called hung as above; and the control state follows |
| BeliefAdvice.QuietUnlessUnderway | daemon/belief.py:445-453 | in every other control state a tick under hooks publishes nothing |
| BeliefAdvice.UnconfirmedWhenEchoStands | daemon/belief.py:711-723 | a submit that stood in the box on every living tick for the limit, with no hooks waited for and no decision out, is complained about if and only if no earlier advisory's budget runs |
| BeliefAdvice.RunNag | daemon/belief.py:517-661 | in every run the throttle is that of the last advisory since the screen's meaning changed, by the budget then in force |
| BeliefEngines.BeliefEngine.constructor | daemon/belief.py:65-158 | a new engine meets the invariant |
| BeliefEngines.BeliefEngine.ExpectHooks | daemon/belief.py:176-187 | only the startup clock is set |
| BeliefEngines.BeliefEngine.OnHook | daemon/belief.py:189-324 | memory and actions are those of the automaton the theorems are about, a Stop's idle among them |
| BeliefEngines.BeliefEngine.FoldHook | daemon/belief.py:216-324 | the turn, control state and actions of one hook |
| BeliefEngines.BeliefEngine.FoldPause | daemon/belief.py:266-308 | the pause's slot, kind and publication |
| BeliefEngines.BeliefEngine.OnSubmit | daemon/belief.py:365-393 | the pending pause is answered and the prompt memory cleared, as the automaton says |
| BeliefEngines.BeliefEngine.Tick | daemon/belief.py:396-428 | memory and actions of a tick, dead or alive, by hooks or by screen |
| BeliefEngines.BeliefEngine.TickUnderHooks | daemon/belief.py:445-474 | reconciliation first, then escalation, then the watchdog |
| BeliefEngines.BeliefEngine.ReconcileLostStopIdle | daemon/belief.py:495-515 | the turn is ended, with its one idle, exactly when a free-text prompt has stood unchanged for long enough |
| BeliefEngines.BeliefEngine.TrackHookProgress | daemon/belief.py:476-485 | the progress clock restarts exactly when the screen's progress changes |
| BeliefEngines.BeliefEngine.Watchdog | daemon/belief.py:621-641 | one advisory at most, by the budget in force |
| BeliefEngines.BeliefEngine.Escalate | daemon/belief.py:517-534 | the shared throttle of the three escalators |
| BeliefEngines.BeliefEngine.TrackSemantic | daemon/belief.py:545-552 | a change of meaning ends the episode and its count |
| BeliefEngines.BeliefEngine.TrackHeartbeat | daemon/belief.py:554-561 | the heartbeat clock restarts exactly on a change |
| BeliefEngines.BeliefEngine.UpdatePostSubmit | daemon/belief.py:575-595 | the grace after a submit ends by content or by time |
| BeliefEngines.BeliefEngine.OnBusy | daemon/belief.py:597-607 | a prompt that is gone withdraws its decision and its candidate |
| BeliefEngines.BeliefEngine.OnPrompt | daemon/belief.py:663-738 | withdrawing, waiting or publishing, as the automaton says |
| BeliefEngines.BeliefEngine.Candidate | daemon/belief.py:684-738 | how long a prompt has stood, and what follows from it |
| BeliefEngines.BeliefEngine.WithdrawDecision | daemon/belief.py:740-747 | the outstanding decision is named, forgotten and put on its cooldown |
| BeliefEngines.BeliefEngine.PublishDecision | daemon/belief.py:749-761 | the published decision becomes the outstanding one |
| HandOff.AnswerFate | daemon/session.py:1563-1740 | in every interleaving an answer leaves its slot once, by one party; its keys go out at most once, by the monitor, into the modal frozen at enqueue, which has a body; stale or terminal means nothing was typed, and resumed means it was |
| HandOff.TypedOnlyIntoTheAnsweredModal | daemon/session.py:1637-1717 | at the moment of typing delivery is pending, the modal on the claiming frame is the answered one, and nothing was typed before |
| HandOff.SubmitFate | daemon/session.py:1748-1951 | a submit is typed at most once; submitted means typed, with landing seen on a later tick's frame; stale means nothing was typed |
| Landing.SubmittedExactlyOnLanding | daemon/session.py:1807-1932 | in every run a typed submit with an outcome was submitted if and only if the last frame drained for it is the first that shows it landed, by movement without our text in the box or by the text being gone after an earlier frame showed it; and failed if and only if there is none and the last frame is the first past the deadline; every such frame is later than the write |
| Landing.FrameDecides | daemon/session.py:1842-1932 | the frame of a tick decides a typed submit as the frames so far say: landed first, then the deadline, else it waits on |
| Landing.DeadlineResolves | daemon/session.py:1868-1932 | the first tick at or past the deadline resolves it, whatever is on screen, and says submitted exactly on landing evidence in the frames |
| Landing.LeavesOnlyDecided | daemon/session.py:1748-1951 | a typed submit leaves its slot only by such a frame, by its waiter giving up, or by teardown |
| HandOff.EnqueuedExactlyWhen | daemon/session.py:1563-1600 | an answer is enqueued if and only if the session is open, its decision is the pending one, the slot is free, and, for a blocked answer, delivery is pending; otherwise nothing changes and the refusal says why |
| HandOff.DeliveryTakesTheAnswer | daemon/session.py:498-546 | delivery takes a waiting answer out and tells its responder it is stale; a blocked decision goes, any other stays |
| HandOff.TypingConsumesItsDecision | daemon/session.py:1637-1867 | whoever starts to type takes the pending decision, and it is the one the answer was given to |
| HandOff.ConsumedStaysConsumed | daemon/session.py:1563-1951 | in every run a decision that is not pending any more never is again, so it is answered once at most |
| HandOff.TypingStartsTheDeadline | daemon/session.py:1807-1932 | a write that succeeds starts the deadline and leaves the slot, one that times out empties it |
| HandOff.NoEnqueueWhileTyping | daemon/session.py:1807-1932 | while the monitor types, both responders are refused, so the write-timeout branch discards no other answer |
| HandOff.NobodyIsLeftWaiting | daemon/session.py:876-899 | after teardown both slots are empty and every responder has an outcome or a reply |
| HandOff.SlotStaysEmpty | daemon/session.py:1719-1740 | once teardown has aborted the pending answer its slot stays empty, and no answer is taken any more |
| HandOff.AnswerIsServed | daemon/session.py:1637-1717 | an answer the monitor finds in the slot is typed if and only if delivery is pending and the modal on screen is the blocked decision's own, with a body; its responder is told resumed, write timeout, or stale accordingly |
| HandOff.SubmitIsServed | daemon/session.py:1807-1932 | a submit whose prompt is still there is typed, and a frame that moved on without echo gets its responder resumed |
| HandOff.StepKeeps | daemon/session.py:1563-1951 | every step of responders and monitor keeps the invariant |
| HandOff.RunKeeps | daemon/session.py:1563-1951 | so does every interleaving of any number of responders |
| SessionSlots.Session.constructor | daemon/session.py:94-238 | an open session with empty slots |
| SessionSlots.Session.RespondBlocked | daemon/session.py:1563-1600 | enqueues, freezing the modal's identity, or refuses with the reply the state calls for |
| SessionSlots.Session.RespondFreeText | daemon/session.py:1748-1768 | enqueues a submit or refuses |
| SessionSlots.Session.ReclaimAnswer | daemon/session.py:1605-1621 | a waiter whose time is up gets its answer back exactly when the monitor has not taken it |
| SessionSlots.Session.ReclaimSubmit | daemon/session.py:1779-1791 | the same for a submit |
| SessionSlots.Session.DrainPendingAnswer | daemon/session.py:1637-1717 | claims the answer, and goes on to type it or reports it stale |
| SessionSlots.Session.TypeAnswer | daemon/session.py:1637-1717 | the one write, and what its outcome is reported as |
| SessionSlots.Session.ConfirmDelivery | daemon/session.py:498-546 | delivery wins over a queued answer, which is taken out and told so |
| SessionSlots.Session.DrainPendingSubmit | daemon/session.py:1807-1932 | types a queued submit, or judges a typed one by frame and deadline |
| SessionSlots.Session.JudgeWritten | daemon/session.py:1842-1932 | one frame judged: an echo is remembered, a landing empties the slot, the deadline fails it, and otherwise it waits |
| SessionSlots.Session.TypeSubmit | daemon/session.py:1807-1932 | a write that succeeds starts the deadline; one that times out empties the slot |
| SessionSlots.Session.Report | daemon/session.py:1637-1717 | the outcome reaches the waiter of that answer only |
| SessionSlots.Session.RaiseGate | daemon/session.py:876-893 | from here on nothing is enqueued |
| SessionSlots.Session.AbortPendingAnswer | daemon/session.py:1719-1740 | a queued answer is taken out and told terminal |
| SessionSlots.Session.AbortPendingSubmit | daemon/session.py:1934-1951 | a queued or typed submit is taken out and told what is true of it |
| Retirement.CertifiesOnlyTheEnded | daemon/manager.py:1703-1748 | in every run in which no terminal comes before its session's row, certification finds every admitted session numbered or without rows, and its high water covers every number |
| Retirement.NothingAfterCertification | daemon/manager.py:969-1032 | afterwards no session is admitted and no terminal is numbered, even by a thread that passed the check before |
| Barrier.CertifiedExactlyWhenAllDone | daemon/manager.py:1703-1748 | in every run certification is granted if and only if, as the history of the run has it, every session admitted has left, every slot taken was given back or used, every acquire begun has ended, and no terminal is owed; otherwise nothing changes |
| Barrier.RunCounts | daemon/manager.py:636-1089 | in every run the manager's sets and its counter are what that history leaves open |
| Retirement.FreeingPersistsFirst | daemon/manager.py:1034-1089 | freeing the slot of a session nobody has persisted numbers its terminal, with the next number unless it had one; the slot stays taken only over a terminal of another kind |
| Retirement.NumbersAreDistinct | packages/nelix_store/nelix_store/store.py:262-333 | in every run no number is given twice, and none changes unless the session's rows are deleted |
| Retirement.DischargeIsSafeExactlyWhenNotEarly | daemon/manager.py:996-1029 | persisting and discharging leaves every later certification right in all continuations, and every later number under the certified high water, if and only if the session's row was made before |
| Retirement.ForgottenIsNumbered | daemon/manager.py:1703-1748 | from every state with a running session whose obligation is gone and whose thread has passed the check, all other sessions can be brought to an end, the epoch certified, and the terminal numbered above its high water |
| Retirement.NumberedAfterCertification | daemon/manager.py:1842-1955 | a witness: the run in which an early orphan reap lets a terminal be numbered above the certified high water |
| Retirement.OrdinaryLifeIsCertified | daemon/manager.py:636-1748 | a witness that the barrier is no lock-out: one session that is admitted, runs, ends and is freed leaves an epoch that certifies at its number |
| Retirement.ReapingReaches | daemon/manager.py:717-763 | the first half of that run, from the empty manager |
| Retirement.StepKeeps | daemon/manager.py:636-1089 | every step, an early terminal excepted, keeps the barrier's invariant |
| Retirement.RunKeeps | daemon/manager.py:636-1748 | so does every interleaving of spawns, restarts, persists, reaps and certifications |
| Retirement.Highest | packages/nelix_store/nelix_store/store.py:371-385 | the largest number there is, 0 when there is none |
| RetirementManagers.Manager.constructor | daemon/manager.py:251-335 | an open epoch that owes nothing |
| RetirementManagers.Manager.Admit | daemon/manager.py:717-763 | refused exactly when the epoch is not open; otherwise registered and owed, a restart's reservation consumed |
| RetirementManagers.Manager.ReserveForRestart | daemon/manager.py:865-953 | the slot is held across the restart exactly when the session was still active |
| RetirementManagers.Manager.DeleteRows | daemon/manager.py:792-804 | a failed start deletes its rows before anything else |
| RetirementManagers.Manager.Unregister | daemon/manager.py:805-811 | and only then gives up its registration and its obligation |
| RetirementManagers.Manager.CheckPersist | daemon/manager.py:981-994 | refused exactly when the epoch is certified, outside the lock |
| RetirementManagers.Manager.PutTerminal | packages/nelix_store/nelix_store/store.py:262-333 | numbered once, only with a row; the same result again is accepted and another refused |
| RetirementManagers.Manager.StoreTerminal | daemon/manager.py:996-1005 | an unknown session is let pass, a conflicting terminal stops the thread; the barrier's invariant is kept unless the terminal comes early |
| RetirementManagers.Manager.Discharge | daemon/manager.py:1007-1029 | the obligation goes, whatever the store answered |
| RetirementManagers.Manager.FreeSlot | daemon/manager.py:1034-1089 | the slot is freed, persisting the terminal first when nothing else has |
| RetirementManagers.Manager.PersistedHighWater | packages/nelix_store/nelix_store/store.py:371-385 | the scan finds the largest number of any stored terminal |
| RetirementManagers.Manager.BeginQuiescence | daemon/manager.py:1649-1659 | nothing is admitted from here on |
| RetirementManagers.Manager.CertifyEpoch | daemon/manager.py:1703-1748 | certified, with the high water of that moment, exactly over a full barrier |
| FrameFeeds.TraceOfStream | daemon/pty_session.py:69-95 | for every stream, what was fed and what is held back make up the stream, and snapshots stand exactly at the ends of the end-of-frame sequences in it |
| FrameFeeds.SplittingDoesNotMatter | daemon/pty_session.py:69-95 | two feeds of the same bytes, split anyhow, have given the renderer the same and hold the same back |
| FrameFeeds.HeldBackIsUnique | daemon/pty_session.py:12-18 | what is held back is determined by the stream |
| FrameFeeds.HeldBackIsAfterOccurrences | daemon/pty_session.py:69-95 | no complete sequence reaches into what is held back |
| FrameFeeds.EsuPartialLen | daemon/pty_session.py:12-18 | the length of the longest proper beginning of the sequence that the buffer ends with |
| FrameFeeds.FrameFeed.Feed | daemon/pty_session.py:69-77 | after any read the trace and the carry are those of the whole stream |
| FrameFeeds.FrameFeed.FeedFrames | daemon/pty_session.py:77-95 | the cutting loop over carry and new bytes does the same |
| Transcript.ContentRows | daemon/transcript_builder.py:39-67 | exactly the content rows that do not repeat, below the prompt's chrome, a row standing above it, top down |
| Transcript.TopIsKept | daemon/transcript_builder.py:39-67 | the topmost of equal content rows is always kept |
| Transcript.TranscriptBuilder.MatchRows | daemon/transcript_builder.py:70-90 | row by row from the top, each row takes the nearest line like it, within the window, that the rows above have left, the first of equally near ones, or becomes a new line; nothing else changes |
| Transcript.TranscriptBuilder.FindBest | daemon/transcript_builder.py:73-82 | a line of the same normal form within the window, with none nearer left and the first of equally near ones, or none when there is none |
| Transcript.TranscriptBuilder.Observe | daemon/transcript_builder.py:69-104 | total rows stay the sum of sightings over all occurrences ever made; a line is dropped exactly when it was not seen for the grace, and of those dropped exactly the ones seen often enough and not yet given are committed, once, oldest first; the tracked lines stay oldest first |
| Transcript.TranscriptBuilder.Sweep | daemon/transcript_builder.py:91-103 | a line is dropped uncommitted only if it was seen too seldom |
| Transcript.TranscriptBuilder.CommitAll | daemon/transcript_builder.py:100-102 | exactly these lines go to the dialog, in order, none a second time |
| Transcript.TranscriptBuilder.Finalize | daemon/transcript_builder.py:106-114 | the last frame is matched and swept like any other, then exactly the uncommitted lines still tracked are committed, each once, in order, after what the sweep gave; none is left uncommitted |
| Transcript.TranscriptBuilder.CommitRest | daemon/transcript_builder.py:106-114 | the same after the last frame |
| Transcript.Sort | daemon/transcript_builder.py:93-102 | the same lines, by first sighting and then by row, those equal in both in the order they had |
| Dialogs.PagesMakeTheText | daemon/dialog.py:131-179 | following the next offsets ends, and the pages joined are the flat text from there on |
| Dialogs.PagesAreWellSized | daemon/dialog.py:131-179 | no page is empty or over the limit, and every page but the last has more than six tenths of it |
| Dialogs.SnappedPageEndsAtNewline | daemon/dialog.py:131-147 | a snapped page ends at the last newline before the limit if one stands beyond six tenths of it, and is as long as the limit otherwise |
| Dialogs.OffsetsLast | daemon/dialog.py:56-101 | the offset of an appended line finds it again after any number of further appends |
| Dialogs.OneHolds | daemon/dialog.py:108-119 | an offset lies in one record |
| Dialogs.BoundaryIsRecordStart | daemon/dialog.py:122-128 | a newline before the offset, or the start, is the same as a record starting there |
| Dialogs.SplitKeepsText | daemon/dialog.py:56-75 | appending a text line by line appends the text |
| Dialogs.SpeakerAt | daemon/dialog.py:108-119 | the speaker of the record that holds the offset; the agent when there is none |
| Dialogs.IsAtRecordBoundary | daemon/dialog.py:122-128 | at the start, or just after a newline |
| Dialogs.SnapPage | daemon/dialog.py:131-147 | the page ends at the last newline beyond six tenths of the limit, or at the limit |
| Dialogs.Dialog.AppendRaw | daemon/dialog.py:41-54 | the spool holds the newest bytes of everything appended, all of them within the bound and as many as the bound beyond it, and its base says where they start |
| Dialogs.Dialog.AppendRecord | daemon/dialog.py:56-75 | the flat text grows by the text, and the offset returned is where its first line starts |
| Dialogs.Dialog.AppendUserInput | daemon/dialog.py:77-91 | the marked input is appended as the user's, and its offset remembered |
| Dialogs.Dialog.AddAgentLine | daemon/dialog.py:93-101 | a marker comes first exactly when the agent was not already speaking |
| Dialogs.Dialog.FlatText | daemon/dialog.py:104-105 | the records joined by newlines |
| Dialogs.Dialog.ReadPage | daemon/dialog.py:149-179 | the page at the offset and the offset after it; the speaker is that of the record holding the offset, and the page is continued exactly when no record starts there |
| Dialogs.Dialog.Tail | daemon/dialog.py:181-196 | the end of the text within the limit, from just after the first newline in it when there is one |
| Capture.ReadInvertsWrite | daemon/capture.py:13-61 | reading gives back every list of written records, whatever bytes they hold |
| Capture.ParsePrinted | daemon/capture.py:44-61 | the same from any place at which a record starts |
| Capture.PrintIsInjective | daemon/capture.py:13-17 | two lists of records written alike are the same list |
| Capture.HeaderRoundTrip | daemon/capture.py:13-17 | a header reads back as its offset and its count, and holds no newline |
| Capture.HeadersLookSo | daemon/capture.py:13-17 | the format on two headers, a negative offset among them |
| Capture.ReadCapture | daemon/capture.py:44-61 | the cursor loop reads what the grammar says, and fails on the same files |
| Capture.CaptureWriter.Record | daemon/capture.py:28-35 | empty data is not written; the first record starts the clock; offsets count from it |
| Capture.SynthesizeCapture | daemon/capture.py:63-70 | for a positive chunk size the chunks joined are the raw input, each full but the last and stamped in order; zero fails, and a negative one writes nothing |
| RateLimiter.BurstIsBounded | daemon/rpc_server.py:49-72 | whatever went before, calls within a span are allowed at most capacity + refill * span times |
| RateLimiter.AllowedFrom | daemon/rpc_server.py:63-72 | from a bucket with some tokens, at most those and what flows in |
| RateLimiter.SpacedIsNeverRefused | daemon/rpc_server.py:63-72 | calls that leave time for a token between them are all allowed |
| RateLimiter.GapForAToken | daemon/rpc_server.py:63-72 | a gap of 1/refill leaves that time |
| RateLimiter.AllowedExactlyWhen | daemon/rpc_server.py:49-72 | a call is allowed if and only if, from whichever earlier call one counts, the calls allowed since, with it, are no more than the capacity and what is refilled since: the bucket is that sliding window |
| RateLimiter.LastFull | daemon/rpc_server.py:63-72 | since the call that last found the bucket full, its level is the capacity and the refill since, less the calls allowed |
| RateLimiter.HookRateLimiter.Allow | daemon/rpc_server.py:63-72 | allowed exactly when the refilled bucket holds a whole token, and only the session's own bucket changes |

## Left out

Weaker than the source, on purpose:

- EventLog.EvictionIsFair: for owners none of whose sessions was forgotten; forgetting takes a session's events out of its owner's count.
- EventLog.NoSilentGap: for scopes that contain no forgotten session, because forgetting erases the session's watermark with its events.
- EventQueues.EventQueue.Publish: a callback that raises is modelled as one that stops early; a callback that calls forget_session is not modelled.
- EventQueues.EventQueue.MarkAnswered: takes the event's number, where the program takes a short random id that is unique with high probability only.
- Belief.FreeTextIsPublishedOnlySettled: a prompt without a fingerprint of its own is identified by the screen's meaning, and those meanings are taken not to be fingerprints of other prompts.
- BeliefPrompts.FreeTextIsPublishedExactlyWhen: under the same reading, and for a clock that does not go back.
- BeliefAdvice.UnconfirmedWhenEchoStands: for a stretch in which every living tick shows our text; a modal prompt in between does not stop the program's clock.
- LeaseCustody.NoGrantIsLost: from the moment the manager commits a token or rolls it back; a grant whose reply is never taken counts until the epoch is registered anew or released.
- LeaseProtocol.AcknowledgedNeverCountsAgain: under the guard that no token on its way out is committed; without it the claim is false, see above.
- LeaseProtocol.StepKeeps: under the same guard, and with one acquire in hand per session; see the next group.
- LeaseClients.LeaseClient.RetryOutbox: a round is atomic here; what else may happen during it is in LeaseClients.RoundKeepsUnacknowledged.
- Retirement.NothingAfterCertification: for runs without an early terminal; without that it is false, see above.
- Retirement.CertifiesOnlyTheEnded: for the same runs.
- Retirement.StepKeeps: for steps that are no early terminal.
- Retirement.RunKeeps: for runs without an early terminal.
- Landing.DeadlineResolves: says what a tick at or past the deadline does; that ticks keep coming is the scheduler's business.
- Capture.ReadCapture: headers that the writer never prints but Python's number parsing would take (signs, blanks, exponents, underscores) are bad headers here.
- Dialogs.PagesAreWellSized: the factor 0.6 is six tenths of the limit by integer division; the rounding of the floating-point product is not modelled.
- RateLimiter.BurstIsBounded: tokens and time are real numbers, without rounding.

Not modelled:

- Processes, terminals, sockets, HTTP, signals, file locks, paths, the command line and the start-up code.
- Drivers and the renderer: their judgements (prompt kinds, echo, options, volatile rows) are inputs; their exceptions are not modelled.
- Clocks are inputs, and waits are the scans they make when woken; the second bounded wait of a responder is a later wake-up.
- Hash functions: fingerprints are opaque, and equal ones stand for equal things.
- Strings such as session, owner and generation ids are opaque numbers.
- Logging, audit, redaction, diagnostic notes and the engine fields that only feed status displays.
- The payload of an event beyond its session, owner, respondability and decision; modal options, excerpts and labels.
- Event objects are values: the reason written into an event is kept in a map beside it, so two holders of one event object are not modelled as aliases.  The same holds for answers, which a slot names by index.
- `latest_seqs`, and the owner resolver's cache.
- Un-reconciling an epoch under the same id (`set_rebuilding`, `set_epoch_rebuilding`) and the rebuilding refusals it causes.
- The exception path of a follow-up turn that releases a token before dropping it (daemon/manager.py:1484-1491).
- The wiring that builds the lease client without generation ids (daemon/app.py:162); the ids are parameters.
- Whether every held token is known to the router: an acquire whose reply is in flight across a restart breaks it.
- Refusals of a release are taken to be retryable, as the rebuilding and stale-id errors are.
- The restart path (daemon/manager.py:901-905) acquires for its new session without the pending-acquire marker; the protocol takes one acquire at a time for a session.
- A commit releases the token it replaces, as a follow-up turn does (daemon/manager.py:1458-1477); a spawn only overwrites the entry (daemon/manager.py:746).
- The handshake's in-flight marker, which only avoids duplicate registrations; the model allows them.
- The direct write of a modal answer after delivery; only that it claims the decision is modelled, because the claim is what the hand-off depends on.
- Sanitising an answer, matching it against options, and sending follow-up turns and asynchronous replies.
- Agreement between the session's own pending decision and the queue's at every instant; an idle publish may overwrite the former.
- Certification's check that the epoch named is the manager's own, and the admission checks on a missing or dead epoch; the model has one live epoch.
- The store beyond numbering, rows, the high water and the retirement state: failing calls, acknowledgement, pruning and garbage collection.
- The operator's retire command and generation restarts (router/operator.py, router/restart.py).
- Reading a dialog back from disk (`DialogReader`), `since`, and the list of tail lines.
