# ReviewFlow: a verified model of its concurrent state machines

ReviewFlow is a multi-tenant backend. Its hard logic is a set of state machines over
database rows, driven at the same time by requests, webhooks, sweeps and workers that may
crash, repeat or overtake one another. This project models those machines for one merchant
and proves the guarantees the code states for them in CHECK constraints, row-lock order,
conditional UPDATEs and split transactions.

| part | files |
|---|---|
| Billing subscription engine | `BillingTypes`, `BillingSnapshot`, `BillingCheckout`, `BillingRecord`, `BillingInvariants`, `BillingEffects`, `BillingWorld`, `BillingRun`, `BillingTheorems`, `BillingMeaning`, `BillingRequests`, `BillingProtocol`, `BillingEvents`, `BillingDunning`, `BillingLostRun`, `BillingInheritedRun`, `Quota` |
| Google OAuth attempts and review sync | `OAuthAttempts`, `OAuthRun`, `ReviewSync` |
| Sale event pipeline | `SaleAmounts`, `LocationMappings`, `Sales`, `EventPipeline` |
| WhatsApp senders and the STOP fan-out | `Senders`, `OptOutFanOut` |

How each part is built:

- **Steps as functions, operations as methods.** What one locked transaction does to the rows
  is a function. A class holds the same rows and performs the operation as the service does,
  attribute by attribute and statement by statement, with its loops, its `update_fields` sets
  and its rollbacks; each method is proved to leave exactly the state the function gives. The
  theorems are about the functions, over whole runs. The table below lists the methods with a
  loop, a partial save or a rollback; the remaining ones (`Quota.QuotaRows`, `Senders.SenderRows`,
  and the short methods of `Subscription`, `OAuthStore`, `MappingStore`, `MappingRows`, `Ledger`,
  `Inbox` and `FanOutTask`) are straight-line and proved equal to their step function in the same way.
- **Two accounts of each step.** A second set of lemmas says what each step does in terms of the
  stored columns, the inputs and the settings alone, without the helpers the step functions are
  built from: `BillingMeaning`, `BillingRequests` and, at the end of each other module, the lemmas
  whose names end in `Exactly` or `Means`.
- **Runs.** A `World` is the committed rows, the position of every worker, and what has
  happened so far (references ever stored, proofs seen, codes sent, reservations granted).
  `Next` is one step, `Run` any sequence of steps. Provider answers, clocks, refusals, failures
  and crashes are arbitrary inputs of the steps. A transaction that rolls back, or a worker that
  dies inside one, is a run without that step.
- **Interleaving.** Where the guarantee depends on row locks (`Quota`, `Senders`) or on
  conditional UPDATEs (`OAuthRun`, `ReviewSync`) every statement is a step of its own and any
  number of workers interleave. For those the sequential operation is also proved to be what the
  statements commit when nothing else runs. In billing every locked transaction is one step and
  the provider calls between them are separate steps.

## Assumptions

- The provider never hands out a subscription id it has handed out before (`BillingWorld.NewId`).
  This is the only condition the billing theorems put on a run, apart from the two exact
  exclusions named in the next section.
- The downgrade commit is driven by one sync worker per merchant, which may crash anywhere.
  With two, a second worker can confirm a cancel before the first handles its refusal;
  `BillingProtocol.SecondWorkerBreaksRefusal` says exactly when that breaks the row.
- `process_event` is one atomic step: it locks the event row and reads the integration in the
  same statement. Instants are whole seconds.
- Runs of the billing engine start with a first checkout or with the development seed's row.
- The OAuth hosts share one clock: every `now` a caller uses was read at or before the step that
  uses it. `OAuthRun.ExchangeIsNeverCutOff` needs this.

## What the code does not guarantee

Four properties one would expect are false of the code. Each is kept as the code has it, with
the exact condition under which it holds.

- **A checkout can lose a pending replacement.** `start_plan_change_replacement`
  (`billing/services.py:2011`) looks at the retired slot only. A CANCELLED or EXPIRED row that
  still holds a replacement can be turned ACTIVE by the checkout's own reconcile
  (`billing/services.py:1867-1888`) and reach it; the new replacement then overwrites the old one.
  `BillingLostRun.TheRunLoses` is a complete run that does so. `BillingInvariants.Overwrites` says
  which checkouts overwrite, in terms of the row, the request and the answers, and
  `BillingTheorems.StepLosesExactly` that a step loses a subscription if and only if it is such a
  checkout and the provider had not ended the old replacement. The loss theorem excludes exactly
  those steps (`BillingWorld.Loses`); checkouts that overwrite a replacement already ended, or that
  are refused on the way, are part of its runs.
- **The new replacement inherits the commit marker of the one it overwrites.** The same code sets
  the replacement's reference, plan and expiry but leaves `replacement_committed_at` and
  `replacement_cancel_confirmed_at` as they are. `BillingTheorems.MarkerBreaksExactly`: the marker
  stops naming a pair that some T1 verified if and only if the overwritten replacement was
  committed, whether or not it had ended. If its cancel was not confirmed either, the next sweep's
  `_reissue_committed_cancel` (`billing/services.py:1144-1174`) schedules the current subscription's
  end for a pair that no T1 ever verified, with one worker and no crash:
  `BillingInheritedRun.TheRunSchedulesUnmarked`. `BillingTheorems.SchedulesUnmarkedExactly` says that
  the next re-issue does so if and only if the step was such a checkout, and the protocol theorem
  excludes exactly those (`BillingWorld.InheritsOpen`); runs that inherit a confirmed marker are
  part of it.
- **The log of an exhausted STOP chain is capped.** `whatsapp/tasks.py:149-157` logs at most
  twenty merchant ids and the full count. It names every failed merchant in every run if and only
  if the STOP has at most twenty targets (`OptOutFanOut.LogIsEnoughExactly`);
  `OptOutFanOut.TwentyOneAreTooMany` is a run that leaves one out. The failed set itself is complete.
- **Zero with a large exponent is refused.** The docstring of `_fits_decimal` says it mirrors the
  column. For a non-zero amount it does exactly (`SaleAmounts.FitsIsExact`); `0E+10` is refused
  although zero fits (`SaleAmounts.ZeroIsRefused`).

Two further iff results: the event margin is sound for a clock difference if and only if that is
at most five seconds (`BillingEvents.MarginIsExact`), and expiry commutes with a terminal snapshot
if and only if the snapshot too falls on or after day 7 (`BillingDunning.ExpiryCommutesWithTerminal`).

## Model

| member | source | states |
|---|---|---|
| BillingTheorems.NoSubscriptionIsLost | billing/services.py:803-864 | In every run in which no checkout overwrites a replacement the provider has not ended, each provider subscription ever stored is still in one of the row's three slots, or the provider reported it terminal, or an immediate cancel of it succeeded |
| BillingTheorems.StepLosesExactly | billing/services.py:1985-2040 | A step loses a subscription if and only if it is a checkout that overwrites a replacement not yet reported terminal or cancelled |
| BillingInvariants.OverwritesExactly | billing/services.py:1845-1951 | Which checkouts create a replacement over a pending one, in terms of the row, the request and the provider's answers alone: the reconcile's guards, then the plan change's |
| BillingLostRun.TheRunLoses | billing/services.py:1845-1891 | A legal run (activation, upgrade, failed payment, expiry, checkout) after which the first replacement is in no slot, was never reported terminal and was never cancelled |
| BillingTheorems.MarkerBreaksExactly | billing/services.py:1985-2040 | A step leaves a commit marker for a pair no T1 marked if and only if it is a checkout that overwrites a committed replacement |
| BillingInheritedRun.TheRunSchedulesUnmarked | billing/services.py:1144-1174 | A legal run with one worker and no crash (downgrade committed, cancel timed out, expiry, dearer checkout, sweep) that schedules the current subscription's end for a pair never marked |
| BillingTheorems.EveryRun | billing/services.py:1232-1260 | Every run keeps the row invariant: constraints, slot discipline, paid proofs, snapshot order, remembered references, and a worker and pending pair that agree with what was scheduled |
| BillingRun.NextKeeps | billing/services.py:1293-1393 | Any single step, from any state that satisfies the row invariant, keeps it, overwriting checkouts included |
| BillingRun.NextKeepsMarker | billing/services.py:1074-1174 | Any step but an inheriting checkout keeps marker, confirmation, scheduled pairs and worker in agreement |
| BillingInvariants.StartCheckoutGood | billing/services.py:1845-1891 | Every checkout keeps the constraints; one that does not overwrite forgets only references that were cancelled at once or reported terminal |
| BillingProtocol.ScheduledOnlyAfterMarker | billing/services.py:1074-1174 | In every run in which no checkout inherits an open marker, every scheduled pair is a marked one, and the next step schedules only a pair whose marker is already durable, and only in the two provider calls of the commit path |
| BillingTheorems.SchedulesUnmarkedExactly | billing/services.py:1144-1174 | After any step, the next sweep's re-issue schedules a pair that was never marked if and only if that step was a checkout that overwrote a committed replacement whose cancel was unconfirmed |
| BillingTheorems.OpenMarkerBreaksExactly | billing/services.py:1985-2040 | The same checkouts, and no other step, leave an open marker for a pair no T1 marked |
| BillingProtocol.MarkerNamesItsPair | billing/services.py:1106-1141 | In every run in which no checkout inherits a marker, the row's marker was written for its present pair, and its confirmation follows a real schedule of that pair |
| BillingProtocol.SecondWorkerBreaksRefusal | billing/services.py:1135-1140 | If a second worker confirms first, the first worker's refused T2 meets the constraints if and only if its re-read lets the replacement be dropped |
| BillingEvents.MarginIsExact | billing/services.py:1375-1393 | No reachable settled sync closes an event received after its fetch began, for a given clock difference, if and only if that difference is at most five seconds |
| OAuthRun.ConnectionOnlyWithCompletion | google_reviews/services.py:379-515 | A connection changes only in the step that moves the exchange's own attempt from PENDING to COMPLETED with that connection, or by a refresh or revocation of an existing ACTIVE one whose refresh token is still the one read |
| ReviewSync.PageTokensNeverRepeat | google_reviews/services.py:773-787 | Under any interleaving no sync asks twice with the same page token |
| BillingTheorems.RowsStayValid | billing/models.py:129-199 | Every reachable row meets all CHECK constraints, and a pending replacement implies a current subscription, an empty retired slot and a row past INCOMPLETE |
| BillingTheorems.OccupiedSlotBranchesAreDead | billing/services.py:928-932 | On every reachable row the "retired slot occupied" guards of abandon, clear, switch and cancel never decide: the outcome is the same without them |
| BillingTheorems.EntitlementIsPaid | billing/services.py:342-372 | Every ACTIVE or PAST_DUE row with a provider reference, and every UsageRecord, has an earlier qualifying paid invoice for that reference and period start |
| BillingTheorems.SnapshotsApplyInOrder | billing/services.py:503-509 | Snapshots of one subscription apply in strictly increasing order of their fetch start |
| BillingInvariants.SnapshotGood | billing/services.py:487-556 | A main snapshot keeps every constraint and the slot discipline, and moves no reference except the replacement into the retired slot |
| BillingMeaning.MainIgnores | billing/services.py:495-517 | An answer for another subscription, an overtaken fetch, an unknown plan or a missing status changes nothing |
| BillingMeaning.MainMeans | billing/services.py:487-701 | What an applied answer does to status, plan, period, grace, flag, usage and stamps, and exactly when it drops the pending replacement |
| BillingInvariants.ReplacementSnapshotGood | billing/services.py:874-1021 | A replacement snapshot keeps them; it leaves the slots, retires the replacement, or switches it in while the old subscription takes the retired slot |
| BillingMeaning.ReplacementSwitchesExactly | billing/services.py:965-1021 | A replacement answer switches if and only if it is active, of a known plan and proven paid for a new period on an ACTIVE or PAST_DUE row; the switched row has that plan and period, the new reference, the old one retired as SWITCHED_OLD, and the replacement, pending and cancel columns cleared |
| BillingMeaning.ReplacementDropsExactly | billing/services.py:874-936 | Any other answer drops the replacement if and only if answer and re-read are both failed (committed), failed or lapsed (ACTIVE row) or anything but active (other rows); else the row stays |
| BillingMeaning.ReplacementSettlesExactly | billing/services.py:874-962 | Exactly when the fetch counts as settled |
| BillingMeaning.PaidAfterEndOnce | billing/services.py:939-962 | A replacement paid after the row ended is audited once and changes nothing else |
| BillingMeaning.SwitchedIsCancelled | billing/services.py:1180-1226 | After any step that switches, a fetch of the old subscription that shows any status short of an end, with a successful cancel, ends it |
| BillingMeaning.AbandonedIsSpared | billing/services.py:1180-1226 | A subscription retired by any other step is cancelled if and only if its fetch shows it created or authenticated and the cancel succeeds |
| BillingMeaning.AskCancelsExactly | billing/services.py:1201-1226 | Which fetches of the retired subscription lead to its cancel, by kind and status |
| BillingMeaning.DropsRetiredExactly | billing/services.py:1191-1198 | The retired slot is emptied only by name and after the provider reported an end, its events are closed, and nothing else changes |
| BillingInvariants.StartReplacementGood | billing/services.py:1985-2040 | Starting a replacement keeps the constraints always; one created under a new id forgets no reference if and only if none was pending |
| BillingRequests.ReplacementIsAsAsked | billing/services.py:1985-2040 | Exactly when a plan change creates a replacement, and that it has the asked plan, the expiry its window gives and, for a downgrade, the pending plan; nothing else changes |
| BillingRequests.DowngradeIsPending | billing/services.py:1894-1951 | A downgrade the provider takes in place is only recorded as pending |
| BillingRequests.UpgradeIsReconciled | billing/services.py:1894-1951 | An upgrade it takes in place is reconciled from its own answer, or refused with the row unchanged |
| BillingRequests.ActiveAnswersExactly | billing/services.py:1894-1951 | The other answers to a checkout of an ACTIVE row: just activated, cancelling, unchanged, already asked, no answer |
| BillingRequests.ResetIsAsAsked | billing/services.py:1758-1820 | Exactly when a checkout of an INCOMPLETE or ended row replaces its subscription, what it cancels for that, and the row it stores: the asked plan, INCOMPLETE, the new reference, no period, pending plan, flag or replacement |
| BillingRequests.PendingStopsReset | billing/services.py:1791-1810 | Which pending replacements stop a reset, each with its refusal and the row unchanged |
| BillingRequests.CreatesOnlyReconciled | billing/services.py:1845-1891 | An existing subscription is followed by another only after a reconcile that answered, left the row not past due and shows a known plan and status |
| BillingRequests.CheckoutStops | billing/services.py:1845-1866 | A past-due row, or an ACTIVE one with a replacement pending, is never touched |
| BillingRequests.ReconcileIsTheFullSnapshot | billing/services.py:1278-1290 | Fetching invoices only where needed gives the row that fetching them always would |
| BillingRequests.ReconcileFailsExactly | billing/services.py:1703-1720 | A reconcile fails if and only if the subscription, or the invoices it needs, cannot be read |
| BillingRequests.OwedCancelsExactly | billing/services.py:1462-1492 | An ended row's subscription is cancelled at the provider exactly when it may still bill and the call succeeds |
| BillingInvariants.CancelSubscriptionGood | billing/services.py:2075-2166 | Cancelling keeps the constraints, introduces no reference and forgets none |
| BillingRequests.CancelCancels | billing/services.py:2075-2166 | A granted cancel leaves the row CANCELLED with grace cleared, if and only if it was or is found past due, and otherwise ACTIVE with cancel_at_period_end; a refused one leaves the flag |
| BillingRequests.FlagsExactly | billing/services.py:2112-2121 | The flag is set if and only if the reconcile answered, left the row ACTIVE and not paused, and the provider accepted |
| BillingRequests.CancelIsIdempotent | billing/services.py:2075-2110 | A row that is already cancelling is left as it is |
| BillingRequests.PastDueCancels | billing/services.py:2124-2166 | A past-due cancel is local first, and ends the subscription at the provider exactly when its recorded status may be cancelled and the call succeeds, recording the status it answers |
| BillingRequests.RetiresExactly | billing/services.py:1232-1260 | A pending replacement is given up if and only if it can be read, is not active, and was cancelled while it could still be paid |
| BillingInvariants.CommitT2RefusedGood | billing/services.py:1135-1140 | Clearing the marker after a refusal keeps the constraints if and only if the row left that pair, or no confirmation is recorded, or the replacement is dropped with it |
| BillingEffects.SwitchKeeps | billing/services.py:965-1021 | A switch grants a period only on the replacement's own paid proof, and keeps the snapshot order |
| BillingProtocol.MarkedOnlyWhenVerified | billing/services.py:1039-1062 | A pair is newly marked only by a T1 whose tests, written out, all pass: idle worker, uncommitted ACTIVE candidate with a cheaper target, authenticated re-read of that plan, start and expiry, both gates and a window set, and the clock before the expiry and before the cutoff |
| BillingProtocol.MarksExactly | billing/services.py:1074-1118 | A step writes a marker if and only if it is such a T1; it then marks exactly that pair at that instant and goes on to the first call |
| BillingProtocol.UnverifiedIsDropped | billing/services.py:1039-1062 | An authorized downgrade that fails any of those tests leaves the replacement slot for the retired one |
| BillingProtocol.OtherT1IsNoOp | billing/services.py:1074-1118 | Any other T1 - no candidate, an upgrade's replacement, an unreadable or not authorized re-read - changes nothing |
| BillingProtocol.T2Means | billing/services.py:1119-1141 | T2 acts only on its own pair with the marker in place: a confirmation is recorded; a refusal clears the marker and drops a replacement re-read as inactive |
| BillingProtocol.MarkerGoesOnlyFor | billing/services.py:919-936 | The marker goes only on a paid switch, a replacement the provider reports failed, the merchant's cancel, or a definite refusal of the first call, after which the pair was never scheduled |
| BillingProtocol.TerminalDoesNotMoveCommitted | billing/services.py:532-541 | While a committed replacement stands on an ACTIVE row, a terminal answer for the old subscription at most stamps provider_status and the fetch time |
| BillingProtocol.NextSweepReissues | billing/services.py:1144-1174 | A committed, unconfirmed pair whose replacement is still authenticated is re-issued by the next sweep; a confirmed answer is recorded, any other leaves the marker for the sweep after it |
| BillingEvents.EventsClosedOnlyFor | billing/services.py:1375-1393 | A step closes an inbox event only as the settled main sync past the margin (never the live replacement's), as the settled sync of that very replacement, or because the event's subscription left its slot |
| BillingEvents.EventsClosedExactly | billing/services.py:1334-1393 | Exactly which events are closed after any step: those that were, those a settled sync past the margin could have observed, and those of departed subscriptions; no event changes otherwise |
| BillingEvents.DepartedEventsAreClosed | billing/services.py:867-871 | The events of a subscription that enters or leaves the retired slot are closed in that step |
| BillingEvents.LiveReplacementEvents | billing/services.py:1334-1344 | An event naming the live replacement is closed only by the settled sync of that replacement or in the step in which it departs |
| BillingEvents.ClosedEventsWereObserved | billing/services.py:867-871 | With clocks at most five seconds apart, an event a sync closes was truly received before that sync's fetch began, or its subscription left its slot in that step |
| BillingTypes.FirstQualifyingIsFirst | billing/services.py:342-372 | The paid rule finds an invoice if and only if one qualifies, and it is the first that does |
| BillingMeaning.ProvenPaidExactly | billing/services.py:342-372 | A period counts as paid if and only if some invoice of that subscription is paid in full, with a payment, and its billing window holds the period start |
| BillingRecord.Subscription.CurrentPeriodPaid | billing/services.py:342-372 | The loop over the invoices returns that first qualifying invoice, for every list and every malformed entity |
| BillingRecord.CoveredSaveIsWhole | billing/services.py:546-551 | Saving the columns in `fields` stores the whole row whenever `fields` covers every column that differs |
| BillingRecord.Subscription.ApplySnapshot | billing/services.py:487-556 | The in-place snapshot, with its growing `fields` set and partial save, leaves the committed row the step function gives; no touched column stays unsaved |
| BillingRecord.Subscription.ApplyActive | billing/services.py:563-641 | The active branch, attribute by attribute, equals its step function and tracks every column it touches |
| BillingRecord.Subscription.ApplyTerminal | billing/services.py:679-701 | The row ends as CANCELLED, or as EXPIRED once the grace period is over, grace columns cleared with it |
| BillingRecord.Subscription.AbandonUnlessActive | billing/services.py:803-822 | The replacement is dropped exactly when it is uncommitted, the slot is free and the re-read status is abandonable; otherwise nothing changes |
| BillingRecord.Subscription.RetireReplacement | billing/services.py:825-864 | The replacement moves to the retired slot as an abandoned one, its pending plan and marker go, its events are closed |
| BillingRecord.Subscription.ApplyReplacementSnapshot | billing/services.py:874-916 | The replacement snapshot by status, commit marker and row status, saved whole |
| BillingRecord.Subscription.SwitchToReplacement | billing/services.py:965-1021 | The in-place switch, slot by slot, leaves the row the switch function gives (BillingMeaning.ReplacementSwitchesExactly says which), or changes nothing |
| BillingRecord.Subscription.CommitDowngrade | billing/services.py:1074-1118 | T1 in place equals its step function (BillingProtocol.MarksExactly and UnverifiedIsDropped say what that is) |
| BillingRecord.Subscription.FinishCommit | billing/services.py:1119-1141 | T2 acts only if the row still stands at that committed pair: confirmation recorded, or marker cleared and the replacement dropped if it can be |
| BillingRecord.Subscription.AdvancePastDue | billing/services.py:1441-1459 | The checkpoint loop with its conditional update equals the one-tick step |
| BillingRecord.Subscription.ReplacesProvider | billing/services.py:1813-1820 | The reset: guard on the pending replacement, optional immediate cancel, creation and store, with the savepoint's rollback when a call fails |
| BillingRecord.Subscription.ChecksOut | billing/services.py:1845-1891 | The whole checkout, row and answer, equals its step function for every row and every provider answer |
| BillingRecord.Subscription.Cancels | billing/services.py:2075-2166 | The cancel request in place, replacement first, equals its step function (BillingRequests.CancelCancels says what a granted cancel leaves) |
| BillingDunning.StageIsTickIndependent | billing/services.py:1425-1459 | Before day 7, for any ticks in any number and order, the stage is the highest due at any of them, nothing else moves, and no checkpoint is audited twice |
| BillingDunning.StageIsDueAtLastTick | billing/services.py:1441-1459 | For non-decreasing ticks of a fresh episode the stage is the one due at the last tick |
| BillingDunning.ExpiresExactlyAtDaySeven | billing/services.py:1441-1449 | The row expires, grace columns cleared and audited exactly once, if and only if some tick is at or after day 7 |
| BillingDunning.ExpiryCommutesWithTerminal | billing/services.py:679-701 | Expiry and a terminal snapshot give the same row in either order, with one expiry audit, if and only if the snapshot is at or after day 7 |
| Quota.ReservedIsEntitled | billing/services.py:263-306 | Under any interleaving, when RESERVED commits the row is ACTIVE on exactly that period, use, the new unit included, is within the quota of the plan in force, and the re-check read the clock before the period's end |
| Quota.SeesExactly | billing/services.py:254-278 | A reservation goes on only from an ACTIVE row whose period has not ended by its first reading of the clock |
| Quota.ChecksExactly | billing/services.py:291-302 | The re-check under the lock passes if and only if the row is ACTIVE on that very period, before its end by the second reading, with quota left |
| Quota.ReserveExactly | billing/services.py:263-306 | RESERVED and QUOTA_EXHAUSTED, each with its exact condition on status, period, both clock readings and use |
| Quota.UseCountsReservations | billing/services.py:303-306 | A record's use is the number of RESERVED results that committed for its period |
| Quota.UseNeverDecreases | billing/services.py:309-332 | No transition lowers a record's use or removes it; returning to the same period bounds finds the count again |
| Quota.NoDeadlock | billing/services.py:405-422 | Subscription before UsageRecord: while any transaction is open, some open transaction need not wait |
| Quota.NextKeeps | billing/services.py:284-299 | Every statement of every thread keeps the lock and re-check invariant |
| Quota.AloneReservationIsSequential | billing/services.py:263-306 | Run without others, the statements of a reservation commit exactly the sequential operation |
| OAuthRun.CodeIsSingleUse | google_reviews/services.py:286-324 | In every interleaving an attempt's code goes to Google at most once (section 4.1.2 of RFC 6749) and a state is claimed at most once |
| OAuthRun.ClaimedByItsUser | google_reviews/services.py:217-239 | In every run an attempt that is PENDING or COMPLETED was claimed by the user who started it, ISSUED and before it expired |
| OAuthRun.ClaimExactly | google_reviews/services.py:217-239 | A claim wins exactly on the caller's own ISSUED, unexpired attempt; it stores the code and changes nothing else |
| OAuthRun.ReadExactly | google_reviews/services.py:286-324 | A task reads a code exactly from a PENDING, unexpired attempt that has one |
| OAuthRun.SwapExactly | google_reviews/services.py:286-324 | A task gets the code it read if and only if that code is still there, PENDING and unexpired |
| OAuthRun.SweepExactly | google_reviews/services.py:145-174 | Which attempts a sweep fails, and with which code: expired and unclaimed or unread at once, in flight after the grace period |
| OAuthRun.SweepEndsTheOverdue | google_reviews/services.py:145-174 | After a sweep at or past expiry plus grace an attempt is terminal |
| OAuthRun.PurgeExactly | google_reviews/services.py:177-185 | A purge removes exactly the terminal attempts past retention |
| OAuthRun.FinishExactly | google_reviews/services.py:379-456 | What the exchange's end writes, column by column: membership, missing refresh tokens, the reauthorized connection, and nothing at all when the attempt is no longer PENDING |
| OAuthRun.InsertExactly | google_reviews/services.py:366-376 | The insert of a new account conflicts exactly when it was connected meanwhile |
| OAuthRun.GiveUpExactly | google_reviews/services.py:264-283 | A task that gives up fails its attempt with its reason, if it still is PENDING, and writes nothing else |
| OAuthRun.TokenWritesExactly | google_reviews/services.py:462-515 | A refresh or a revocation writes exactly while the row is ACTIVE with the refresh token that was read; the email stays |
| OAuthRun.TerminalIsAbsorbing | google_reviews/services.py:264-283 | COMPLETED and FAILED rows never change until they are purged |
| OAuthRun.ExchangeIsNeverCutOff | google_reviews/services.py:145-174 | An exchange that took its code finds its attempt still PENDING until expiry plus grace, whatever sweeps ran |
| OAuthRun.ChecksHold | google_reviews/models.py:93-107 | The three CHECK constraints hold of every attempt in every run |
| OAuthRun.NextKeeps | google_reviews/services.py:347-376 | Every statement of every worker keeps the invariant: taken codes are gone from the table, one holder per attempt, a holder's attempt stays in flight |
| OAuthAttempts.OAuthStore.ExpireAttempts | google_reviews/services.py:145-174 | Both expiry rules, row by row, leave the table the specification gives |
| OAuthAttempts.OAuthStore.FinishOk | google_reviews/services.py:379-456 | Connection, audit row and COMPLETED together, or the failure alone, or nothing |
| ReviewSync.BulkIsOneByOne | google_reviews/services.py:715-756 | One page's collapsed bulk upsert equals upserting its usable reviews one by one, the last of an id winning |
| ReviewSync.SyncNeverMixesLocations | google_reviews/services.py:759-801 | Under any interleaving of syncs and remaps, away and back included, every stored review and non-null counter came from the mapping's current Google location |
| ReviewSync.CompleteSyncStoresEverything | google_reviews/services.py:759-801 | A sync that is not disturbed leaves each id's last storable review over all pages, column by column, every other row as it was, and the first page's average and count with the sync time |
| ReviewSync.UpsertedExactly | google_reviews/services.py:715-756 | After an upsert an id's row is its last review with a rating, a time and an id that fits, or what it was |
| ReviewSync.AloneSyncIsSequential | google_reviews/services.py:759-801 | For every sequence of answers, the interleaved statements of one sync with nothing between them leave what the sequential sync does |
| ReviewSync.PageIsWrittenExactly | google_reviews/services.py:715-756 | In an interleaved run a page is written in full if the mapping still points where the sync started, and not at all otherwise, a late page with anything to store ending the sync |
| ReviewSync.EndWritesExactly | google_reviews/services.py:794-800 | The counters and the sync time are written under the same condition |
| ReviewSync.RemapForgetsExactly | google_reviews/services.py:677-699 | A remap to another Google location forgets reviews, counters and sync time; to the same one nothing |
| ReviewSync.MappingStore.SyncLocationReviews | google_reviews/services.py:759-801 | The page loop, with its token, seen set and early stops, equals its specification for every sequence of answers |
| ReviewSync.MappingStore.UpsertReviews | google_reviews/services.py:715-756 | The dictionary loop and the single write, refused when the mapping moved, equal the one-by-one specification |
| SaleAmounts.FitsIsExact | integrations/core/events.py:22-36 | For a canonical decimal the digit test holds if and only if the exponent is at least -2 and the value is below 10^10 (zero: exponent at most 9) |
| SaleAmounts.AmountIsStoredExactly | integrations/core/events.py:73-76 | Every sale that constructs from a finite amount has amount n/100 with 0 <= n < 10^12, so the column stores it unchanged |
| SaleAmounts.InsertedRowHoldsTheValue | events/services.py:131-189 | From payload to column: the Transaction an attempt inserts has amount/100 equal to the value the payload named, and its currency and time |
| SaleAmounts.ConstructedColumns | integrations/core/events.py:54-81 | A constructed sale carries every field of its payload, a blank phone as none |
| SaleAmounts.ConstructsExactly | integrations/core/events.py:54-81 | Exactly which arguments construct a sale |
| SaleAmounts.ZeroIsRefused | integrations/core/events.py:22-36 | 0E+10 is a canonical zero, and refused |
| SaleAmounts.RefusedPayloadIsRecorded | events/services.py:110-123 | An attempt on a payload the constructor refuses stores the constructor's own code, uses one of its five attempts and sells nothing |
| LocationMappings.ResolutionIsAFunction | integrations/services.py:308-326 | On every reachable table no external id has two active matches, and a sale resolves to a location exactly when that is the only active mapping and has no id, or is active under the sale's id |
| LocationMappings.ReplaceIsAllOrNothing | integrations/services.py:245-305 | A replace is accepted if and only if the locations are distinct and may be mapped and the active ids are distinct strings, and then installs exactly the request; which error otherwise |
| LocationMappings.AddExactly | integrations/services.py:214-242 | A mapping is added if and only if the location may be mapped and is not yet, and an active one's id is a string no active mapping has; what is stored and which error |
| LocationMappings.CheckIdsIsExact | integrations/services.py:264-281 | The seen-ids loop accepts exactly the requests whose active ids are distinct strings |
| LocationMappings.RunKeepsDistinct | integrations/services.py:191-211 | Adds, replaces and disconnects keep the active ids pairwise distinct strings |
| LocationMappings.DisconnectedResolvesNothing | integrations/services.py:146-155 | A disconnect keeps every mapping, inactive, and inactive mappings resolve no sale |
| LocationMappings.MappingRows.CheckRequest | integrations/services.py:264-281 | The loop returns the first complaint about the request's ids |
| LocationMappings.MappingRows.CheckLocations | integrations/services.py:254-262 | The size comparisons find repeated, unknown and foreign locations, exactly |
| LocationMappings.MappingRows.ReplaceLocationMappings | integrations/services.py:245-305 | Validation first, then update, create and delete: the requested table, or the old one with the error |
| Sales.CountersAgree | transactions/services.py:22-81 | After any sequence of sales and opt-outs each customer's total, first and last seen are the count, minimum and maximum over the customer's Transactions, null exactly when there are none |
| Sales.CountersFollowTheTable | transactions/services.py:69-79 | Histories that end with the same Transactions end with the same counters, in whatever order the sales came |
| Sales.DuplicateIsNoOp | transactions/services.py:63-67 | Delivering a recorded sale again, after anything in between, adds no Transaction and moves no counter |
| Sales.SaleIsStoredAsItIs | transactions/services.py:22-81 | An accepted sale is stored at (location, external id) with its own amount, currency, payment, time, phone and integration, unless the key is taken; exactly when and why one is refused, and then nothing changes |
| Sales.CustomerIsStoredAsItIs | customers/services.py:11-23 | The customer it creates, and which counters it moves, column by column |
| Sales.OptOutMeans | customers/services.py:39-57 | An opt-out flags an existing customer once, with its time, and touches no other |
| Sales.RowsAreNeverRewritten | customers/services.py:11-23 | No Transaction is rewritten, a name is set only on create, no count falls, and an opt-out keeps its first time |
| Sales.OptOutCommutesWithSale | customers/services.py:39-57 | A sale and an opt-out commute, except if and only if that sale creates the customer |
| Sales.Ledger.RecordSaleAtomically | transactions/services.py:22-81 | The three writes in place, with the rollback on any error, equal the specification that Sales.SaleIsStoredAsItIs and CustomerIsStoredAsItIs describe |
| EventPipeline.SalesAreExactlyOnce | events/services.py:131-189 | In every run a PROCESSED event's Transaction exists at its location, each Transaction was inserted for exactly one PROCESSED event of its own integration, and customers' counters agree with the table |
| EventPipeline.ProcessedMeansRecorded | events/services.py:131-189 | An event becomes PROCESSED only on a connected integration, at the location its mappings resolve, with the row already there or one inserted with the sale's own amount, currency, payment, time, phone and integration, and nothing else sold |
| EventPipeline.AttemptFailsExactly | events/services.py:192-200 | Exactly when an attempt fails, with which stored code, and the status and count it leaves |
| EventPipeline.SafeErrorMeans | events/services.py:110-123 | The code stored for each kind of failure; anything outside the fixed table becomes its default |
| EventPipeline.DueExactly | events/services.py:223-245 | A FAILED event is due 5 * 2^(attempts-1) minutes after its last write, a RECEIVED one ten minutes after it came |
| EventPipeline.SweepAndAttemptAgree | events/services.py:223-245 | A FAILED row the sweep returns is attempted by the retry it enqueues, and one not yet due is skipped |
| EventPipeline.AttemptsMakeProgress | events/services.py:192-200 | An attempt that is made ends in a terminal status or uses one of the five |
| EventPipeline.DeliveryMeans | events/services.py:48-83 | A delivery stores one fresh RECEIVED event, or is refused, or finds it there |
| EventPipeline.DisconnectCancelsExactly | integrations/services.py:131-172 | A disconnect cancels exactly that integration's RECEIVED and FAILED events |
| EventPipeline.AttemptsFollowStatus | events/services.py:192-200 | RECEIVED has no attempts, FAILED one to four, DEAD_LETTER exactly five; stored codes come from the fixed table; no event is attempted more than five times |
| EventPipeline.RetriesAreSpaced | events/services.py:126-128 | Attempt k + 1 begins at least 5 * (2^k - 1) minutes after the first |
| EventPipeline.TerminalIsAbsorbing | events/services.py:149-154 | PROCESSED, DEAD_LETTER and CANCELLED rows never change again |
| EventPipeline.FailedAttemptLeavesSales | events/services.py:165-172 | An attempt that does not end PROCESSED leaves sales, customers and counters as they were |
| EventPipeline.DuplicateDeliveryIsNoOp | events/services.py:48-83 | Redelivering a recorded event, whatever became of it, changes nothing |
| EventPipeline.NoSaleAfterDisconnect | integrations/services.py:131-172 | Once an integration is DISCONNECTED no delivery, retry or sweep adds a sale to it |
| EventPipeline.Inbox.ProcessEvent | events/services.py:131-189 | One attempt on the event and the ledger equals the specification, skips, race guard and rollback included |
| EventPipeline.Inbox.DueEventIds | events/services.py:223-245 | Returns exactly the due candidates, each once |
| Senders.MappedNumbersAreActive | whatsapp/services.py:182-242 | In every interleaving every mapping to an own number points to an ACTIVE account of the location's own merchant |
| Senders.OwnNumberAlwaysSends | whatsapp/services.py:161-170 | A mapped location has a sender unless the shared number itself is switched off |
| Senders.SenderExactly | whatsapp/services.py:161-170 | A location sends from the account it is mapped to, exactly while that is ACTIVE |
| Senders.DisconnectIsNeverUndone | whatsapp/services.py:343-415 | A suspended own number stays suspended, and without its token, whatever activation was in flight |
| Senders.OwnNumberMovesExactly | whatsapp/services.py:343-415 | The only moves of an own number in any interleaving: an answered activation of a PENDING one makes it ACTIVE, keeping a first connection time, or SUSPENDED with its token; a disconnect SUSPENDED without it, while no location uses it |
| Senders.ActivationStartsExactly | whatsapp/services.py:343-368 | The provider is called exactly for an own number that is PENDING and has its token |
| Senders.MappingMovesExactly | whatsapp/services.py:182-258 | A mapping changes only by a committed set, to an account that may serve the location and is ACTIVE if an own number, or by a clear |
| Senders.SetExactly | whatsapp/services.py:204-242 | When a set is accepted, what it stores and answers, and which error otherwise |
| Senders.DisconnectExactly | whatsapp/services.py:387-415 | The four answers of a disconnect and the row each leaves |
| Senders.ClearExactly | whatsapp/services.py:245-258 | A clear removes that location's mapping and no other |
| Senders.NoDeadlock | whatsapp/services.py:182-201 | Account before mapping: while any operation is open, some open operation need not wait |
| Senders.NextKeeps | whatsapp/services.py:182-258 | Every statement of every thread keeps the lock invariant |
| Senders.AloneSetIsSequential | whatsapp/services.py:204-242 | Run without others, the statements of a set commit the sequential operation |
| Senders.AloneCutIsSequential | whatsapp/services.py:387-415 | The same for a disconnect |
| Senders.AloneClearIsSequential | whatsapp/services.py:245-258 | The same for a clear |
| Senders.AloneActivationIsSequential | whatsapp/services.py:343-384 | The same for an activation |
| OptOutFanOut.ChainLosesNobody | whatsapp/tasks.py:142-231 | However lookups, merchants, workers and acknowledgements fail, every target is settled, or still asked for by a live message, or named by a report; and at most six runs complete, plus six for each acknowledgement lost after a run |
| OptOutFanOut.StopOptsOutExactly | whatsapp/services.py:659-731 | Every customer row after any chain: those the STOP does not reach, or already opted out, are unchanged; each one it reaches is opted out at the time of a run that got past its lookup and did not fail at that merchant, unless a live message or a report still names its merchant |
| OptOutFanOut.RetriesExactlyTheFailed | whatsapp/tasks.py:183-231 | A failed lookup asks for everyone again; any other run for exactly the wanted merchants that failed; after five retries those are reported |
| OptOutFanOut.HandlingMeans | whatsapp/services.py:659-731 | Handling a merchant opts out its row of the phone - on the shared number only with a location mapped to it - and nothing else |
| OptOutFanOut.ChainEnds | whatsapp/tasks.py:142-168 | After that many completed runs no message is live |
| OptOutFanOut.ChainOnlyOptsOut | whatsapp/services.py:659-705 | A whole chain changes nothing but the phone's rows at concerned merchants, and a row already opted out keeps its first time |
| OptOutFanOut.HandlingAgainChangesNothing | whatsapp/services.py:659-674 | Handling a merchant changes nothing if and only if it is settled |
| OptOutFanOut.RedeliveryChangesNothing | whatsapp/tasks.py:183-231 | A redelivered run over settled merchants, repeats included, leaves every row |
| OptOutFanOut.LogNamesEveryFailure | whatsapp/tasks.py:149-157 | A report's log names every merchant that failed if and only if there are at most twenty |
| OptOutFanOut.LogIsEnoughExactly | whatsapp/tasks.py:149-157 | In every run each report's log names all its failures, if and only if the STOP has at most twenty targets |
| OptOutFanOut.TwentyOneAreTooMany | whatsapp/tasks.py:149-157 | Six failing runs over twenty-one merchants end with a log that leaves one out |
| OptOutFanOut.FanOutTask.FanOutInboundOptOut | whatsapp/tasks.py:183-231 | The loop equals its specification, of which OptOutFanOut.RetriesExactlyTheFailed and HandlingMeans say what a run leaves |

## Left out

- Subscription attributes are one record value `row` in the class, so aliasing between a stale and a fresh ORM object is not modelled; a row is always the one just locked and read.
- Instants are whole seconds; sub-second parts and time zones are not modelled.
- Plans are immutable values with an id, price, quota and provider plan id; editing a plan while it is in use is not modelled.
- Checkout assumes the requested plan is offered and the provider keys are set: `_offered_plan` and `_require_configured` are guards before any of the modelled state.
- The PaymentAttempt ledger (`_record_payment`), audit metadata, logging and `updated_at` columns that nothing reads.
- A first checkout that races another first checkout for the same merchant (`_first_checkout`): runs start with the row the winner stored.
- Provider clients, HTTP, JSON parsing and signatures: their answers are inputs. `fetch_invoices` is unimplemented in the repository, so the invoice list is an input.
- `core/tenancy.py`, `core/rls.py` and PostgreSQL policies: one merchant's context is fixed, with the merchant comparisons the services make themselves.
- Locks PostgreSQL takes for foreign keys: leaving them out only adds interleavings.
- `maintenance_due`, entitlement and overview reads, views, serializers, admin and settings: they decide nothing modelled here.
- Google's token expiry margins, the available-locations list and review listing; a refresh or revocation is modelled as its conditional write.
- WhatsApp templates, quality alerts, the unfinished signup completion, and the webhook that publishes the fan-out; a new own number appears as a PENDING row with a token.
- CSV import, Shopify and webhook receivers: each ends in a delivery, which is a step of the event pipeline.
- Regular expressions and `str.strip` in SaleCreated are Boolean inputs; NaN and infinite amounts are excluded.
- The STOP fan-out is proved for a fixed set of targets: no sale creates a customer while its chain runs. A broker that refuses the publish of a retry is not a step of the model.
- `accounts` and `apikeys`: each of their rules is one guard under one lock.
