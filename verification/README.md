# Subscriptions, money and credit scoring of the payments backend

A model of five parts of the backend, and proofs of what they keep.

**Subscriptions.** One row per brand, an append-only history, the plan store of `backend-roles` and
the subscriptions of ConfioPagos, moved by webhooks, confirmations, six crons, the owner, checkout
and the administrator. `Lifecycle` takes each handler as one atomic step over any answers of the
store, the provider and the database. `Interleaving` cuts the same handlers where others come in
(read, plan, call the store, lock, write, commit, compare-and-set, log, throw, catch, reread, repair) and
interleaves any number of workers, crashing anywhere. `Refinement` shows that a worker nobody
interrupts does what the atomic handler does; `ClosingOrder` gives the exact condition under which
an interleaved closing leaves no plan behind. `Notifications` and `Actors` say what each handler
leaves, field by field, from outside the functions that compute it. `SubscriptionRecord` is the imperative form: the
handlers assigning a row field by field, and the two closing crons as loops among other writers.

**Time.** Month advance over the civil calendar of section 21.4.1 of ECMA-262, and the age-banded
sweep of unconfirmed rows.

**Wallets.** A double-entry ledger in integer cents and the locks its transactions take. `WalletRuns`
adds the status calls that read and save without a lock; `WalletRenewals` puts the ledger beside the
subscription it pays for, with every call between price and event able to fail.

**Tax.** The forward tax of checkout and the backward extraction of completion.

**Scoring.** The policy validator, the table-driven engine and the simulator it has to agree with, the
resumable mass run, and the buyer normaliser of ConfioPagos.

## Assumptions

- Storage: `repo.save(row)` overwrites the whole row from the copy that was read; `repo.update`
  with a predicate is one compare-and-set; `pessimistic_write` holds the row until the transaction
  ends and other writes of that row wait for it, while plain reads see committed rows; a
  transaction publishes all it wrote or nothing. One store, no replica lag. A save that rejects has
  written nothing, except where a theorem says that an answer was lost.
- The plan store maps brand and plan to an expiry. A call is accepted, refused, or lands and loses
  its answer; the client sees only yes or no.
- One handler reads the clock once, even where the code asks for `new Date()` twice.
- Local time is a fixed offset from UTC, so `setDate` advances by whole days; dates are unbounded.
- `updatedAt`, prices, provider answers, and which call fails are inputs. `BILLING_PERIOD_DAYS` is
  any integer; `LifecycleTheorems.RefusalLeavesNoTrace` alone takes it as not negative.
- Rows that exist at the start satisfy the row invariant. The generic `SubscriptionService.create`
  could insert a terminal row with the column default of `autoRenew`, which would not.
- Tier bounds are integers; weights, scores, edges and rates are exact reals; amounts are cents.
- The brand list of a scoring run is stable and without repeats, and an execution reads what
  earlier ones wrote.

## Where the code differs from what it says of itself

- The entity says only the start of a trial writes `trialStart`; the code seals it when ConfioPagos
  confirms the trial. The model follows the code.
- A failing channel is documented never to become a fact about the subscription. The renewal cron
  turns a refused movement of access into a failed payment, and checkout and the renewals paid by a
  wallet save the row first and drop the store's answer (`LifecycleTheorems.RefusalWritesInstead`).
- A grant repeated after arrears with the same period end pushes the plan and leaves the row in
  arrears (`LifecycleTheorems.RepeatedGrantLeavesArrears`).
- `expireSubscriptions` degrades before its compare-and-set like the pass over lapsed cancellations,
  and has no repair (`RepairTheorems.RepairsExactlyEntitled`, `Refinement.ArrearsPassHasNoRepair`).
- Interleaved, a closing can leave the plan of the row it closes
  (`ClosingOrder.ClosedRowKeepsPlanIff`, with `Refinement.PendingCloseKeepsGrantedPlan` and
  `ClosingOrder.PurchaseCanLose` as two ways there).
- A link goes out again when every save after it is lost, and overlapping passes can issue the same
  link (`Dunning.LostSavesAreUnbounded`, `Dunning.OverlapIsBoundedIff`).
- `freeze`, `unfreeze` and `close` save without a lock: a frozen wallet can lose money, a closed one
  can reopen (`WalletRuns.FrozenNeverDecreasesIff`, `WalletRuns.ClosedIsAbsorbingIff`), and the daily
  reconciliation looks at active wallets only (`WalletRuns.LostMovementIsSeenIff`).
- The validator sorts the tiers and the engine does not (`ScoreTheorems.EngineAgreesIffStoredInOrder`),
  and it does not look at the sign of a weight (`ScoreTheorems.InRangeIff`).
- `renewFromWallet` ignores the error that `debit` returns without throwing, and takes a price it
  could not read for 0: both renew for nothing (`WalletRenewals.RenewedForNothingIff`).
- A renewal that fails after its debit leaves the brand paid and in arrears, with its retries counted
  from the start, so it can pay again without end (`WalletRenewals.PaidIntoArrearsIff`,
  `WalletRenewals.PaidAgainAndAgain`).
- The sweep asks about a row at most 87 times; counting each tier by itself would give 89.

## Model

| member | source | states |
|---|---|---|
| Subscriptions.DowngradeToFree | src/client/plan-downgrade.util.ts:63-93 | A successful downgrade leaves the brand without the paid plan and with `free` that never expires; a brand already on `free` is not touched; no other brand or plan moves, whatever the two calls answer |
| Subscriptions.Push | src/webhook/confio-subscription-webhook.service.ts:510-529 | The one movement an effect asks for: when it is accepted the store holds exactly the promised expiry, or lost the plan, or holds only `free` |
| ConfioWebhook.LocalPeriod | src/webhook/confio-period.util.ts:64-73 | The local cycle starts at the end of the period still running, or now: never in the past, and no day already paid is lost |
| ConfioWebhook.TrialPeriod | src/webhook/confio-period.util.ts:90-95 | A trial promised by the row is used only while it has not ended, and ends when it was promised to |
| ConfioWebhook.ProviderPeriod | src/webhook/confio-subscription-webhook.service.ts:544-592 | A period read from the provider is used only when complete and not ended |
| ConfioWebhook.PlanGrant | src/webhook/confio-subscription-webhook.service.ts:732-832 | A grant that moves access always carries the period it promises |
| ConfioWebhook.ApplyEffect | src/webhook/confio-subscription-webhook.service.ts:964-979 | An effect applied to the locked row keeps the row invariant and never touches the date on which access ends |
| Notifications.FailedChargeCutsAccess | src/webhook/confio-subscription-webhook.service.ts:373-418 | The first failed charge leaves arrears and the plan withdrawn, nothing else moved; a row given up hears nothing of it |
| Notifications.SuccessfulChargeExtends | src/webhook/confio-subscription-webhook.service.ts:420-468 | A successful charge without a period of the provider pays one civil month from the end of the period still running, or from now; row, history and store say so, and a row given up gets no plan |
| Notifications.SuccessfulChargeTakesProviderPeriod | src/webhook/confio-subscription-webhook.service.ts:544-592 | A complete period of the provider that has not ended is taken as it is |
| Notifications.UnusablePeriodIsNoAnswer | src/webhook/confio-subscription-webhook.service.ts:544-592 | One that misses a date, has ended or cannot be asked for counts as no answer, for every notification |
| Notifications.ConfirmationGrantsProviderPeriod | src/webhook/confio-subscription-webhook.service.ts:761-831 | A confirmation gives the brand its plan for exactly the period accepted, seals the dates of a first trial, and does nothing if it was already applied |
| Notifications.ActiveGrantsLocalPeriod | src/webhook/confio-subscription-webhook.service.ts:761-831 | A cycle confirmed without a period is a civil month, as a charge pays for |
| Notifications.TrialKeepsItsPromise | src/webhook/confio-subscription-webhook.service.ts:761-785 | A trial confirmed without a period lasts until the end the row promised; if there is none ahead nothing is granted and the row stays where it was |
| Notifications.LateConfirmationBuysNothing | src/webhook/confio-subscription-webhook.service.ts:742-759 | A confirmation of a row given up moves its status and buys nothing |
| Notifications.ArrearsWithdrawThePlan | src/webhook/confio-subscription-webhook.service.ts:677-701 | Arrears withdraw the plan and nothing more |
| Notifications.EndLeavesFree | src/webhook/confio-subscription-webhook.service.ts:636-701 | The end of a subscription leaves the brand on `free` and the row closed, not renewing, and sealed if it was cancelled; a row closed or still in access its owner cancelled hears nothing |
| Notifications.OtherReportsAreSilent | src/webhook/confio-subscription-webhook.service.ts:601-625 | No other status, and no notification heard before, does anything |
| Notifications.AskingIsHearing | src/webhook/confio-subscription-webhook.service.ts:852-920 | Asking ConfioPagos leaves exactly what its notification of that status would, under a mark of its own, and nothing where that would grant nothing |
| Notifications.AskingThrowsIff | src/webhook/confio-subscription-webhook.service.ts:899-918 | Asking fails if and only if what it heard would move the plan and the store does not accept |
| Notifications.AskingClosesPending | src/webhook/confio-subscription-webhook.service.ts:868-898 | Asking closes a pending row found dead, calls no store for it, and changes nothing on any other status |
| Notifications.TrialGrantSealsIt | src/webhook/confio-subscription-webhook.service.ts:797-831 | Whichever step records the grant of a trial, the row ends with its dates: those of the period just granted if it had none, else the ones it had |
| Notifications.OneTrialFromItsConfirmation | src/subscription/subscription.service.ts:258-285 | So from the confirmation of a trial on, whatever happens, every other start of one is refused |
| LifecycleTheorems.TerminalFollowsDowngrade | src/webhook/confio-subscription-webhook.service.ts:333-337 | Whatever the handler, taken whole, a live row of a brand with a paid plan is closed only when that plan is gone from the store and `free` is there |
| LifecycleTheorems.ClosingEffectDowngrades | src/webhook/confio-subscription-webhook.service.ts:688-701 | An effect that closes is planned only on an open row: a notification asks for the downgrade of that very brand and plan, if the row names them; asking closes only a row that awaits acceptance, and moves nothing |
| LifecycleTheorems.GrantPromisesItsPeriod | src/webhook/confio-subscription-webhook.service.ts:417-455 | Every planned grant promises the store the same period end it will write, and that end is after the instant it was planned |
| LifecycleTheorems.GrantAgrees | src/webhook/confio-subscription-webhook.service.ts:761-831 | After any delivery, confirmation or renewal that records a grant, store, row and history name one date, and it lies ahead |
| LifecycleTheorems.RefusalLeavesNoTrace | src/webhook/confio-subscription-webhook.service.ts:510-529 | Whatever call to the plan store fails, row and history stay as they were if and only if the step asks first: a delivery, a confirmation, the closing of a lapsed cancellation, the end of an unpaid trial, or the expiry of arrears of a row already not renewing |
| LifecycleTheorems.RefusalWritesInstead | src/tasks/tasks.service.ts:1225-1240 | What the others write all the same: checkout an active row, a wallet renewal the renewed row, a renewal that asks ConfioPagos a failed payment, the expiry of arrears the end of the charge |
| LifecycleTheorems.ConfirmationAppliesIffUnmarked | src/webhook/confio-subscription-webhook.service.ts:907-919 | A confirmation that pushes its grant writes the row if and only if the same name, status and period end were never written before; otherwise only the store moves |
| LifecycleTheorems.RepeatedGrantLeavesArrears | src/webhook/confio-subscription-webhook.service.ts:907-919 | Granted, fallen into arrears and granted again until the same date, a brand has its plan back and its row still in arrears |
| LifecycleTheorems.QuietStepKeepsAccess | src/webhook/confio-subscription-webhook.service.ts:185-189 | With a cancellation pending, a notification or confirmation that does not report arrears moves no plan and no date |
| LifecycleTheorems.PendingCancellationKeepsAccess | src/webhook/confio-subscription-webhook.service.ts:636-668 | Nor does any sequence of them, in any order, with any provider and store answers |
| LifecycleTheorems.EchoesHaveNoEffect | src/webhook/confio-subscription-webhook.service.ts:396-403 | In that window CANCELED, EXPIRED and failed charges change nothing anywhere; asking changes nothing unless the row still awaits acceptance |
| LifecycleTheorems.OnlyArrearsCutAccess | src/webhook/confio-subscription-webhook.service.ts:601-702 | With the store answering, a fresh notification in the window takes the plan away if and only if it reports PAST_DUE or SUSPENDED |
| LifecycleTheorems.SuccessRegisters | src/subscription/subscription.service.ts:1179-1251 | A successful cancel leaves a sealed row that does not renew, dated if it was live, and a trace |
| LifecycleTheorems.RegisteredIsFixed | src/subscription/subscription.service.ts:1149-1206 | No further calls, successful or failing, change a registered cancellation |
| LifecycleTheorems.CancelIsIdempotent | src/subscription/subscription.service.ts:1044-1269 | After the first successful cancel, any calls with any reasons and any failures leave row and history as the first did |
| LifecycleTheorems.FailedCancelWritesNothing | src/subscription/subscription.service.ts:1135-1252 | A failed cancel writes nothing here, and one the provider rejects changes nothing anywhere |
| LifecycleTheorems.ConfirmedOnlyIfCanceled | src/subscription/subscription.service.ts:1212-1245 | Over any run of all actors and failures, a trace that says ConfioPagos confirmed names a subscription cancelled there |
| LifecycleTheorems.StepAppendsAtMostOne | src/subscription/subscription.service.ts:1208-1250 | The history is append-only: every handler adds one entry at most |
| LifecycleTheorems.OneTrialPerBrand | src/subscription/subscription.service.ts:258-285 | A brand whose trial has started keeps its start through any run, and every later start of a trial is refused |
| LifecycleTheorems.ReactivateUndoesCancel | src/subscription/subscription.service.ts:1361-1368 | Reactivating gives back the whole row a cancel found if and only if that row was renewing and carried no cancellation |
| LifecycleTheorems.LapsedRowsHaveOneOwner | src/tasks/tasks.service.ts:699-724 | A live row given up and past its date is due in exactly one of the two hourly closing passes |
| LifecycleTheorems.FirstCancelDatesAccess | src/subscription/subscription.service.ts:1171-1206 | The first cancel of a live row gives it up, dates it to the end of what was paid for, and changes nothing else |
| LifecycleTheorems.AccessLastsUntilItsEnd | src/tasks/tasks.service.ts:700-760 | From cancel to closing: the plan stays until the end of what was paid for, and the first pass after it leaves the brand on `free`, if and only if it is after |
| LifecycleTheorems.PaidAccessIsKept | src/tasks/tasks.service.ts:700-760 | After a first cancel, any number of closing passes up to the end of the trial, or else of the period, leave row and plan alone, and the first one after it leaves the brand on `free` |
| Actors.TrialStartsIff | src/subscription/subscription.service.ts:164-480 | A trial starts if and only if the plan is paid and the brand has no live row, had no trial, and is not waiting for acceptance unless its phone changed; what it leaves grants nothing and dates nothing |
| Actors.PaidStartsIff | src/subscription/subscription.service.ts:561-800 | A paid subscription asks only for a paid plan and no live row |
| Actors.CancelSucceedsIff | src/subscription/subscription.service.ts:1044-1180 | A cancel succeeds if and only if its texts fit, there is a row, ConfioPagos confirmed where it must be asked, and the row was stored |
| Actors.CancelLeaves | src/subscription/subscription.service.ts:1179-1251 | It keeps the first seal, date and traced reason, dates a live row to the end of its trial or else of its period, and traces once |
| Actors.TrialConversionRoutes | src/tasks/tasks.service.ts:245-306 | An ended, renewing trial is renewed from its wallet, ended on `free` for want of one, or sent a link unless its first one is out |
| Actors.RenewalRoutes | src/tasks/tasks.service.ts:416-463 | A live row past its billing date is renewed from its wallet, asked about if it recurs at ConfioPagos, or sent a link if it is an active row of the old model; no other row is taken |
| Actors.RetryRoutes | src/tasks/tasks.service.ts:470-512 | A retry waits a day more than the retries before it, stops at the limit, and sends links for ConfioPagos only |
| Actors.ArrearsEnd | src/tasks/tasks.service.ts:574-640 | Arrears without retries left end the subscription, or at least its charging if the store refuses |
| Actors.CancellationsEnd | src/tasks/tasks.service.ts:681-787 | A cancellation strictly past its date is closed, its brand on `free`, unless its retries are spent |
| Actors.PurchaseLeaves | src/checkout/checkout.service.ts:934-1017 | A purchase opens a row or takes the one there from scratch, with row, history and store saying one date |
| LifecycleTheorems.PurchaseAgrees | src/checkout/checkout.service.ts:1126-1130 | A purchase leaves a row renewing from scratch, and the store with the same date as the row |
| LifecycleTheorems.ExtensionMovesBothEnds | src/admin/admin.controller.ts:196-216 | An extension keeps the distance between period and pending end of access, and changes the status of arrears and expired rows only |
| Dunning.LinksSpendBudget | src/tasks/tasks.service.ts:187-242 | Whichever cron issues it, a payment link is paid from a budget of one to fall into arrears and one for each retry left, unless the row forgets it |
| Dunning.LinksAreBounded | src/tasks/tasks.service.ts:429-498 | Between two reactivations a row with k retries receives at most 1 + max(0, MAX_RETRY - k) links, and one more for each it forgot |
| Dunning.ForgottenIffSavesLost | src/tasks/tasks.service.ts:187-242 | A row forgets a link if and only if the link went out and every save after it was lost, the one in the catch included |
| Dunning.LostSavesAreUnbounded | src/tasks/tasks.service.ts:187-242 | While every save is lost there is no bound: each pass issues the link again |
| Dunning.BoundIsTight | src/tasks/tasks.service.ts:294-302 | The bound is reached: a chargeable active row has a run that spends the whole budget |
| Dunning.OverlapConserves | src/tasks/tasks.service.ts:429-498 | When passes overlap on a row, links and remaining budget together grow by exactly the budget that stale copies spend twice |
| Dunning.OverlapIsBoundedIff | src/tasks/tasks.service.ts:429-498 | Of a row that is ever charged, no schedule of passes issues more links than its budget if and only if no two passes hold the row at once |
| Dunning.FreshPassesAreBounded | src/tasks/tasks.service.ts:470-498 | Passes that charge the row as they read it never exceed it |
| Dunning.SpendThenOverlapExceeds | src/tasks/tasks.service.ts:470-498 | Whatever the row, passes one at a time down to the last link and then two at once issue one link too many |
| InterleavingTheorems.RowInvariantHolds | src/subscription/entities/subscription.entity.ts:150-170 | In every interleaving, stale whole-row saves included: terminal rows do not renew, a row with a date of end of access is sealed, a sealed row does not renew |
| InterleavingTheorems.ChargesOnlyRenewingRows | src/tasks/tasks.service.ts:251-264 | So no charging query ever selects a row that is terminal, pending or given up by its owner |
| InterleavingTheorems.ExactlyOnce | src/webhook/confio-subscription-webhook.service.ts:932-999 | Deliveries, redeliveries and confirmations in any interleaving leave at most one history entry for a row and mark |
| InterleavingTheorems.MarkedOnceForGood | src/webhook/confio-subscription-webhook.service.ts:946-954 | A mark once written stays where it is, and no later redelivery or confirmation ever leaves another entry for it |
| InterleavingTheorems.HistoryOnlyGrows | src/webhook/confio-subscription-webhook.service.ts:981-998 | Whoever writes, the history is append-only |
| InterleavingTheorems.LockedApplyIsAtomic | src/webhook/confio-subscription-webhook.service.ts:932-999 | What is published is the patch of the row it replaces, and the mark is still new, whatever the others do between |
| InterleavingTheorems.OthersWait | src/webhook/confio-subscription-webhook.service.ts:938-943 | Steps of other workers never move the job of a worker or what it holds under its lock |
| InterleavingTheorems.StepIsLocal | src/webhook/confio-subscription-webhook.service.ts:925-943 | A worker reaches no row another holds, and appends a mark only for a row it holds itself |
| ClosingTheorems.ClosesExactlyWhatLapsed | src/tasks/tasks.service.ts:699-760 | After any steps in the window, a closing pass closes the row if and only if it is the cancellation that was read; that is what its query would find again in the same status, or a row whose retries ran out meanwhile |
| ClosingTheorems.ClosingsAreReal | src/tasks/tasks.service.ts:613-620 | Only a compare-and-set closes, it closes a row that was open, and that row |
| ClosingTheorems.OneEventPerClosing | src/tasks/tasks.service.ts:613-631 | With passes of all kinds overlapping and crashing, no closing is told twice and every unmarked closing event is of a closing of that row |
| RepairTheorems.RepairsExactlyEntitled | src/tasks/tasks.service.ts:1124-1140 | Whatever lands before the compare-and-set and before the reread, a degraded pass goes on to repair if and only if it is that of lapsed cancellations, its close missed, and the reread row is entitled |
| RepairTheorems.AbortedCloseIsRepaired | src/tasks/tasks.service.ts:1124-1149 | Whatever lands before the reread and before the call, an entitled row ends with its own plan until its own period end when the store accepts; for any other row the pass leaves the store alone |
| RepairTheorems.PassAssignsOnlyEntitledPlans | src/tasks/tasks.service.ts:1130-1143 | In any interleaving the only paid plan a closing pass assigns is that of a row just read as entitled |
| Refinement.DeliveryAloneIsAtomic | src/webhook/confio-subscription-webhook.service.ts:304-338 | A worker nobody interrupts does exactly what the atomic delivery does |
| Refinement.SettlingIsAtomic | src/webhook/confio-subscription-webhook.service.ts:333-337 | Pushing, locking, computing and committing alone is the atomic settlement of any effect |
| Refinement.ConfirmationAloneIsAtomic | src/webhook/confio-subscription-webhook.service.ts:852-920 | A worker that asks, pushes and applies alone does exactly what the atomic confirmation does |
| Refinement.CancellationAloneIsAtomic | src/subscription/subscription.service.ts:1140-1252 | A confirmed cancellation written alone under the lock is the atomic one |
| Refinement.StartAloneIsAtomic | src/subscription/subscription.service.ts:326-480 | A created start written alone over a row that is not live is the atomic one |
| Refinement.ChargeAloneIsAtomic | src/tasks/tasks.service.ts:187-230 | A charge whose link goes out, alone on its row, is the atomic one |
| Refinement.SaveAloneIsAtomic | src/checkout/checkout.service.ts:934-1017 | Every whole-row save of a copy (a charge, a wallet renewal, a purchase, a reactivation, an extension, a change of plan), read, saved and told alone, is its atomic handler |
| Refinement.FailedRenewalAloneIsAtomic | src/tasks/tasks.service.ts:1023-1052 | A renewal out of the wallet that throws anywhere, and the catch that saves its copy again, alone on the row are the atomic ones |
| Refinement.PassAloneIsAtomic | src/tasks/tasks.service.ts:574-760 | A closing pass alone on a row degrades, closes and traces it, or leaves it for the next pass |
| Refinement.ArrearsPassAloneIsAtomic | src/tasks/tasks.service.ts:574-631 | The interleaved arrears pass refines its atomic handler |
| Refinement.LapsedPassAloneIsAtomic | src/tasks/tasks.service.ts:681-787 | The interleaved pass over lapsed cancellations refines its atomic handler |
| Refinement.TrialPassAloneIsAtomic | src/tasks/tasks.service.ts:1183-1219 | The interleaved end of a trial without payment refines its atomic handler |
| Refinement.ArrearsPassHasNoRepair | src/tasks/tasks.service.ts:613-620 | A payment landing inside an arrears pass can leave a live, paid row whose brand is on `free` |
| Refinement.PendingCloseKeepsGrantedPlan | src/webhook/confio-subscription-webhook.service.ts:868-890 | A close of a pending row that raced with its acceptance leaves a closed row whose brand keeps the plan |
| ClosingOrder.Origin | src/webhook/confio-subscription-webhook.service.ts:304-338 | In every run, a worker about to write an effect under the lock read a copy of that row, planned that effect on it and had its movement accepted, in that order |
| ClosingOrder.ClosingFollowsDowngrade | src/webhook/confio-subscription-webhook.service.ts:333-337 | So a worker about to close a row had the downgrade of the brand and plan of its copy accepted, unless the copy names none or it asked about a copy awaiting acceptance |
| ClosingOrder.StartsReplaceNoLiveRow | src/subscription/subscription.service.ts:326-480 | In every run, what a start is about to replace under the lock is the row as it is, and it is not live |
| ClosingOrder.StepMovesPlan | src/client/plan-downgrade.util.ts:63-93 | A plan enters or leaves the store only by these calls, each when it lands |
| ClosingOrder.PlanIsThereIff | src/client/client-roles.service.ts:310-331 | After any run a plan is in the store if and only if it was left assigned, or was there and never withdrawn |
| ClosingOrder.ClosedRowKeepsPlanIff | src/webhook/confio-subscription-webhook.service.ts:932-999 | After a worker closes a row, the plan the row names is gone if and only if no step since its push left it assigned, and the store did not hold it then or has lost it since; a downgrade pushed leaves its own plan out |
| ClosingOrder.PurchaseLosesToClosing | src/checkout/checkout.service.ts:952-972 | A purchase saved and assigned while a closing waits for the lock is closed, and its plan stays |
| ClosingOrder.PurchaseCanLose | src/checkout/checkout.service.ts:952-972 | And that is reached from the start, for every live row without a cancellation |
| SubscriptionRecord.RolesStore.DowngradeBrandToFree | src/client/plan-downgrade.util.ts:63-93 | The two calls in order, stopping at the first refusal, are the downgrade on values |
| SubscriptionRecord.RolesStore.Degrade | src/tasks/tasks.service.ts:1079-1091 | A row without brand or plan passes; any other goes through the downgrade |
| SubscriptionRecord.RolesStore.Move | src/webhook/confio-subscription-webhook.service.ts:510-529 | The three movements, each the one on values |
| SubscriptionRecord.Database.Apply | src/webhook/confio-subscription-webhook.service.ts:932-999 | Field by field on the locked row, once per mark, row and trace together |
| SubscriptionRecord.Database.Settle | src/webhook/confio-subscription-webhook.service.ts:333-337 | Nothing is written unless the store accepted |
| SubscriptionRecord.Database.RegisterCancellation | src/subscription/subscription.service.ts:1179-1251 | Seal once, date only live rows, keep the first reason, trace once |
| SubscriptionRecord.Database.Reactivate | src/subscription/subscription.service.ts:1305-1379 | Undoes a pending cancellation exactly when it is one and the provider is not ConfioPagos |
| SubscriptionRecord.Database.IssueExternalCharge | src/tasks/tasks.service.ts:187-242 | The row falls into arrears unless the save of the catch fails too, when it keeps what the first save left and the error escapes; an error after the link counts the retry twice in memory |
| SubscriptionRecord.Database.ChargeRow | src/tasks/tasks.service.ts:420-498 | The charge and the catch of its pass on one row are the atomic charge |
| SubscriptionRecord.Database.HandleRenewalFailure | src/tasks/tasks.service.ts:1245-1260 | One more retry, arrears, one trace |
| SubscriptionRecord.Database.RenewFromWallet | src/tasks/tasks.service.ts:1023-1052 | Price, debit, renewed row, plan store and event in their order, each able to fail: what was written when it threw, and the copy in memory |
| SubscriptionRecord.Database.RenewRow | src/tasks/tasks.service.ts:429-498 | With the catch of its cron: row, history, plan store and ledger end as the renewal on values puts them |
| SubscriptionRecord.Database.CreateOrRenew | src/checkout/checkout.service.ts:934-1017 | Checkout renews the row it finds, clearing the cancellation, or creates one |
| SubscriptionRecord.Database.ExtendByAdmin | src/admin/admin.controller.ts:186-216 | Period and pending end of access move together; arrears and expired rows come back |
| SubscriptionRecord.Database.ExpireSubscriptions | src/tasks/tasks.service.ts:574-655 | The loop is its rounds in order, whatever others do to rows, history and store while it waits for the store |
| SubscriptionRecord.Database.ExpireCancelledSubscriptions | src/tasks/tasks.service.ts:681-812 | The loop is its rounds in order, repair included, whatever others do while it waits for the store, after a miss and after the reread |
| SubscriptionRecord.Database.RestorePlan | src/tasks/tasks.service.ts:1124-1149 | Reread, and only an entitled row gets its plan back until its own period end |
| SubscriptionRecord.RoundDecides | src/tasks/tasks.service.ts:583-631 | Whatever others write, a round closes and counts its row if and only if it was still due at the compare-and-set, with one event; and a row missed and entitled gets its own plan until its own period end |
| SubscriptionRecord.ClosedRowsAreTold | src/tasks/tasks.service.ts:574-812 | So, whatever others do to rows and plans, either pass reports exactly as many rows closed as the history gains closings |
| SubscriptionRecord.QuietPassIsAtomic | src/tasks/tasks.service.ts:574-812 | With nobody else writing, either loop is the atomic handler row by row; closed and rejected together are the rows that were due, and each closing left one event |
| SubscriptionRecord.PassMovesRowsApart | src/tasks/tasks.service.ts:583-631 | Each row found ends where its own state and its own answers put it, and no other row moves |
| SubscriptionRecord.PassOrderIsIrrelevant | src/tasks/tasks.service.ts:699-711 | The rows a pass leaves do not depend on the order its query returned them in |
| SubscriptionRecord.CloseOneIsTheHandler | src/tasks/tasks.service.ts:574-812 | One round of either loop is the atomic handler on that brand |
| Calendar.CivilRoundTrip | src/webhook/confio-period.util.ts:26-33 | Reading a day built from year, month and date gives back all three |
| Calendar.DayRoundTrip | src/webhook/confio-period.util.ts:26-33 | Building a day from what was read of it gives back the day |
| Calendar.MonthsStartWhereTheyDo | src/webhook/confio-period.util.ts:26-33 | The months begin on the days `DayFromMonth` lists, one later from March in a leap year |
| Calendar.KnownDates | src/webhook/confio-period.util.ts:26-33 | Days around the epoch and the leap rules of 1900, 2000, 2024 and 2100 read as the dates they are |
| Calendar.KnownCycles | src/webhook/confio-period.util.ts:26-33 | 31 August ends its cycle on 30 September, 31 January on the last of February, leap or not, 31 December on 31 January |
| Calendar.OverflowLandsInMonthAfter | src/webhook/confio-period.util.ts:28-31 | A date the next month lacks overflows onto a smaller date of the month after, whose day 0 is the clamped one; any other date lands as it is |
| Calendar.AdvanceOneCycle | src/webhook/confio-period.util.ts:26-33 | Overflow then step back, by the two setters, is the clamped month advance, on a copy |
| Calendar.AddOneMonthIsCivil | src/webhook/confio-period.util.ts:26-33 | For every instant: next month, the date cut to its last day, the same time of day |
| Calendar.OneMonthApartIff | src/webhook/confio-period.util.ts:26-33 | That fixes the result: no other instant is one civil month later |
| Calendar.AddOneMonth | src/webhook/confio-period.util.ts:26-33 | A cycle lasts 28 to 31 days |
| Calendar.NextMonthDayIsMonotone | src/webhook/confio-period.util.ts:26-33 | A later calendar date never ends its cycle on an earlier one |
| Calendar.CyclesMeetIff | src/webhook/confio-period.util.ts:26-33 | Two days end their cycle on one day if and only if they lie in one month and the earlier is at or past the last date of the next |
| Calendar.InstantsCrossIff | src/webhook/confio-period.util.ts:26-33 | A later instant ends its cycle first if and only if both lie in one month on different days, the earlier at or past the last date of the next month, and the later at an earlier time of day |
| Calendar.InstantsMayCross | src/webhook/confio-period.util.ts:26-33 | Instants are not so ordered: 30 January at 00:20 and the next day at 00:01 |
| Ladder.BandsToSweep | src/tasks/tasks.service.ts:109-132 | The loop with its early exit builds the bands of the ladder |
| Ladder.BandsLieInWindow | src/tasks/tasks.service.ts:120-129 | Bands lie inside the window, younger first, and meet at most at an endpoint |
| Ladder.FallsBySlot | src/tasks/tasks.service.ts:113-124 | A tier falls due in exactly one five-minute slot out of every 1, 6 or 72, across midnight too |
| Ladder.SelectedByAge | src/tasks/tasks.service.ts:113-129 | A pass asks about a row if and only if its age lies in a tier whose cadence falls in the slot of the pass |
| Ladder.CoveredOncePerCadence | src/tasks/tasks.service.ts:89-96 | However late each pass is in its slot, a row is asked about in every slot of its first hour, in one of any 6 in a row of its first day, and in one of any 72 after that |
| Ladder.AskedAtMost87Times | src/tasks/tasks.service.ts:89-132 | With the eight-day window no row is asked about more than 13 + 46 + 28 times |
| Ladder.BoundIsReached | src/tasks/tasks.service.ts:89-132 | And a row issued on the stroke of a slot, under a punctual cron, is asked exactly that often |
| Wallets.WalletService.CreditWallet | src/wallet/wallet.service.ts:94-149 | The locked credit is the credit on values, refusals in their order |
| Wallets.WalletService.DebitWallet | src/wallet/wallet.service.ts:165-262 | The locked debit likewise, with the currency guard first |
| Wallets.WalletService.Transfer | src/wallet/wallet.service.ts:414-564 | Both rows read in lock order, the two entries written: the transfer on values |
| Wallets.WalletService.FreezeWallet | src/wallet/wallet.service.ts:337-356 | Freezing, refused only when closed |
| Wallets.WalletService.UnfreezeWallet | src/wallet/wallet.service.ts:361-380 | Unfreezing, only what is frozen |
| Wallets.WalletService.CloseWallet | src/wallet/wallet.service.ts:385-404 | Closing, only at balance 0 |
| Wallets.WalletService.Reconcile | src/tasks/tasks.service.ts:822-866 | One snapshot for each active wallet, with its balance, its ledger sum and whether they agree; none inconsistent if and only if all active wallets agree |
| Wallets.WalletService.SumCompleted | src/tasks/tasks.service.ts:831-838 | The query sums completed credits less debits, and counts them |
| Wallets.WalletService.CreateWallet | src/wallet/wallet.service.ts:66-89 | Ten wallets a brand, and one for each provider and currency |
| WalletTheorems.LedgerTheorem | src/wallet/wallet.service.ts:94-262 | From an empty book, over any operations taken whole: balances are ledger sums, each movement starts where the last of its wallet ended, and with positive amounts no balance is negative nor a closed one other than 0 |
| WalletTheorems.StepKeepsLedger | src/wallet/wallet.service.ts:414-544 | Every operation keeps the whole ledger, both halves of a transfer included |
| WalletTheorems.ChainSumsUp | src/tasks/tasks.service.ts:831-843 | The last balance of a chained ledger is credits less debits, so the reconciliation finds it consistent |
| WalletTheorems.CreditKeepsSolventIff | src/wallet/wallet.service.ts:121-126 | A credit, whose amount nobody checks, keeps the book solvent if and only if it is not below minus the balance |
| WalletTheorems.CreatedIff | src/wallet/wallet.service.ts:66-89 | A wallet is created, empty and active, if and only if its brand has fewer than ten and none of that provider and currency |
| WalletTheorems.RosterHolds | src/wallet/wallet.service.ts:66-89 | Over any operations no brand has an eleventh wallet, nor two of a kind |
| WalletTheorems.RunConserves | src/wallet/wallet.service.ts:494-544 | Over operations taken whole, a brand and currency hold what they held plus credits less debits; transfers and status changes move nothing |
| WalletTheorems.StaleSaveKeepsLedgerIff | src/wallet/wallet.service.ts:337-404 | A status saved over without a lock keeps the ledger if and only if the balance did not move since it was read; otherwise balance and ledger are apart by exactly the movement |
| WalletTheorems.DriftIsKept | src/wallet/wallet.service.ts:121-143 | No operation taken whole ever brings a balance and its ledger together again, nor further apart |
| WalletTheorems.FreezeCanLoseCredit | src/wallet/wallet.service.ts:337-356 | One credit landing inside a freeze is received and gone |
| WalletRuns.AloneIsAtomic | src/wallet/wallet.service.ts:337-404 | A status call saved as soon as it was read is the operation on values |
| WalletRuns.CopiesFit | src/wallet/wallet.service.ts:337-404 | In every run of transactions and unlocked status calls, a call under way holds a copy of its own wallet, and one that closes a copy at balance 0 |
| WalletRuns.DriftIsWhatSavesLose | src/wallet/wallet.service.ts:337-404 | Over any such run the ledger gets ahead of the balance by exactly the movements that saves undid |
| WalletRuns.UnlockedLedgerTheorem | src/wallet/wallet.service.ts:94-404 | From an empty book, with positive amounts, no balance is ever negative nor a closed one other than 0; and balance and ledger agree if and only if the movements undone add up to nothing |
| WalletRuns.FrozenNeverDecreasesIff | src/wallet/wallet.service.ts:208-214 | Until it is unfrozen, no act lowers the balance of a frozen wallet if and only if no other freeze or close puts back a smaller balance than it finds |
| WalletRuns.FrozenFallsIffLedgerBreaks | src/wallet/wallet.service.ts:337-356 | While no call holds more than the balance, that is if and only if its ledger stays right |
| WalletRuns.FreezingAgainLosesCredit | src/wallet/wallet.service.ts:337-356 | A second freeze that read before a credit takes the credit from a frozen wallet |
| WalletRuns.ClosedIsAbsorbingIff | src/wallet/wallet.service.ts:385-404 | A wallet closed at 0 stays as it is through any run if and only if no freeze or unfreeze that read it before saves it after |
| WalletRuns.LostMovementIsSeenIff | src/tasks/tasks.service.ts:822-843 | A movement undone by a save is seen right after if and only if the save left the wallet active, and later if and only if the wallet is active and other saves have not undone as much the other way; not before it is unfrozen, nor, once closed, before a call older than the closing reopens it |
| WalletRuns.ReopenedShowsItsLoss | src/wallet/wallet.service.ts:361-404 | An unfreeze older than the closing reopens a closed wallet, and the credit the closing lost is then seen |
| WalletLocks.NoWaitCycle | src/wallet/wallet.service.ts:443-454 | Whatever arrives and however it interleaves, no chain of lock waits closes on itself |
| WalletLocks.SomeTransactionCanStep | src/wallet/wallet.service.ts:94-180 | While a transaction is unfinished, some transaction can take its next step |
| WalletLocks.LocksHold | src/wallet/wallet.service.ts:100-104 | No two transactions ever hold one row, and each asks for its rows in increasing order |
| WalletLocks.LocksWhatItNames | src/wallet/wallet.service.ts:443-454 | A credit or a debit locks its wallet and a transfer both of its own, each once, unless it is refused before |
| WalletLocks.LocksCoverWrites | src/wallet/wallet.service.ts:94-544 | No such transaction changes a wallet it has not locked |
| WalletLocks.AloneTakesEveryLock | src/wallet/wallet.service.ts:443-454 | Alone, it takes all its locks one by one and only then ends; rolled back anywhere it holds nothing |
| WalletLocks.AdvanceMakesProgress | src/wallet/wallet.service.ts:443-454 | Every step brings all of them one step nearer their end |
| WalletLocks.AllCanFinish | src/wallet/wallet.service.ts:443-454 | From any reachable state, taking enabled steps ends every transaction in exactly as many steps as are left |
| WalletLocks.UnorderedTransfersDeadlock | src/wallet/wallet.service.ts:443-447 | Two transfers that each locked their own origin first would wait for ever |
| WalletRenewals.RenewedIff | src/tasks/tasks.service.ts:1023-1052 | A row ends renewed if and only if the debit did not throw, the renewed row was written, and nothing after failed or the catch lost its save too; a failed payment is counted if and only if something threw and the catch saved it |
| WalletRenewals.PaidIntoArrearsIff | src/tasks/tasks.service.ts:1225-1260 | Money is taken and a failed payment counted if and only if the debit committed and its answer, the save of the row or that of the event was lost |
| WalletRenewals.RenewedForNothingIff | src/wallet/wallet.service.ts:171-262 | A row is renewed with no money taken if and only if it is renewed and the price looked up was 0 or missing, or an error of a debit that had not gone through was returned |
| WalletRenewals.CronsRenewFromWallet | src/tasks/tasks.service.ts:251-498 | The three crons renew a due row the wallet pays in exactly that way |
| WalletRenewals.DebitsMatchRenewals | src/tasks/tasks.service.ts:1023-1052 | Over any run of the three crons, debits and renewals told differ by exactly the passes that took money and told of nothing, less those that told of a renewal and took none |
| WalletRenewals.PaidAgainAndAgain | src/tasks/tasks.service.ts:1225-1260 | While the save after the debit is lost, retries never run out, as the copy had its count reset: n passes debit n times and renew nothing |
| WalletRenewals.PaidTwice | src/tasks/tasks.service.ts:1023-1052 | A renewal that loses its save and the retry two days later debit twice and tell of one renewal |
| WalletRenewals.EmptyWalletRenews | src/wallet/wallet.service.ts:254-258 | Even an empty wallet renews a plan that costs something, if storage fails inside the debit |
| WalletRenewals.OutagePriceIff | src/client/client-roles.service.ts:88-94 | While backend-roles is down a plan is looked up at 0 if and only if nothing is cached, or the cache lacks it or has it at 0 |
| WalletRenewals.PriceServed | src/client/client-roles.service.ts:185-208 | Under five minutes old the cached price is served, older the one backend-roles answers, and if it does not answer the cached one again |
| WalletRenewals.OutageRenews | src/client/client-roles.service.ts:185-208 | And then a due row is renewed for nothing with storage holding |
| Tax.TaxRoundTrip | src/checkout/checkout.service.ts:434-440 | For every amount and configuration, extraction at completion finds the tax and the subtotal of checkout |
| Tax.SplitIsFaithfulIff | src/checkout/checkout.service.ts:196-201 | A total splits into a subtotal that charges it again if and only if the rounding of its tax, times 1 + r, is within half a cent; and that is when some checkout could have produced it |
| Tax.SomeTotalsAreNobodys | src/checkout/checkout.service.ts:196-201 | Some totals no checkout produces |
| Tax.TotalsGrow | src/checkout/checkout.service.ts:196-201 | A larger amount always costs more |
| Tax.OnlyAddedTaxIsCharged | src/checkout/checkout.service.ts:196-201 | A rate included in the amount, or none, adds nothing and takes nothing out; any other is charged to the nearest cent |
| ScaleConfigs.ValidateScaleConfig | src/credit/scale-config.service.ts:188-252 | Every error names a fault of the policy and every fault has its error, so none is returned if and only if weights sum to one, scales partition the line, the veto is an edge, the sorted tiers cover 0 to 100 and the capped tiers exist |
| ScaleConfigs.ValidateScale | src/credit/scale-config.service.ts:197-219 | The errors of a scale are exactly its faults; none if and only if edges rise, the last bracket is open and scores lie in 0 to 100 |
| ScaleConfigs.ValidateTiers | src/credit/scale-config.service.ts:227-242 | The errors of the tiers are exactly their faults; none if and only if they cover 0 to 100 with neither gaps nor overlaps |
| ScaleConfigs.SortTiersSorts | src/credit/scale-config.service.ts:227-227 | The sorted copy has the same tiers, in order of their minima |
| ScoreEngine.ComputeScore | src/credit/domain/score-engine.ts:23-86 | Every field is the one the tables give, and the tier is never above its score or its ceiling |
| ScoreEngine.LookupBracket | src/credit/domain/score-engine.ts:90-98 | The loop finds the first bracket whose exclusive edge is not reached |
| ScoreEngine.RoasCapIndex | src/credit/domain/score-engine.ts:105-113 | The loop finds the last tier the ROAS subscore enables |
| ScoreEngine.HighestReached | src/credit/domain/score-engine.ts:45-53 | Downwards, the last tier whose minimum is reached, the first by default |
| ScoreEngine.MaxCommission | src/credit/domain/score-engine.ts:128-130 | The largest commission of the table, none above it |
| ScoreTheorems.TotalIsInRange | src/credit/domain/score-engine.ts:28-36 | With weights that are not negative, a valid policy scores within 0 to 100 |
| ScoreTheorems.InRangeIff | src/credit/scale-config.service.ts:191-219 | A valid policy scores every input within 0 to 100 if and only if its least weighted scores sum to -0.5 or more and its greatest to less than 100.5 |
| ScoreTheorems.NegativeWeightEscapesRange | src/credit/scale-config.service.ts:191-195 | The validator accepts a negative weight, and one such policy scores 200 |
| ScoreTheorems.OneTierContains | src/credit/domain/score-engine.ts:45-53 | In order, exactly one tier contains each total, and the search finds it |
| ScoreTheorems.EngineAgreesIffStoredInOrder | src/credit/scale-config.service.ts:227-228 | The validator sorts a copy: on a valid policy the engine finds the tier of every total if and only if the tiers are stored in order |
| ScoreTheorems.UnvetoedTierContainsTotal | src/credit/domain/score-engine.ts:43-53 | Unvetoed, the tier by score is the one tier that contains the total |
| ScoreTheorems.VetoDependsOnBracket | src/credit/scale-config.service.ts:221-225 | Two ROAS values in one bracket are both vetoed or neither |
| ScoreTheorems.NextStepLandsInNextTier | src/credit/credit.service.ts:391-417 | A next step exists unless in the top tier; its points land on the first point of the very next tier, and no fewer do |
| ScoreTheorems.ScoringIsMonotone | src/credit/domain/score-engine.ts:23-60 | More investment, ROAS or sales never lower the total or the final tier |
| ScoreTheorems.FinalTierIsBestEnabled | src/credit/domain/score-engine.ts:55-60 | The ceiling only trims, and to the highest tier the ROAS subscore enables |
| ScoreTheorems.RequirementIsMetIff | src/credit/domain/score-engine.ts:105-126 | The final tier meets its ROAS requirement if and only if the first tier does |
| ScoreTheorems.RequirementIsAlwaysMet | src/credit/domain/score-engine.ts:115-126 | So it always does when the lowest tier carries no ceiling |
| ScoreTheorems.ShippedPolicyQualifies | src/credit/domain/scale-config.v1.ts:21-64 | The policy the system seeds meets every assumption made of one |
| SimulatorParity.ScoreLikeSimulator | src/credit/domain/score-engine.spec.ts:1-218 | With the shipped policy the engine is the simulator of its tests on every input and bureau band: subscores, points, level by points, then the level the ROAS allows, its money and its commission |
| CreditRuns.ScoreRun.ExecuteRun | src/credit/credit-run.service.ts:121-210 | An execution completes if and only if it lives long enough to score every brand still missing and save once a page and once at the end; else it has spent its life on pages and on the first missing brands, in order; a completed run is left alone and an invalid period fails at once |
| CreditRuns.ScoreRun.ScorePending | src/credit/credit-run.service.ts:163-196 | One page in order: snapshots, done brands and errors, as far as it lives |
| CreditRuns.ScoreRun.ComputeAndSave | src/credit/credit-run.service.ts:223-258 | Counters derived from the snapshots: processed is eligible plus vetoed plus insufficient |
| CreditRuns.ExecuteUntilCompleted | src/credit/credit-run.service.ts:143-208 | After any crashes, one snapshot a brand; some execution living long enough for all brands completes; then every brand whose score is always written has one, and processed plus errors is the total, unless the answer to a written snapshot was lost |
| CreditRuns.ExecutionKeepsRunOk | src/credit/credit-run.service.ts:148-153 | However far an execution gets, no brand is scored twice |
| CreditRuns.CountersAddUp | src/credit/credit-run.service.ts:202-207 | Processed plus errors is the total plus exactly the snapshots written and reported as errors |
| CreditRuns.CompletedBrandsAreNotDue | src/credit/credit-run.service.ts:148-163 | A brand already written is not due again |
| CreditRuns.PageIsFresh | src/credit/credit-run.service.ts:159-163 | What a page still has to score does not depend on how the earlier pages went |
| BuyerTheorems.EdgeAcceptsWhatWasBuilt | src/provider/confio/confio-buyer.ts:91-125 | The edge check accepts every buyer built, unchanged, in E.164 and with names of 3 to 64 characters |
| BuyerTheorems.EdgeIsIdempotent | src/provider/confio/confio-buyer.ts:117-125 | What the edge accepts once it accepts again unchanged |
| BuyerTheorems.NamePartsAreTidy | src/provider/confio/confio-buyer.ts:158-167 | Neither part of a split name has anything at its ends to trim |
| BuyerTheorems.FirstWordIsFirstName | src/provider/confio/confio-buyer.ts:158-167 | The first word of a name is the first name and the other words the last, whatever the white space around and after it |
| BuyerTheorems.OneWordIsBothNames | src/provider/confio/confio-buyer.ts:158-167 | A name of one word is both |
| BuyerTheorems.EmailGivesNames | src/provider/confio/confio-buyer.ts:228-233 | The two words before the `@` of an email, however separated and with any sub-address, are the names it gives; one word is both |
| BuyerTheorems.BuyerHasItsNames | src/provider/confio/confio-buyer.ts:91-100 | A buyer built from a profile with a usable first name has exactly it, its usable last name or the first again, the trimmed email and the phone in E.164; and a refusal names the email before the phone |
| BuyerTheorems.UnusableNameGivesWay | src/provider/confio/confio-buyer.ts:191-216 | A first name of the wrong length gives way, with the last one, to the names of the email |
| BuyerTheorems.JoinUndoesSplit | src/provider/confio/confio-buyer.ts:162-166 | Joining what was split gives back the name |
| BuyerTheorems.SeparatorsDoNotMatter | src/provider/confio/confio-buyer.ts:250-252 | A space, dot, dash or parenthesis anywhere in the number changes nothing |
| BuyerTheorems.OnlyDigitsMatter | src/provider/confio/confio-buyer.ts:254-275 | A number that is not E.164 as it stands comes down to its digits |
| BuyerTheorems.CountryCodeDoesNotMatter | src/provider/confio/confio-buyer.ts:262-275 | A national number comes out the same bare, behind trunk zeros, behind its country code or behind the code with a plus |
| BuyerTheorems.CountryCodeMattersIff | src/provider/confio/confio-buyer.ts:263-264 | Bare and prefixed agree if and only if the number is not itself read as prefixed, or is too long for either |
| BuyerTheorems.StrictE164IsTaken | src/provider/confio/confio-buyer.ts:47-47 | Every strict E.164 number is taken as it is |
| BuyerTheorems.OnlyStrictE164ComesOut | src/provider/confio/confio-buyer.ts:262-275 | And nothing else comes out |
| BuyerTheorems.UnusableCodeIsRefused | src/provider/confio/confio-buyer.ts:250-262 | Without a calling code of one to four digits, the first not 0, no number that is not E.164 already is accepted |
| BuyerTheorems.UsableCodeIsPrepended | src/provider/confio/confio-buyer.ts:262-275 | With one, a local number that does not carry its country gets it |
| Buyers.ToE164 | src/provider/confio/confio-buyer.ts:250-275 | Whatever comes in, what is accepted is strict E.164 and a refusal names the phone |
| Buyers.ResolveNameParts | src/provider/confio/confio-buyer.ts:191-216 | Two usable parts are kept as they are; what is accepted is always two parts of 3 to 64 characters |

## Left out

- LifecycleTheorems.TerminalFollowsDowngrade: is about whole handlers; interleaved it does not hold, and `ClosingOrder.ClosedRowKeepsPlanIff` says exactly when it does.
- Dunning.LinksAreBounded: is about whole handlers; overlapping renewal and retry passes exceed it, exactly as `Dunning.OverlapIsBoundedIff` says, which is about one row and those passes alone.
- Ladder.AskedAtMost87Times: says how often the bands select a row, not how often it is reached within the limit of 50 a pass; rows that stay unconfirmed keep their `updatedAt`, so no row is promised a turn.
- CreditRuns.ExecuteUntilCompleted: when a snapshot was written and its answer lost, only the lower bound is stated here; `CreditRuns.CountersAddUp` gives the exact sum.
- SubscriptionRecord.Database.ExpireSubscriptions: others write while the loop waits for the store, not between the two calls of one downgrade nor between a closing and its event; `Interleaving` lets them in there too.
- SubscriptionRecord.Database.ExpireCancelledSubscriptions: likewise.
- Calendar.AddOneMonth: the limits of `Date` and invalid dates are not modelled.
- Buyers.ToE164: characters outside the basic plane count once here and twice in JavaScript.
- The order in which a row is looked up by resource name or correlation id, and the row of another brand it could find.
- In `handleRenewalFailure`, a row that is saved and an event that is not; and a save lost in the catch after ConfioPagos was asked.
- Collapsing the price rows of a plan to one per currency, and prices that are negative or not whole cents.
- User ids, payment ids, reasons and texts in history entries; notifications and events published on the bus.
- The loops of trial conversion, renewal, retry and sweep crons, whose rounds are steps of `Lifecycle`.
- Webhook authentication and checksums, HTTP clients, PDF and invoices, DIAN and Siigo, metrics, migrations, guards.
- Wallets created by the administrator with a balance, and the administrator's unlocked adjustment: both bypass the ledger.
- Extra columns passed to `credit` and `debit` that could override the status of their transaction.
- Versions of the scoring policy and its cache; activation requests; snapshots without a score.
- Retries of the queue that executes a run, and `markFailed`.
- Floating point and daylight saving.
