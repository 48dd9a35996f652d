/**
 What each actor other than the ConfioPagos handler writes on a subscription row: cancelling,
 reactivating and starting (`src/subscription/subscription.service.ts`), the crons
 (`src/tasks/tasks.service.ts`), checkout (`src/checkout/checkout.service.ts`) and the
 administrator's extension (`src/admin/admin.controller.ts`).
 */
module RowMoves {
  import opened Basics
  import opened Subscriptions
  import opened Text

  // ---------------------------------------------------------------- cancel, reactivate

  /** Until when the access already paid runs: the trial's end in a trial, else the period's. */
  function AccessEnd(r: Row, now: Instant): Instant {
    var end := if r.status.Trial? && r.trialEnd.Some? then r.trialEnd else r.currentPeriodEnd;
    end.UnwrapOr(now)
  }

  /** Seal a cancellation once; only a live row gains a date of end of access. */
  function CancelRow(r: Row, reason: string, registered: bool, now: Instant): (out: Row)
    ensures RowOk(r) ==> RowOk(out)
  {
    r.(cancelledAt := Some(r.cancelledAt.UnwrapOr(now)),
       accessEndsAt := if r.accessEndsAt.None? && IsLive(r.status) then Some(AccessEnd(r, now)) else r.accessEndsAt,
       cancelReason := if registered then r.cancelReason else Some(reason),
       autoRenew := false)
  }

  predicate MayReactivate(r: Row) {
    r.cancelledAt.Some? && !IsTerminal(r.status) && !r.provider.Confio?
  }

  function ReactivateRow(r: Row): (out: Row)
    ensures MayReactivate(r) ==> RowOk(out)
  {
    r.(cancelledAt := None, cancelReason := None, accessEndsAt := None, autoRenew := true)
  }

  // ---------------------------------------------------------------- starting

  /** The row a start leaves waiting for acceptance; a reused row keeps its trial dates. */
  function StartRow(before: Option<Row>, brand: string, plan: string, name: string, now: Instant): (out: Row)
    ensures RowOk(out) && out.status.Pending?
  {
    Row(brand, plan, Pending, Confio, None, name, name, Some(now), Some(now), None,
        if before.Some? then before.value.trialStart else None,
        if before.Some? then before.value.trialEnd else None,
        Some(now), true, None, None, None, 0)
  }

  datatype Refusal = InvalidPlan | AlreadyLive | PendingAcceptance | TrialUsed

  /** The guards of `startTrial`, in their order. */
  function TrialGuard(before: Option<Row>, plan: string, phoneChanged: bool): Option<Refusal> {
    if plan == "" || plan == FREE_PLAN then Some(InvalidPlan)
    else match before
      case None => None
      case Some(r) =>
        if IsLive(r.status) then Some(AlreadyLive)
        else if r.status.Pending? && r.providerSubscriptionId != "" && !phoneChanged then Some(PendingAcceptance)
        else if r.trialStart.Some? then Some(TrialUsed)
        else None
  }

  /** The guards of `startPaid`: neither a spent trial nor a pending row stands in the way. */
  function PaidGuard(before: Option<Row>, plan: string): Option<Refusal> {
    if plan == "" || plan == FREE_PLAN then Some(InvalidPlan)
    else if before.Some? && IsLive(before.value.status) then Some(AlreadyLive)
    else None
  }

  // ---------------------------------------------------------------- crons

  predicate DueTrial(r: Row, now: Instant) {
    r.status.Trial? && r.autoRenew && r.nextBillingDate.Some? && r.nextBillingDate.value < now
  }

  predicate DueRenewal(r: Row, now: Instant) {
    (r.status.Active? || r.status.PastDue?) && r.autoRenew && r.nextBillingDate.Some? && r.nextBillingDate.value < now
  }

  predicate DueRetry(r: Row) { r.status.PastDue? && r.autoRenew }

  predicate DueBatchCharge(r: Row, now: Instant) { DueRenewal(r, now) && r.provider.Dropi? }

  /** The query of `expireCancelledSubscriptions`, whose rows are not those of exhausted arrears. */
  predicate DueClosing(r: Row, now: Instant, maxRetry: int) {
    && (r.status.Trial? || r.status.Active? || (r.status.PastDue? && r.retryCount < maxRetry))
    && !r.autoRenew && r.accessEndsAt.Some? && r.accessEndsAt.value < now
  }

  predicate DueExpiry(r: Row, maxRetry: int) { r.status.PastDue? && r.retryCount >= maxRetry }

  predicate DueTrialEnd(r: Row, now: Instant) { DueTrial(r, now) && r.provider.InternalWallet? && r.walletId.None? }

  /** A subscription whose recurrence lives at ConfioPagos: its name ends `/subscriptions/<id>`. */
  predicate IsRecurring(r: Row) {
    var name := AskedName(r);
    r.provider.Confio? &&
    exists k :: 15 <= k < |name| && name[k - 15..k] == "/subscriptions/" && '/' !in name[k..]
  }

  /** `bumps` is how many times the charge counted itself as a retry. */
  function ChargedRow(r: Row, bumps: nat): (out: Row)
    ensures RowOk(r) ==> RowOk(out)
  {
    r.(status := PastDue, retryCount := r.retryCount + bumps)
  }

  function WalletRenewedRow(r: Row, now: Instant, days: int): (out: Row)
    ensures RowOk(r) ==> RowOk(out)
  {
    var end := Some(now + days * MS_PER_DAY);
    r.(currentPeriodStart := Some(now), currentPeriodEnd := end, nextBillingDate := end, status := Active, retryCount := 0)
  }

  function ExpiredRow(r: Row): (out: Row)
    ensures RowOk(r) ==> RowOk(out)
  {
    r.(status := Expired, autoRenew := false, accessEndsAt := None)
  }

  function ClosedRow(r: Row): (out: Row)
    ensures RowOk(r) && !r.autoRenew ==> RowOk(out)
  {
    r.(status := Cancelled, accessEndsAt := None)
  }

  function TrialEndedRow(r: Row): (out: Row)
    ensures RowOk(r) ==> RowOk(out)
  {
    r.(status := Expired, autoRenew := false)
  }

  // ---------------------------------------------------------------- checkout, administrator

  function RenewedRow(r: Row, plan: string, provider: Provider, wallet: Option<string>, now: Instant, days: int): (out: Row)
    ensures RowOk(out)
  {
    var end := Some(now + days * MS_PER_DAY);
    r.(planSlug := plan, status := Active, provider := provider,
       walletId := if wallet.Some? then wallet else r.walletId,
       currentPeriodStart := Some(now), currentPeriodEnd := end, nextBillingDate := end,
       retryCount := 0, cancelledAt := None, cancelReason := None, accessEndsAt := None, autoRenew := true)
  }

  function BoughtRow(brand: string, plan: string, provider: Provider, wallet: Option<string>, now: Instant, days: int): (out: Row)
    ensures RowOk(out)
  {
    var end := Some(now + days * MS_PER_DAY);
    Row(brand, plan, Active, provider, wallet, "", "", Some(now), end, end, None, None, None, true, None, None, None, 0)
  }

  function ExtendedRow(r: Row, days: int): (out: Row)
    ensures RowOk(r) ==> RowOk(out)
  {
    var end := Some(r.currentPeriodEnd.UnwrapOr(0) + days * MS_PER_DAY);
    var moved := r.(currentPeriodEnd := end, nextBillingDate := end,
                    accessEndsAt := if r.accessEndsAt.Some? then Some(r.accessEndsAt.value + days * MS_PER_DAY) else None);
    if r.status.PastDue? || r.status.Expired? then moved.(status := Active, retryCount := 0) else moved
  }
}
