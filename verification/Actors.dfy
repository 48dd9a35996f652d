/**
 What every actor but ConfioPagos does to a brand's subscription, field by field: starting and
 cancelling (`src/subscription/subscription.service.ts`), the crons (`src/tasks/tasks.service.ts`) and
 checkout (`src/checkout/checkout.service.ts`), each stated without the queries and row moves it is
 made of.
 */
module Actors {
  import opened Basics
  import opened Subscriptions
  import opened ConfioWebhook
  import opened RowMoves
  import opened Lifecycle
  import opened Text

  predicate Live(s: Status) { s == Trial || s == Active || s == PastDue }

  // ---------------------------------------------------------------- starting

  /** A row waiting for acceptance: nothing paid, nothing dated, nothing scheduled but the renewal itself. */
  function Waiting(before: Option<Row>, brand: string, plan: string, name: string, now: Instant): Row {
    Row(brand, plan, Pending, Confio, None, name, name, Some(now), Some(now), None,
        if before.Some? then before.value.trialStart else None, if before.Some? then before.value.trialEnd else None,
        Some(now), true, None, None, None, 0)
  }

  /** The name of the old subscription at ConfioPagos, which a new one replaces. */
  function Replaced(row: Option<Row>): set<string> {
    if row.None? then {}
    else if row.value.confioName != "" then {row.value.confioName}
    else if row.value.providerSubscriptionId != "" then {row.value.providerSubscriptionId}
    else {}
  }

  /** What a start that is allowed leaves: the row waiting, told once, the old subscription cancelled, no plan granted. */
  predicate Starts(w: World, after: World, brand: string, plan: string, kind: EventKind, start: StartReply, now: Instant) {
    match start
    case CreateFailed(gone) => after == w.(canceled := if gone then w.canceled + Replaced(w.row) else w.canceled)
    case Created(name, stored) =>
      after == if stored then
                 w.(row := Some(Waiting(w.row, brand, plan, name, now)), canceled := w.canceled + Replaced(w.row),
                    history := w.history + [Event(kind, if w.row.Some? then Some(w.row.value.status) else None, Some(Pending), None, None, None)])
               else w.(canceled := w.canceled + Replaced(w.row))
  }

  /**
   A trial starts for a paid plan, on a brand without a live row, that never had one, and is not
   waiting for the acceptance of another, unless its phone changed; otherwise nothing happens.
   */
  lemma TrialStartsIff(w: World, cfg: Config, brand: string, plan: string, phoneChanged: bool, start: StartReply, now: Instant)
    ensures var after := Step(w, cfg, StartTrial(brand, plan, phoneChanged, start, now));
            var allowed := plan != "" && plan != "free"
                           && (w.row.Some? ==>
                                 && !Live(w.row.value.status) && w.row.value.trialStart.None?
                                 && !(w.row.value.status.Pending? && w.row.value.providerSubscriptionId != "" && !phoneChanged));
            if allowed then Starts(w, after, brand, plan, TrialStarted, start, now) else after == w
  {
  }

  /** A paid subscription asks only for a paid plan and no live row. */
  lemma PaidStartsIff(w: World, cfg: Config, brand: string, plan: string, start: StartReply, now: Instant)
    ensures var after := Step(w, cfg, StartPaid(brand, plan, start, now));
            if plan != "" && plan != "free" && (w.row.Some? ==> !Live(w.row.value.status))
            then Starts(w, after, brand, plan, EventKind.Created, start, now) else after == w
  {
  }

  // ---------------------------------------------------------------- cancelling

  /** The name a cancellation asks ConfioPagos for, if the row has one that is not blank. */
  function AskedToCancel(r: Row): Option<string> {
    if !r.provider.Confio? then None
    else if Trim(r.confioName) != "" then Some(Trim(r.confioName))
    else if Trim(r.providerSubscriptionId) != "" then Some(Trim(r.providerSubscriptionId))
    else None
  }

  /**
   A cancellation succeeds exactly when its texts fit, there is a row, ConfioPagos, if it has to be
   asked, confirmed, and the row could be stored; and the provider's side is cancelled whenever it
   was asked and did not refuse.
   */
  lemma CancelSucceedsIff(w: World, reason: string, triggeredBy: string, gateway: GatewayReply, stored: bool, now: Instant)
    ensures var done := Cancelling(w, reason, triggeredBy, gateway, stored, now);
            var fit := 1 <= |Trim(reason)| <= 500 && 1 <= |Trim(triggeredBy)| <= 255 && w.row.Some?;
            && (done.1 <==> fit && (AskedToCancel(w.row.value).Some? ==> gateway.Confirmed?) && stored)
            && done.0.plans == w.plans
            && done.0.canceled == if fit && AskedToCancel(w.row.value).Some? && !gateway.Rejected?
                                  then w.canceled + {AskedToCancel(w.row.value).value} else w.canceled
  {
    hide CancelRow, HasCancelTrace, Trim, RowOk;
  }

  /**
   What it leaves: the first seal, the first date, the first reason that was traced, and one trace
   that names the subscription cancelled.
   */
  lemma CancelLeaves(w: World, reason: string, triggeredBy: string, gateway: GatewayReply, stored: bool, now: Instant)
    requires Cancelling(w, reason, triggeredBy, gateway, stored, now).1
    ensures var r, after := w.row.value, Cancelling(w, reason, triggeredBy, gateway, stored, now).0;
            var traced := r.cancelledAt.Some? && HasCancelTrace(w.history);
            var paid := if r.status.Trial? && r.trialEnd.Some? then r.trialEnd.value
                        else if r.currentPeriodEnd.Some? then r.currentPeriodEnd.value else now;
            && after.row == Some(r.(cancelledAt := if r.cancelledAt.Some? then r.cancelledAt else Some(now),
                                    accessEndsAt := if r.accessEndsAt.None? && Live(r.status) then Some(paid) else r.accessEndsAt,
                                    cancelReason := if traced then r.cancelReason else Some(Trim(reason)),
                                    autoRenew := false))
            && after.history == if traced then w.history
                                else w.history + [Event(CancelledEvent, Some(r.status), Some(r.status), None, None, AskedToCancel(r))]
  {
    hide HasCancelTrace, Trim, RowOk;
  }

  // ---------------------------------------------------------------- charging

  /** A row the crons may charge: renewing, and past its next billing date. */
  predicate BillingDue(r: Row, now: Instant) { r.autoRenew && r.nextBillingDate.Some? && r.nextBillingDate.value < now }

  predicate OfWallet(r: Row) { r.provider.InternalWallet? && r.walletId.Some? }

  /** A link went out: the row is in arrears, one more retry if it was one, and told once. */
  function LinkSent(w: World, r: Row, retries: nat): World {
    w.(row := Some(r.(status := PastDue, retryCount := r.retryCount + retries)), links := w.links + 1,
       history := w.history + [Event(PaymentFailed, Some(r.status), Some(PastDue), None, None, None)])
  }

  /**
   An ended trial with no wallet to pay it leaves the brand on `free`; one with a wallet is renewed
   from it; one of another provider gets a link unless its first one is out. No other row is taken.
   */
  lemma TrialConversionRoutes(w: World, cfg: Config, charge: ChargeReply, wallet: WalletReply, first: Call, second: Call, now: Instant)
    requires w.row.Some?
    ensures var r, after := w.row.value, Step(w, cfg, ConvertTrial(charge, wallet, first, second, now));
            if !(r.status.Trial? && BillingDue(r, now)) then after == w
            else if OfWallet(r) then after == WalletRenewed(w, r, wallet, first, now, cfg.billingDays)
            else if r.provider.InternalWallet? then
              after == if Degrade(w.plans, r, first, second).1 then
                         w.(row := Some(r.(status := Expired, autoRenew := false)), plans := Degrade(w.plans, r, first, second).0,
                            history := w.history + [Event(TrialEnded, Some(Trial), Some(Expired), None, None, None)])
                       else w.(plans := Degrade(w.plans, r, first, second).0)
            else if r.initialPaymentLinkIssuedAt.Some? then after == w
            else charge.Emitted? ==> after == LinkSent(w, r, 0)
  {
    hide WalletRenewed, Degrade;
  }

  /** Its subscription lives at ConfioPagos: what is left of its name after `/subscriptions/` is one part. */
  ghost predicate NamesSubscription(name: string) {
    exists before: string, id: string :: name == before + "/subscriptions/" + id && id != "" && '/' !in id
  }

  ghost predicate RecursAtConfio(r: Row) {
    r.provider.Confio? && NamesSubscription(if r.confioName != "" then r.confioName else r.providerSubscriptionId)
  }

  lemma CutNames(name: string, k: nat)
    requires 15 <= k < |name| && name[k - 15..k] == "/subscriptions/" && '/' !in name[k..]
    ensures NamesSubscription(name)
  {
    assert name == name[..k - 15] + "/subscriptions/" + name[k..];
  }

  lemma NameIsCut(before: string, id: string)
    ensures var name, k := before + "/subscriptions/" + id, |before| + 15;
            name[k - 15..k] == "/subscriptions/" && name[k..] == id && |name| == k + |id|
  {
  }

  lemma RecursIff(r: Row)
    ensures IsRecurring(r) <==> RecursAtConfio(r)
  {
    hide NamesSubscription;
    var name := AskedName(r);
    if IsRecurring(r) {
      var k :| 15 <= k < |name| && name[k - 15..k] == "/subscriptions/" && '/' !in name[k..];
      CutNames(name, k);
    }
    if RecursAtConfio(r) { RecurringIsCut(r); }
  }

  lemma RecurringIsCut(r: Row)
    requires RecursAtConfio(r)
    ensures IsRecurring(r)
  {
    var name := AskedName(r);
    var before: string, id: string :| name == before + "/subscriptions/" + id && id != "" && '/' !in id;
    NameIsCut(before, id);
  }

  /**
   The renewal takes live rows but trials: a wallet pays its own, ConfioPagos is asked about what
   recurs there, and only its old one-link rows, while active, get a link.
   */
  lemma RenewalRoutes(w: World, cfg: Config, reply: ProviderReply, charge: ChargeReply, wallet: WalletReply, first: Call, second: Call, now: Instant)
    requires w.row.Some?
    ensures var r, after := w.row.value, Step(w, cfg, Renew(reply, charge, wallet, first, second, now));
            var asked := Step(w, cfg, Confirm(reply, first, second, now));
            if !((r.status.Active? || r.status.PastDue?) && BillingDue(r, now)) then after == w
            else if OfWallet(r) then after == WalletRenewed(w, r, wallet, first, now, cfg.billingDays)
            else if RecursAtConfio(r) then
              after == if AskingThrows(w, reply, first, second, now) then
                         asked.(row := Some(r.(status := PastDue, retryCount := r.retryCount + 1)),
                                history := asked.history + [Event(PaymentFailed, Some(PastDue), Some(PastDue), None, None, None)])
                       else asked
            else if r.provider.Confio? && r.status.Active? then charge.Emitted? ==> after == LinkSent(w, r, 0)
            else after == w
  {
    hide WalletRenewed, Asking, AskingThrows, IsRecurring, RecursAtConfio;
    RecursIff(w.row.value);
  }

  /** A retry waits a day more than it has waited before, stops at the limit, and sends links for ConfioPagos only. */
  lemma RetryRoutes(w: World, cfg: Config, last: Instant, charge: ChargeReply, wallet: WalletReply, first: Call, now: Instant)
    requires w.row.Some?
    ensures var r, after := w.row.value, Step(w, cfg, Retry(last, charge, wallet, first, now));
            if !(r.status.PastDue? && r.autoRenew && r.retryCount < cfg.maxRetry && last + (r.retryCount + 1) * 86_400_000 <= now)
            then after == w
            else if OfWallet(r) then after == WalletRenewed(w, r, wallet, first, now, cfg.billingDays)
            else if r.provider.Confio? then charge.Emitted? ==> after == LinkSent(w, r, 1)
            else after == w
  {
    hide WalletRenewed;
  }

  /** When every call goes through, a wallet renews its row for the period from now, and its plan, if it has it, with it. */
  lemma WalletPaysThePeriod(w: World, r: Row, first: Call, now: Instant, days: int)
    ensures var end := now + days * 86_400_000;
            WalletRenewed(w, r, NO_FAILURE, first, now, days)
            == w.(row := Some(r.(currentPeriodStart := Some(now), currentPeriodEnd := Some(end), nextBillingDate := Some(end),
                                 status := Active, retryCount := 0)),
                  plans := if first.Refused? || (r.brandId, r.planSlug) !in w.plans then w.plans
                           else w.plans[(r.brandId, r.planSlug) := Some(end)],
                  history := w.history + [Event(Renewed, Some(Active), Some(Active), None, None, None)])
  {
  }

  // ---------------------------------------------------------------- closing

  /** The store after both calls went through: off the paid plan, on `free` without expiry. */
  function Downgraded(plans: PlanStore, r: Row): PlanStore {
    if r.brandId == "" || r.planSlug == "" || r.planSlug == "free" then plans
    else (plans - {(r.brandId, r.planSlug)})[(r.brandId, "free") := None]
  }

  lemma DowngradeWorks(plans: PlanStore, r: Row)
    ensures Degrade(plans, r, Accepted, Accepted) == (Downgraded(plans, r), true)
  {
  }

  /** Arrears with no retries left end the subscription, or, if the store refuses, at least the charging. */
  lemma ArrearsEnd(w: World, cfg: Config, first: Call, second: Call)
    requires w.row.Some?
    ensures var r, after := w.row.value, Step(w, cfg, ExpireArrears(first, second));
            if !(r.status.PastDue? && r.retryCount >= cfg.maxRetry) then after == w
            else if Degrade(w.plans, r, first, second).1 then
              after == w.(row := Some(r.(status := Expired, autoRenew := false, accessEndsAt := None)),
                          plans := Degrade(w.plans, r, first, second).0,
                          history := w.history + [Event(ExpiredEvent, Some(PastDue), Some(Expired), None, None, None)])
            else after == w.(row := Some(r.(autoRenew := false)), plans := Degrade(w.plans, r, first, second).0)
  {
    hide Degrade;
  }

  /** A cancellation past its date is closed by the other pass, unless its retries are spent. */
  lemma CancellationsEnd(w: World, cfg: Config, first: Call, second: Call, now: Instant)
    requires w.row.Some?
    ensures var r, after := w.row.value, Step(w, cfg, CloseCancelled(first, second, now));
            var lapsed := Live(r.status) && !(r.status.PastDue? && r.retryCount >= cfg.maxRetry)
                          && !r.autoRenew && r.accessEndsAt.Some? && r.accessEndsAt.value < now;
            if !lapsed then after == w
            else if Degrade(w.plans, r, first, second).1 then
              after == w.(row := Some(r.(status := Cancelled, accessEndsAt := None)), plans := Degrade(w.plans, r, first, second).0,
                          history := w.history + [Event(ExpiredEvent, Some(r.status), Some(Cancelled), None, None, None)])
            else after == w.(plans := Degrade(w.plans, r, first, second).0)
  {
    hide Degrade;
  }

  // ---------------------------------------------------------------- buying, going back, the administrator

  /** A purchase opens a row, or takes the one there from scratch and clears its cancellation. */
  lemma PurchaseLeaves(w: World, cfg: Config, brand: string, plan: string, provider: Provider, wallet: Option<string>, first: Call, now: Instant)
    ensures var after := Step(w, cfg, Checkout(brand, plan, provider, wallet, first, now));
            var end := Some(now + cfg.billingDays * 86_400_000);
            && after.plans == (if first.Refused? then w.plans else w.plans[(brand, plan) := end])
            && after.canceled == w.canceled && after.links == w.links
            && (w.row.None? ==>
                  && after.row == Some(Row(brand, plan, Active, provider, wallet, "", "", Some(now), end, end, None, None, None,
                                           true, None, None, None, 0))
                  && after.history == w.history + [Event(EventKind.Created, None, Some(Active), None, None, None)])
            && (w.row.Some? ==>
                  var r := w.row.value;
                  && after.row == Some(r.(planSlug := plan, status := Active, provider := provider,
                                          walletId := if wallet.Some? then wallet else r.walletId,
                                          currentPeriodStart := Some(now), currentPeriodEnd := end, nextBillingDate := end,
                                          retryCount := 0, cancelledAt := None, cancelReason := None, accessEndsAt := None,
                                          autoRenew := true))
                  && after.history == w.history + [Event(if r.planSlug != plan then PlanChanged else Renewed, Some(r.status), Some(Active),
                                                         None, None, None)])
  {
    hide RowOk;
  }

  /** The owner goes back on a cancellation still running, anywhere but at ConfioPagos. */
  lemma ReactivationLeaves(w: World, cfg: Config)
    ensures var after := Step(w, cfg, Reactivate);
            if w.row.Some? && w.row.value.cancelledAt.Some? && !w.row.value.provider.Confio?
               && !(w.row.value.status.Cancelled? || w.row.value.status.Expired?) then
              var r := w.row.value;
              after == w.(row := Some(r.(cancelledAt := None, cancelReason := None, accessEndsAt := None, autoRenew := true)),
                          history := w.history + [Event(Reactivated, Some(r.status), Some(r.status), None, None, None)])
            else after == w
  {
    hide RowOk;
  }

  /** An extension moves both ends, and brings back arrears and expired rows. */
  lemma ExtensionLeaves(w: World, cfg: Config, days: int)
    ensures var after := Step(w, cfg, AdminExtend(days));
            if w.row.None? then after == w
            else
              var r := w.row.value;
              var end := Some((if r.currentPeriodEnd.Some? then r.currentPeriodEnd.value else 0) + days * 86_400_000);
              var back := r.status.PastDue? || r.status.Expired?;
              after == w.(row := Some(r.(currentPeriodEnd := end, nextBillingDate := end,
                                         accessEndsAt := if r.accessEndsAt.Some? then Some(r.accessEndsAt.value + days * 86_400_000) else None,
                                         status := if back then Active else r.status,
                                         retryCount := if back then 0 else r.retryCount)))
  {
    hide RowOk;
  }

  /** Changing the plan renames it on the row and tells of it; the store is not called. */
  lemma PlanChangeLeaves(w: World, cfg: Config, plan: string)
    ensures Step(w, cfg, ChangePlan(plan))
            == if w.row.None? then w
               else w.(row := Some(w.row.value.(planSlug := plan)),
                       history := w.history + [Event(PlanChanged, None, None, None, None, None)])
  {
  }
}
