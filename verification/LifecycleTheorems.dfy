/** What the atomic handlers promise, over one step and over whole runs. */
module LifecycleTheorems {
  import opened Basics
  import opened Subscriptions
  import opened ConfioWebhook
  import opened RowMoves
  import opened Text
  import opened Lifecycle

  // ---------------------------------------------------------------- access and the row agree

  predicate NamesPaidPlan(r: Row) { r.brandId != "" && r.planSlug != "" && r.planSlug != FREE_PLAN }

  predicate OnFreeOnly(plans: PlanStore, r: Row) {
    (r.brandId, r.planSlug) !in plans && (r.brandId, FREE_PLAN) in plans && plans[(r.brandId, FREE_PLAN)] == None
  }

  predicate LivePaid(w: World) {
    w.row.Some? && IsLive(w.row.value.status) && NamesPaidPlan(w.row.value)
  }

  predicate Closed(w: World) { w.row.Some? && IsTerminal(w.row.value.status) }

  /** No actor closes a live row before its brand has lost the paid plan and holds `free`. */
  lemma TerminalFollowsDowngrade(w: World, cfg: Config, a: Action)
    requires LivePaid(w) && Closed(Step(w, cfg, a))
    ensures OnFreeOnly(Step(w, cfg, a).plans, w.row.value)
  {
    hide Delivered, Asking, TrialConverted, RenewedByCron, Retried, ArrearsExpired, CancelledClosed;
    hide Cancelling, Starting, CheckedOut, OnFreeOnly, RowOk;
    match a {
      case Deliver(m, id, reply, first, second, at) => DeliveryClosesOnFree(w, m, id, reply, first, second, at);
      case Confirm(reply, first, second, at) => AskingNeverCloses(w, reply, first, second, at);
      case ConvertTrial(charge, wallet, first, second, at) => TrialEndClosesOnFree(w, cfg, charge, wallet, first, second, at);
      case Renew(reply, charge, wallet, first, second, at) => RenewalNeverCloses(w, cfg, reply, charge, wallet, first, second, at);
      case Retry(last, charge, wallet, first, at) => RetryNeverCloses(w, cfg, last, charge, wallet, first, at);
      case ExpireArrears(first, second) => ArrearsCloseOnFree(w, cfg, first, second);
      case CloseCancelled(first, second, at) => CancellationsCloseOnFree(w, cfg, first, second, at);
      case Cancel(reason, triggeredBy, gateway, stored, at) => CancellingNeverCloses(w, reason, triggeredBy, gateway, stored, at);
      case StartTrial(brand, plan, phoneChanged, start, at) => StartingNeverCloses(w, brand, plan, TrialStarted, start, at);
      case StartPaid(brand, plan, start, at) => StartingNeverCloses(w, brand, plan, EventKind.Created, start, at);
      case Checkout(brand, plan, provider, wallet, first, at) => CheckoutNeverCloses(w, cfg, brand, plan, provider, wallet, first, at);
      case _ =>
    }
  }

  lemma DeliveryClosesOnFree(w: World, m: Message, id: DeliveryId, reply: ProviderReply, first: Call, second: Call, now: Instant)
    requires LivePaid(w) && Closed(Delivered(w, m, id, reply, first, second, now))
    ensures OnFreeOnly(Delivered(w, m, id, reply, first, second, now).plans, w.row.value)
  {
    hide Plan, DowngradeToFree;
    var e := Plan(m, w.row.value, reply, now);
    if e.Some? { ClosingEffectDowngrades(e.value, m, w.row.value, reply, now); }
  }

  lemma TrialEndClosesOnFree(w: World, cfg: Config, charge: ChargeReply, wallet: WalletReply, first: Call, second: Call, now: Instant)
    requires LivePaid(w) && Closed(TrialConverted(w, cfg, charge, wallet, first, second, now))
    ensures OnFreeOnly(TrialConverted(w, cfg, charge, wallet, first, second, now).plans, w.row.value)
  {
    hide Charged, WalletRenewed, DueTrial;
    ChargeNeverCloses(w, w.row.value, false, false, charge);
    WalletNeverCloses(w, w.row.value, wallet, first, now, cfg.billingDays);
  }

  lemma ArrearsCloseOnFree(w: World, cfg: Config, first: Call, second: Call)
    requires LivePaid(w) && Closed(ArrearsExpired(w, cfg, first, second))
    ensures OnFreeOnly(ArrearsExpired(w, cfg, first, second).plans, w.row.value)
  {
  }

  lemma CancellationsCloseOnFree(w: World, cfg: Config, first: Call, second: Call, now: Instant)
    requires LivePaid(w) && Closed(CancelledClosed(w, cfg, first, second, now))
    ensures OnFreeOnly(CancelledClosed(w, cfg, first, second, now).plans, w.row.value)
  {
  }

  lemma RenewalNeverCloses(w: World, cfg: Config, reply: ProviderReply, charge: ChargeReply, wallet: WalletReply,
                           first: Call, second: Call, now: Instant)
    requires LivePaid(w)
    ensures !Closed(RenewedByCron(w, cfg, reply, charge, wallet, first, second, now))
  {
    hide Asking, AskingThrows, IsRecurring, Charged, WalletRenewed, RenewalFailed, DueRenewal;
    AskingNeverCloses(w, reply, first, second, now);
    var r := w.row.value;
    ChargeNeverCloses(w, r, false, true, charge);
    WalletNeverCloses(w, r, wallet, first, now, cfg.billingDays);
    FailureNeverCloses(Asking(w, reply, first, second, now), r);
  }

  lemma ChargeNeverCloses(w: World, r: Row, isRetry: bool, handled: bool, charge: ChargeReply)
    requires !Closed(w)
    ensures !Closed(Charged(w, r, isRetry, handled, charge))
  {
    hide RowOk;
  }

  lemma WalletNeverCloses(w: World, r: Row, wallet: WalletReply, first: Call, now: Instant, days: int)
    requires !Closed(w)
    ensures !Closed(WalletRenewed(w, r, wallet, first, now, days))
  {
    hide RowOk;
  }

  lemma FailureNeverCloses(w: World, r: Row)
    ensures !Closed(RenewalFailed(w, r))
  {
    hide RowOk;
  }

  lemma RetryNeverCloses(w: World, cfg: Config, last: Instant, charge: ChargeReply, wallet: WalletReply, first: Call, now: Instant)
    requires LivePaid(w)
    ensures !Closed(Retried(w, cfg, last, charge, wallet, first, now))
  {
    hide Charged, WalletRenewed, DueRetry;
    ChargeNeverCloses(w, w.row.value, true, true, charge);
    WalletNeverCloses(w, w.row.value, wallet, first, now, cfg.billingDays);
  }

  lemma CancellingNeverCloses(w: World, reason: string, triggeredBy: string, gateway: GatewayReply, stored: bool, now: Instant)
    requires LivePaid(w)
    ensures !Closed(Cancelling(w, reason, triggeredBy, gateway, stored, now).0)
  {
  }

  lemma StartingNeverCloses(w: World, brand: string, plan: string, kind: EventKind, start: StartReply, now: Instant)
    requires LivePaid(w)
    ensures !Closed(Starting(w, brand, plan, kind, start, now))
  {
  }

  lemma CheckoutNeverCloses(w: World, cfg: Config, brand: string, plan: string, provider: Provider, wallet: Option<string>, first: Call, now: Instant)
    requires LivePaid(w)
    ensures !Closed(CheckedOut(w, cfg, brand, plan, provider, wallet, first, now))
  {
  }

  lemma AskingNeverCloses(w: World, reply: ProviderReply, first: Call, second: Call, now: Instant)
    requires w.row.Some? && IsLive(w.row.value.status)
    ensures var after := Asking(w, reply, first, second, now).row;
            after.Some? && !IsTerminal(after.value.status)
  {
  }

  /**
   An effect that closes is planned only on an open row. A notification asks for the downgrade of
   that very brand and plan, if the row names them; asking closes only a row that still waits for
   acceptance, and moves nothing.
   */
  lemma ClosingEffectDowngrades(e: Effect, m: Message, r: Row, reply: ProviderReply, now: Instant)
    ensures Plan(m, r, reply, now) == Some(e) && IsTerminal(e.toStatus) ==>
              !IsTerminal(r.status)
              && e.roles == (if r.brandId == "" || r.planSlug == "" then None
                             else Some(RolesMove(Downgrade, r.brandId, r.planSlug, None)))
    ensures Ask(r, reply, now).Settle? && Ask(r, reply, now).effect == e && IsTerminal(e.toStatus) ==>
              r.status.Pending? && e.roles.None?
  {
    hide LocalPeriod, TrialPeriod, ProviderPeriod;
  }

  predicate IsGrant(e: Event) { e.roles.Some? && e.roles.value.action.Restore? }

  predicate Speaks(a: Action) { a.Deliver? || a.Confirm? || a.Renew? }

  /** What a notification, or our own question, planned on the row as it was read. */
  predicate PlannedFor(e: Effect, m: Message, r: Row, reply: ProviderReply, now: Instant) {
    Plan(m, r, reply, now) == Some(e) || (Ask(r, reply, now).Settle? && Ask(r, reply, now).effect == e)
  }

  /** A grant planned on `r` promises the period end it writes, and that end lies ahead. */
  lemma GrantPromisesItsPeriod(e: Effect, m: Message, r: Row, reply: ProviderReply, now: Instant)
    ensures PlannedFor(e, m, r, reply, now) && e.roles.Some? && e.roles.value.action.Restore? ==>
              && e.period.Some? && now < e.period.value.end
              && e.roles.value == RolesMove(Restore, r.brandId, r.planSlug, Some(e.period.value.end))
  {
    hide LocalPeriod, TrialPeriod, ProviderPeriod;
  }

  /** The step's new history entry is a grant. */
  predicate RecordsGrant(before: World, after: World) {
    |after.history| > |before.history| && IsGrant(after.history[|before.history|])
  }

  /** If a grant was recorded, row, plan store and history say one date, still ahead. */
  predicate Agree(before: World, after: World, now: Instant)
    requires before.row.Some?
  {
    RecordsGrant(before, after) ==>
      var grant := after.history[|before.history|].roles.value;
      && after.row.Some? && after.row.value.currentPeriodEnd.Some?
      && grant.expiresAt == after.row.value.currentPeriodEnd
      && now < grant.expiresAt.value
      && (before.row.value.brandId, before.row.value.planSlug) in after.plans
      && after.plans[(before.row.value.brandId, before.row.value.planSlug)] == grant.expiresAt
  }

  lemma AskedGrantAgrees(w: World, reply: ProviderReply, first: Call, second: Call, now: Instant)
    requires w.row.Some?
    ensures Agree(w, Asking(w, reply, first, second, now), now)
    ensures AskingThrows(w, reply, first, second, now) ==> Asking(w, reply, first, second, now).history == w.history
  {
    hide Plan, Ask;
    AskedGrantPromisesItsPeriod(w.row.value, reply, now);
  }

  lemma ChargesRecordNoGrant(w: World, r: Row, isRetry: bool, handled: bool, charge: ChargeReply, wallet: WalletReply, first: Call, now: Instant, days: int)
    ensures !RecordsGrant(w, Charged(w, r, isRetry, handled, charge))
    ensures !RecordsGrant(w, WalletRenewed(w, r, wallet, first, now, days))
    ensures !RecordsGrant(w, RenewalFailed(w, r))
  {
    hide ChargedRow, WalletRenewedRow;
  }

  lemma RenewalGrantAgrees(w: World, cfg: Config, a: Action)
    requires a.Renew? && w.row.Some?
    ensures Agree(w, Step(w, cfg, a), a.at)
  {
    hide Plan, Asking, AskingThrows, IsRecurring, Charged, WalletRenewed, RenewalFailed, RecordsGrant;
    var r := w.row.value;
    var asked := Asking(w, a.reply, a.first, a.second, a.at);
    AskedGrantAgrees(w, a.reply, a.first, a.second, a.at);
    ChargesRecordNoGrant(w, r, false, true, a.charge, a.wallet, a.first, a.at, cfg.billingDays);
    FailureRecordsNoGrant(w, asked, r);
    NothingRecordsNoGrant(w);
  }

  lemma FailureRecordsNoGrant(w: World, asked: World, r: Row)
    ensures asked.history == w.history ==> !RecordsGrant(w, RenewalFailed(asked, r))
  {
  }

  lemma NothingRecordsNoGrant(w: World)
    ensures !RecordsGrant(w, w)
  {
  }

  /** Whatever a step adds to the history as a grant, row and plan store say the same date. */
  lemma GrantAgrees(w: World, cfg: Config, a: Action)
    requires Speaks(a) && w.row.Some?
    ensures var after := Step(w, cfg, a);
            RecordsGrant(w, after) ==>
              var grant := after.history[|w.history|].roles.value;
              && after.row.Some? && after.row.value.currentPeriodEnd.Some?
              && grant.expiresAt == after.row.value.currentPeriodEnd
              && a.at < grant.expiresAt.value
              && (w.row.value.brandId, w.row.value.planSlug) in after.plans
              && after.plans[(w.row.value.brandId, w.row.value.planSlug)] == grant.expiresAt
  {
    hide Plan, Asking, AskingThrows, RenewedByCron;
    var r := w.row.value;
    match a {
      case Deliver(m, id, reply, first, second, at) =>
        if Plan(m, r, reply, at).Some? { GrantPromisesItsPeriod(Plan(m, r, reply, at).value, m, r, reply, at); }
      case Confirm(reply, first, second, at) => AskedGrantAgrees(w, reply, first, second, at);
      case Renew(reply, charge, wallet, first, second, at) => RenewalGrantAgrees(w, cfg, a);
    }
  }

  lemma AskedGrantPromisesItsPeriod(r: Row, reply: ProviderReply, now: Instant)
    ensures var q := Ask(r, reply, now);
            q.Settle? && q.effect.roles.Some? && q.effect.roles.value.action.Restore? ==>
              && q.effect.period.Some? && now < q.effect.period.value.end
              && q.effect.roles.value == RolesMove(Restore, r.brandId, r.planSlug, Some(q.effect.period.value.end))
  {
    hide Ask, Plan;
    var q := Ask(r, reply, now);
    if q.Settle? { GrantPromisesItsPeriod(q.effect, Billing(true, ""), r, reply, now); }
  }

  /** A row whose renewal the internal wallet pays. */
  predicate PaidByWallet(r: Row) { r.provider.InternalWallet? && r.walletId.Some? }

  /** Renewing a plan the store does not hold is refused like any other call that fails. */
  predicate RenewalAccepted(plans: PlanStore, r: Row, call: Call) {
    call.Accepted? && (r.brandId, r.planSlug) in plans
  }

  predicate WalletRenewalRefused(w: World, r: Row, wallet: WalletReply, call: Call) {
    PaidByWallet(r) && !wallet.debit.DebitThrew? && wallet.row.Accepted? && !RenewalAccepted(w.plans, r, call)
  }

  /** The step called the plan store and the answer was no, or was lost. */
  predicate PushRefused(w: World, cfg: Config, a: Action) {
    if a.Checkout? then !a.first.Accepted?
    else if w.row.None? then false
    else
      var r := w.row.value;
      match a
      case Deliver(m, id, reply, first, second, at) =>
        !HasMarker(w.history, id) && Plan(m, r, reply, at).Some? && Plan(m, r, reply, at).value.roles.Some?
        && !Push(w.plans, Plan(m, r, reply, at).value.roles.value, first, second).1
      case Confirm(reply, first, second, at) => AskingThrows(w, reply, first, second, at)
      case Renew(reply, _, wallet, first, second, at) =>
        DueRenewal(r, at)
        && (WalletRenewalRefused(w, r, wallet, first)
            || (!PaidByWallet(r) && IsRecurring(r) && AskingThrows(w, reply, first, second, at)))
      case Retry(last, _, wallet, first, at) =>
        DueRetry(r) && r.retryCount < cfg.maxRetry && BackoffElapsed(r, last, at) && WalletRenewalRefused(w, r, wallet, first)
      case ConvertTrial(_, wallet, first, second, at) =>
        (DueTrialEnd(r, at) && !Degrade(w.plans, r, first, second).1)
        || (DueTrial(r, at) && WalletRenewalRefused(w, r, wallet, first))
      case ExpireArrears(first, second) => DueExpiry(r, cfg.maxRetry) && !Degrade(w.plans, r, first, second).1
      case CloseCancelled(first, second, at) => DueClosing(r, at, cfg.maxRetry) && !Degrade(w.plans, r, first, second).1
      case _ => false
  }

  /** The steps that ask the plan store first and write only what it accepted. */
  predicate StopsOnRefusal(w: World, a: Action) {
    || a.Deliver? || a.Confirm? || a.CloseCancelled?
    || (a.ConvertTrial? && w.row.Some? && w.row.value.walletId.None?)
    || (a.ExpireArrears? && w.row.Some? && !w.row.value.autoRenew)
  }

  /**
   A refused movement leaves the row and its history as they were exactly in the steps that ask
   first. The others write all the same: checkout and wallet renewals have written before they ask
   and drop the answer, a renewal that asks ConfioPagos counts the refusal as a failed payment, and
   the expiry of arrears turns off a renewal that was still on. (A free renewal by a negative
   number of days could find the row as it would leave it.)
   */
  lemma RefusalLeavesNoTrace(w: World, cfg: Config, a: Action)
    requires cfg.billingDays >= 0
    ensures PushRefused(w, cfg, a) ==>
              var after := Step(w, cfg, a);
              (after.row == w.row && after.history == w.history <==> StopsOnRefusal(w, a))
  {
    hide Asking, AskingThrows, IsRecurring, Degrade, Plan, WalletRenewed, RenewalFailed, Charged, CheckedOut, Push, HasMarker, RowOk;
    if PushRefused(w, cfg, a) {
      match a {
        case Renew(reply, charge, wallet, first, second, at) => RefusedRenewalWrites(w, cfg, a);
        case Retry(last, charge, wallet, first, at) =>
          WalletRenewalWrites(w, w.row.value, wallet, first, at, cfg.billingDays);
        case ConvertTrial(charge, wallet, first, second, at) =>
          WalletRenewalWrites(w, w.row.value, wallet, first, at, cfg.billingDays);
        case Confirm(reply, first, second, at) => RefusedAskingWritesNothing(w, reply, first, second, at);
        case ExpireArrears(first, second) =>
          assert w.row.value.(autoRenew := false) == w.row.value <==> !w.row.value.autoRenew;
        case Checkout(brand, plan, provider, wallet, first, at) => CheckoutWrites(w, cfg, brand, plan, provider, wallet, first, at);
        case _ =>
      }
    }
  }

  lemma RefusedAskingWritesNothing(w: World, reply: ProviderReply, first: Call, second: Call, now: Instant)
    ensures AskingThrows(w, reply, first, second, now) ==>
              Asking(w, reply, first, second, now).row == w.row && Asking(w, reply, first, second, now).history == w.history
  {
    hide Ask, Push, HasMarker;
  }

  lemma WalletRenewalWrites(w: World, r: Row, wallet: WalletReply, first: Call, now: Instant, days: nat)
    requires !r.status.Active? || (r.nextBillingDate.Some? && r.nextBillingDate.value < now)
    ensures !wallet.debit.DebitThrew? && wallet.row.Accepted? ==>
              var after, renewed := WalletRenewed(w, r, wallet, first, now, days), WalletRenewedRow(r, now, days);
              if wallet.debit.FreeOfCharge? || wallet.eventSaved || !wallet.recovered then after.row == Some(renewed) != Some(r)
              else after.row == Some(ChargedRow(renewed, 1)) && |after.history| == |w.history| + 1
  {
    hide RowOk;
    assert now <= now + days * MS_PER_DAY;
  }

  lemma RefusedRenewalWrites(w: World, cfg: Config, a: Action)
    requires a.Renew? && cfg.billingDays >= 0
    ensures PushRefused(w, cfg, a) ==> Step(w, cfg, a).row != w.row || Step(w, cfg, a).history != w.history
  {
    hide Asking, AskingThrows, IsRecurring, WalletRenewed, Charged, RowOk;
    if PushRefused(w, cfg, a) {
      WalletRenewalWrites(w, w.row.value, a.wallet, a.first, a.at, cfg.billingDays);
      RefusedAskingWritesNothing(w, a.reply, a.first, a.second, a.at);
      assert |RenewalFailed(Asking(w, a.reply, a.first, a.second, a.at), w.row.value).history|
             == |Asking(w, a.reply, a.first, a.second, a.at).history| + 1;
    }
  }

  lemma CheckoutWrites(w: World, cfg: Config, brand: string, plan: string, provider: Provider, wallet: Option<string>, first: Call, now: Instant)
    ensures |CheckedOut(w, cfg, brand, plan, provider, wallet, first, now).history| == |w.history| + 1
  {
    hide RenewedRow, BoughtRow;
  }

  /** What a refusal that does not stop the step leaves behind instead. */
  lemma RefusalWritesInstead(w: World, cfg: Config, a: Action)
    ensures PushRefused(w, cfg, a) && !StopsOnRefusal(w, a) ==>
              var after := Step(w, cfg, a);
              && after.row.Some?
              && (a.Checkout? ==> after.row.value.status.Active? && after.row.value.planSlug == a.plan
                                  && after.plans == Assign(w.plans, a.brand, a.plan, after.row.value.currentPeriodEnd, a.first))
              && (!a.Checkout? && PaidByWallet(w.row.value) && !a.ExpireArrears? ==>
                    var renewed := WalletRenewedRow(w.row.value, a.at, cfg.billingDays);
                    after.row == Some(if a.wallet.debit.FreeOfCharge? || a.wallet.eventSaved || !a.wallet.recovered
                                      then renewed else ChargedRow(renewed, 1)))
              && (a.Renew? && !PaidByWallet(w.row.value) ==> after.row == Some(ChargedRow(w.row.value, 1)))
              && (a.ExpireArrears? ==> after.row == Some(w.row.value.(autoRenew := false)) && after.history == w.history)
  {
    hide Asking, AskingThrows, IsRecurring, Degrade, Plan, Charged, Push, HasMarker, RowOk;
  }

  /**
   A confirmation that pushes its grant writes the row exactly when this very grant was never
   written before. Otherwise — the same name, status and period end, on a row that fell into
   arrears in between — the plan store gets the plan back and the row stays where it was.
   */
  lemma ConfirmationAppliesIffUnmarked(w: World, cfg: Config, reply: ProviderReply, first: Call, second: Call, now: Instant)
    requires w.row.Some? && Ask(w.row.value, reply, now).Settle? && !AskingThrows(w, reply, first, second, now)
    requires Ask(w.row.value, reply, now).effect.roles.Some?
    ensures var question := Ask(w.row.value, reply, now);
            var after := Step(w, cfg, Confirm(reply, first, second, now));
            && after.plans == Push(w.plans, question.effect.roles.value, first, second).0
            && (|after.history| == |w.history| + 1 <==> !HasMarker(w.history, question.id))
            && (HasMarker(w.history, question.id) ==> after.row == w.row)
            && (!HasMarker(w.history, question.id) ==> after.row == Some(ApplyEffect(w.row.value, question.effect, now)))
  {
  }

  /** A pending row that names its subscription and a paid plan, and was never cancelled. */
  predicate AwaitsAcceptance(r: Row) {
    r.status.Pending? && r.cancelledAt.None? && AskedName(r) != "" && NamesPaidPlan(r)
  }

  /** A confirmation that finds ACTIVE until `end`, with the store answering. */
  function AcceptedUntil(start: Instant, end: Instant, now: Instant): Action {
    Confirm(Found(ACTIVE, Some(start), Some(end), Some(end)), Accepted, Accepted, now)
  }

  lemma AskingGrants(r: Row, start: Instant, end: Instant, now: Instant)
    requires AskedName(r) != "" && NamesPaidPlan(r) && now < end && r.cancelledAt.None?
    requires r.status.Pending? || r.status.PastDue?
    ensures Ask(r, Found(ACTIVE, Some(start), Some(end), Some(end)), now)
            == Settle(Effect(ConfirmationGranted, Active, Some(Period(start, end, end)), false, false, false,
                             Some(RolesMove(Restore, r.brandId, r.planSlug, Some(end)))),
                      Asked(AskedName(r), ACTIVE, Some(end)))
  {
    hide LocalPeriod, TrialPeriod;
  }

  lemma ConfirmationGrants(w: World, cfg: Config, start: Instant, end: Instant, now: Instant)
    requires w.row.Some? && AskedName(w.row.value) != "" && NamesPaidPlan(w.row.value) && now < end
    requires w.row.value.status.Pending? || w.row.value.status.PastDue?
    requires w.row.value.cancelledAt.None?
    ensures var r := w.row.value;
            var id := Asked(AskedName(r), ACTIVE, Some(end));
            var after := Step(w, cfg, AcceptedUntil(start, end, now));
            && after.plans == w.plans[(r.brandId, r.planSlug) := Some(end)]
            && (HasMarker(w.history, id) ==> after.row == w.row && after.history == w.history)
            && (!HasMarker(w.history, id) ==>
                  && after.row == Some(r.(status := Active, currentPeriodStart := Some(start), currentPeriodEnd := Some(end), nextBillingDate := Some(end)))
                  && |after.history| == |w.history| + 1 && after.history[..|w.history|] == w.history
                  && after.history[|w.history|].delivery == Some(id))
  {
    hide HasMarker, RowOk, EffectOk, Ask, AskedName;
    AskingGrants(w.row.value, start, end, now);
  }

  lemma ArrearsWithdraw(w: World, cfg: Config, id: DeliveryId, now: Instant)
    requires w.row.Some? && !IsTerminal(w.row.value.status) && NamesPaidPlan(w.row.value) && !HasMarker(w.history, id)
    ensures var r := w.row.value;
            var after := Step(w, cfg, Deliver(StatusChange(PAST_DUE, ""), id, Unreachable, Accepted, Accepted, now));
            && after.row == Some(r.(status := PastDue)) && (r.brandId, r.planSlug) !in after.plans
            && |after.history| == |w.history| + 1 && after.history[..|w.history|] == w.history
  {
    hide HasMarker, RowOk, EffectOk;
  }

  /**
   Granted, fallen into arrears, and granted again until the same date: the store gives the plan
   back and the row stays in arrears, on its way to be charged and expired.
   */
  lemma RepeatedGrantLeavesArrears(w: World, cfg: Config, id: DeliveryId, start: Instant, end: Instant, now: Instant)
    requires w.row.Some? && AwaitsAcceptance(w.row.value) && now < end
    requires !HasMarker(w.history, Asked(AskedName(w.row.value), ACTIVE, Some(end)))
    requires !HasMarker(w.history, id) && id != Asked(AskedName(w.row.value), ACTIVE, Some(end))
    ensures var r := w.row.value;
            var grant := AcceptedUntil(start, end, now);
            var arrears := Deliver(StatusChange(PAST_DUE, ""), id, Unreachable, Accepted, Accepted, now);
            var after := After(w, cfg, [grant, arrears, grant]);
            && after.row.Some? && after.row.value.status.PastDue? && |after.history| == |w.history| + 2
            && (r.brandId, r.planSlug) in after.plans && after.plans[(r.brandId, r.planSlug)] == Some(end)
  {
    hide Step, HasMarker, After;
    var grant := AcceptedUntil(start, end, now);
    var arrears := Deliver(StatusChange(PAST_DUE, ""), id, Unreachable, Accepted, Accepted, now);
    var mark := Asked(AskedName(w.row.value), ACTIVE, Some(end));
    ConfirmationGrants(w, cfg, start, end, now);
    var w1 := Step(w, cfg, grant);
    LastMarkIsNew(w.history, w1.history, mark, id);
    ArrearsWithdraw(w1, cfg, id, now);
    var w2 := Step(w1, cfg, arrears);
    MarkIsKept(w1.history, w2.history, mark);
    ConfirmationGrants(w2, cfg, start, end, now);
    ThreeActions(w, cfg, grant, arrears, grant);
  }

  lemma LastMarkIsNew(before: seq<Event>, after: seq<Event>, mark: DeliveryId, other: DeliveryId)
    requires |after| == |before| + 1 && after[..|before|] == before && after[|before|].delivery == Some(mark)
    ensures HasMarker(after, mark)
    ensures !HasMarker(before, other) && other != mark ==> !HasMarker(after, other)
  {
    assert after == before + [after[|before|]];
  }

  lemma MarkIsKept(before: seq<Event>, after: seq<Event>, mark: DeliveryId)
    requires |after| == |before| + 1 && after[..|before|] == before && HasMarker(before, mark)
    ensures HasMarker(after, mark)
  {
    assert after == before + [after[|before|]];
  }

  lemma ThreeActions(w: World, cfg: Config, a: Action, b: Action, c: Action)
    ensures After(w, cfg, [a, b, c]) == Step(Step(Step(w, cfg, a), cfg, b), cfg, c)
  {
    hide Step;
    var w1 := Step(w, cfg, a);
    var w2 := Step(w1, cfg, b);
    assert [a, b, c][1..] == [b, c];
    assert [b, c][1..] == [c];
    assert After(w2, cfg, [c]) == Step(w2, cfg, c);
    assert After(w1, cfg, [b, c]) == After(w2, cfg, [c]);
  }

  // ---------------------------------------------------------------- a pending cancellation

  /** A notification or confirmation, before `until`, that is not a report of arrears. */
  predicate Quiet(a: Action, until: Instant) {
    (a.Deliver? || a.Confirm?) && a.at < until
    && !(a.Deliver? && a.m.StatusChange? && ReportsArrears(a.m.wire))
  }

  predicate Sealed(w: World, until: Instant) {
    w.row.Some? && w.row.value.cancelledAt.Some? && w.row.value.accessEndsAt == Some(until)
  }

  lemma QuietStepKeepsAccess(w: World, cfg: Config, a: Action, until: Instant)
    requires Sealed(w, until) && Quiet(a, until)
    ensures var after := Step(w, cfg, a);
            Sealed(after, until) && after.plans == w.plans && after.row.value.cancelledAt == w.row.value.cancelledAt
  {
    hide LocalPeriod, TrialPeriod, ProviderPeriod, RowOk, HasMarker, Push;
  }

  /** While a cancellation is pending, no run of quiet messages moves the brand's plans or its date. */
  lemma {:induction false} PendingCancellationKeepsAccess(w: World, cfg: Config, run: seq<Action>, until: Instant)
    requires Sealed(w, until)
    requires forall i :: 0 <= i < |run| ==> Quiet(run[i], until)
    ensures var after := After(w, cfg, run);
            Sealed(after, until) && after.plans == w.plans && after.row.value.cancelledAt == w.row.value.cancelledAt
    decreases |run|
  {
    if run != [] {
      QuietStepKeepsAccess(w, cfg, run[0], until);
      PendingCancellationKeepsAccess(Step(w, cfg, run[0]), cfg, run[1..], until);
    }
  }

  /** An echo of our own cancellation, or a failed charge after it. */
  predicate Echo(a: Action) {
    a.Deliver? && (match a.m case Billing(succeeded, _) => !succeeded case StatusChange(wire, _) => ReportsDead(wire))
  }

  /** Echoes leave no trace at all; asking does not either, unless the row still waits for acceptance. */
  lemma EchoesHaveNoEffect(w: World, cfg: Config, a: Action, until: Instant)
    requires Sealed(w, until) && Quiet(a, until)
    ensures Echo(a) ==> Step(w, cfg, a) == w
    ensures a.Confirm? && !w.row.value.status.Pending? ==> Step(w, cfg, a) == w
  {
  }

  /**
   The exclusion is the whole of it: with the store answering, a fresh notification in the
   window takes the brand's plan exactly when it reports arrears.
   */
  lemma OnlyArrearsCutAccess(w: World, cfg: Config, a: Action, until: Instant)
    requires Sealed(w, until) && a.Deliver? && a.at < until && a.first.Accepted? && !HasMarker(w.history, a.id)
    requires w.row.value.brandId != "" && w.row.value.planSlug != ""
    requires (w.row.value.brandId, w.row.value.planSlug) in w.plans
    ensures (w.row.value.brandId, w.row.value.planSlug) in Step(w, cfg, a).plans
            <==> !(a.m.StatusChange? && ReportsArrears(a.m.wire))
  {
    if !(a.m.StatusChange? && ReportsArrears(a.m.wire)) {
      QuietStepKeepsAccess(w, cfg, a, until);
    }
  }

  // ---------------------------------------------------------------- cancelling

  /** A cancellation fully written: sealed, dated if live, not renewing, and traced. */
  predicate Registered(w: World) {
    && w.row.Some? && w.row.value.cancelledAt.Some? && !w.row.value.autoRenew
    && (IsLive(w.row.value.status) ==> w.row.value.accessEndsAt.Some?)
    && HasCancelTrace(w.history)
  }

  function CancelSucceeds(w: World, a: Action): bool
    requires a.Cancel?
  {
    Cancelling(w, a.reason, a.triggeredBy, a.gateway, a.stored, a.at).1
  }

  lemma CancelledRowIsSealed(r: Row, reason: string, registered: bool, now: Instant)
    ensures var out := CancelRow(r, reason, registered, now);
            out.cancelledAt.Some? && !out.autoRenew && (IsLive(out.status) ==> out.accessEndsAt.Some?)
  {
    hide AccessEnd, RowOk;
  }

  lemma AppendedTraceIsThere(history: seq<Event>, e: Event)
    requires e.kind.CancelledEvent?
    ensures HasCancelTrace(history + [e])
  {
    assert (history + [e])[|history|] == e;
  }

  lemma SuccessRegisters(w: World, cfg: Config, a: Action)
    requires a.Cancel?
    ensures CancelSucceeds(w, a) ==> Registered(Step(w, cfg, a))
  {
    hide UsableText, CancelName, CancelRow, HasCancelTrace;
    if w.row.Some? {
      var r := w.row.value;
      var name := if r.provider.Confio? then CancelName(r) else None;
      var registered := r.cancelledAt.Some? && HasCancelTrace(w.history);
      CancelledRowIsSealed(r, Trim(a.reason), registered, a.at);
      AppendedTraceIsThere(w.history, Event(CancelledEvent, Some(r.status), Some(r.status), None, None, name));
    }
  }

  lemma RegisteredCallIsFixed(w: World, cfg: Config, a: Action)
    requires Registered(w) && a.Cancel?
    ensures var next := Step(w, cfg, a); next.row == w.row && next.history == w.history
  {
    hide UsableText, CancelName, AccessEnd, RowOk, HasCancelTrace;
  }

  lemma {:induction false} RegisteredIsFixed(w: World, cfg: Config, run: seq<Action>)
    requires Registered(w)
    requires forall i :: 0 <= i < |run| ==> run[i].Cancel?
    ensures var after := After(w, cfg, run); after.row == w.row && after.history == w.history
    decreases |run|
  {
    hide Step;
    if run != [] {
      RegisteredCallIsFixed(w, cfg, run[0]);
      RegisteredIsFixed(Step(w, cfg, run[0]), cfg, run[1..]);
    }
  }

  /**
   After the first call that succeeds, any further calls — with any reasons, succeeding or
   failing at the provider or in storage — leave the whole row and the history as it left them.
   */
  lemma CancelIsIdempotent(w: World, cfg: Config, first: Action, again: seq<Action>)
    requires first.Cancel? && forall i :: 0 <= i < |again| ==> again[i].Cancel?
    ensures CancelSucceeds(w, first) ==>
              var once := Step(w, cfg, first);
              var after := After(once, cfg, again);
              after.row == once.row && after.history == once.history
  {
    hide Step, CancelSucceeds, After;
    SuccessRegisters(w, cfg, first);
    if CancelSucceeds(w, first) { RegisteredIsFixed(Step(w, cfg, first), cfg, again); }
  }

  /** A call that fails writes nothing here; one the provider rejects changes nothing anywhere. */
  lemma FailedCancelWritesNothing(w: World, cfg: Config, a: Action)
    requires a.Cancel? && !CancelSucceeds(w, a)
    ensures var after := Step(w, cfg, a);
            && after.row == w.row && after.history == w.history && after.plans == w.plans
            && w.canceled <= after.canceled
            && (a.gateway.Rejected? && w.row.Some? && w.row.value.provider.Confio? && CancelName(w.row.value).Some?
                ==> after == w)
  {
  }

  /** Every trace that says ConfioPagos confirmed names a subscription cancelled there. */
  predicate ConfirmedTracesHold(w: World) {
    forall e :: e in w.history && e.confirmedName.Some? ==> e.confirmedName.value in w.canceled
  }

  /** At most one more history row, honest about the provider, which forgets no cancellation. */
  predicate Extends(before: World, after: World) {
    && before.canceled <= after.canceled
    && |before.history| <= |after.history| <= |before.history| + 1
    && after.history[..|before.history|] == before.history
    && (|before.history| < |after.history| && after.history[|before.history|].confirmedName.Some?
        ==> after.history[|before.history|].confirmedName.value in after.canceled)
  }

  lemma StepAppendsAtMostOne(w: World, cfg: Config, a: Action)
    ensures Extends(w, Step(w, cfg, a))
  {
    hide Delivered, Asking, AskingThrows, TrialConverted, RenewedByCron, Retried, Cancelling, Starting, CheckedOut;
    match a {
      case Deliver(m, id, reply, first, second, at) => DeliveryExtends(w, m, id, reply, first, second, at);
      case Confirm(reply, first, second, at) => AskingExtends(w, reply, first, second, at);
      case ConvertTrial(charge, wallet, first, second, at) => TrialConversionExtends(w, cfg, charge, wallet, first, second, at);
      case Renew(reply, charge, wallet, first, second, at) => RenewalExtends(w, cfg, reply, charge, wallet, first, second, at);
      case Retry(last, charge, wallet, first, at) => RetryExtends(w, cfg, last, charge, wallet, first, at);
      case Cancel(reason, triggeredBy, gateway, stored, at) => CancellingExtends(w, reason, triggeredBy, gateway, stored, at);
      case StartTrial(brand, plan, phoneChanged, start, at) => StartingExtends(w, brand, plan, TrialStarted, start, at);
      case StartPaid(brand, plan, start, at) => StartingExtends(w, brand, plan, EventKind.Created, start, at);
      case Checkout(brand, plan, provider, wallet, first, at) => CheckoutExtends(w, cfg, brand, plan, provider, wallet, first, at);
      case _ =>
    }
  }

  lemma DeliveryExtends(w: World, m: Message, id: DeliveryId, reply: ProviderReply, first: Call, second: Call, now: Instant)
    ensures Extends(w, Delivered(w, m, id, reply, first, second, now))
  {
    hide Plan, Push, ApplyEffect, HasMarker;
  }

  lemma AskingExtends(w: World, reply: ProviderReply, first: Call, second: Call, now: Instant)
    ensures Extends(w, Asking(w, reply, first, second, now))
    ensures AskingThrows(w, reply, first, second, now) ==> Asking(w, reply, first, second, now).history == w.history
  {
    hide Ask, Push, ApplyEffect, HasMarker;
  }

  lemma ChargeExtends(w: World, r: Row, isRetry: bool, handled: bool, charge: ChargeReply)
    ensures Extends(w, Charged(w, r, isRetry, handled, charge))
  {
    hide ChargedRow;
  }

  lemma WalletRenewalExtends(w: World, r: Row, wallet: WalletReply, first: Call, now: Instant, days: int)
    ensures Extends(w, WalletRenewed(w, r, wallet, first, now, days))
  {
    hide ChargedRow, WalletRenewedRow;
  }

  lemma FailureExtends(w: World, r: Row)
    ensures Extends(w, RenewalFailed(w, r))
  {
    hide ChargedRow;
  }

  lemma TrialConversionExtends(w: World, cfg: Config, charge: ChargeReply, wallet: WalletReply, first: Call, second: Call, now: Instant)
    ensures Extends(w, TrialConverted(w, cfg, charge, wallet, first, second, now))
  {
    hide Charged, WalletRenewed, Degrade, DueTrial;
    if w.row.Some? {
      ChargeExtends(w, w.row.value, false, false, charge);
      WalletRenewalExtends(w, w.row.value, wallet, first, now, cfg.billingDays);
    }
  }

  lemma RenewalExtends(w: World, cfg: Config, reply: ProviderReply, charge: ChargeReply, wallet: WalletReply,
                       first: Call, second: Call, now: Instant)
    ensures Extends(w, RenewedByCron(w, cfg, reply, charge, wallet, first, second, now))
  {
    hide Asking, AskingThrows, IsRecurring, Charged, WalletRenewed, RenewalFailed, DueRenewal;
    AskingExtends(w, reply, first, second, now);
    if w.row.Some? {
      ChargeExtends(w, w.row.value, false, true, charge);
      WalletRenewalExtends(w, w.row.value, wallet, first, now, cfg.billingDays);
      FailureExtends(Asking(w, reply, first, second, now), w.row.value);
    }
  }

  lemma RetryExtends(w: World, cfg: Config, last: Instant, charge: ChargeReply, wallet: WalletReply, first: Call, now: Instant)
    ensures Extends(w, Retried(w, cfg, last, charge, wallet, first, now))
  {
    hide Charged, WalletRenewed;
    if w.row.Some? {
      ChargeExtends(w, w.row.value, true, true, charge);
      WalletRenewalExtends(w, w.row.value, wallet, first, now, cfg.billingDays);
    }
  }

  lemma CancellingExtends(w: World, reason: string, triggeredBy: string, gateway: GatewayReply, stored: bool, now: Instant)
    ensures Extends(w, Cancelling(w, reason, triggeredBy, gateway, stored, now).0)
  {
    hide UsableText, HasCancelTrace, CancelName, CancelRow, Trim;
  }

  lemma StartingExtends(w: World, brand: string, plan: string, kind: EventKind, start: StartReply, now: Instant)
    ensures Extends(w, Starting(w, brand, plan, kind, start, now))
  {
  }

  lemma CheckoutExtends(w: World, cfg: Config, brand: string, plan: string, provider: Provider, wallet: Option<string>, first: Call, now: Instant)
    ensures Extends(w, CheckedOut(w, cfg, brand, plan, provider, wallet, first, now))
  {
  }

  lemma StepKeepsConfirmedTraces(w: World, cfg: Config, a: Action)
    requires ConfirmedTracesHold(w)
    ensures ConfirmedTracesHold(Step(w, cfg, a))
  {
    hide Step;
    StepAppendsAtMostOne(w, cfg, a);
    var after := Step(w, cfg, a);
    forall e | e in after.history && e.confirmedName.Some? ensures e.confirmedName.value in after.canceled {
      var i :| 0 <= i < |after.history| && after.history[i] == e;
      if i < |w.history| {
        assert e == after.history[..|w.history|][i];
        assert e in w.history;
      }
    }
  }

  /** No interleaving of whole handlers and no failure can make a trace claim more than the provider did. */
  lemma {:induction false} ConfirmedOnlyIfCanceled(w: World, cfg: Config, run: seq<Action>)
    requires ConfirmedTracesHold(w)
    ensures ConfirmedTracesHold(After(w, cfg, run))
    decreases |run|
  {
    if run != [] {
      StepKeepsConfirmedTraces(w, cfg, run[0]);
      ConfirmedOnlyIfCanceled(Step(w, cfg, run[0]), cfg, run[1..]);
    }
  }

  // ---------------------------------------------------------------- one trial a brand

  predicate TrialSpent(w: World) { w.row.Some? && w.row.value.trialStart.Some? }

  /** The brand's row is still there and still says when its trial started. */
  predicate KeepsTrial(before: World, after: World) {
    TrialSpent(before) ==> TrialSpent(after) && after.row.value.trialStart == before.row.value.trialStart
  }

  lemma SettledKeepsTrial(w: World, r: Row, e: Effect, id: DeliveryId, first: Call, second: Call, now: Instant)
    requires w.row == Some(r)
    ensures KeepsTrial(w, Settled(w, r, e, id, first, second, now))
  {
    hide Push, HasMarker, RowOk;
  }

  lemma AskingKeepsTrial(w: World, reply: ProviderReply, first: Call, second: Call, now: Instant)
    ensures KeepsTrial(w, Asking(w, reply, first, second, now))
    ensures w.row.Some? ==> Asking(w, reply, first, second, now).row.Some?
  {
    hide Ask, Push, HasMarker, RowOk;
    if w.row.Some? && Ask(w.row.value, reply, now).Settle? {
      SettledKeepsTrial(w, w.row.value, Ask(w.row.value, reply, now).effect, Ask(w.row.value, reply, now).id, first, second, now);
    }
  }

  lemma ChargesKeepTrial(w: World, r: Row, isRetry: bool, handled: bool, charge: ChargeReply, wallet: WalletReply, first: Call, now: Instant, days: int)
    ensures var charged := Charged(w, r, isRetry, handled, charge).row;
            charged == w.row || (charged.Some? && charged.value.trialStart == r.trialStart)
    ensures var renewed := WalletRenewed(w, r, wallet, first, now, days).row;
            renewed == w.row || (renewed.Some? && renewed.value.trialStart == r.trialStart)
    ensures RenewalFailed(w, r).row.Some? && RenewalFailed(w, r).row.value.trialStart == r.trialStart
  {
    hide RowOk;
  }

  lemma CronKeepsTrial(w: World, cfg: Config, a: Action)
    requires a.ConvertTrial? || a.Renew? || a.Retry?
    ensures KeepsTrial(w, Step(w, cfg, a))
  {
    hide Charged, WalletRenewed, RenewalFailed, Asking, AskingThrows, IsRecurring, Degrade, RowOk;
    if w.row.Some? {
      var r := w.row.value;
      match a {
        case ConvertTrial(charge, wallet, first, second, at) =>
          ChargesKeepTrial(w, r, false, false, charge, wallet, first, at, cfg.billingDays);
        case Renew(reply, charge, wallet, first, second, at) =>
          ChargesKeepTrial(w, r, false, true, charge, wallet, first, at, cfg.billingDays);
          ChargesKeepTrial(Asking(w, reply, first, second, at), r, false, true, charge, wallet, first, at, cfg.billingDays);
          AskingKeepsTrial(w, reply, first, second, at);
        case Retry(last, charge, wallet, first, at) =>
          ChargesKeepTrial(w, r, true, true, charge, wallet, first, at, cfg.billingDays);
      }
    }
  }

  lemma StepKeepsTrial(w: World, cfg: Config, a: Action)
    ensures KeepsTrial(w, Step(w, cfg, a))
  {
    hide Asking, Plan, Settled, TrialConverted, RenewedByCron, Retried, Degrade, UsableText, CancelName, AccessEnd, RowOk, HasMarker;
    match a {
      case Deliver(m, id, reply, first, second, at) =>
        if w.row.Some? && Plan(m, w.row.value, reply, at).Some? {
          SettledKeepsTrial(w, w.row.value, Plan(m, w.row.value, reply, at).value, id, first, second, at);
        }
      case Confirm(reply, first, second, at) => AskingKeepsTrial(w, reply, first, second, at);
      case ConvertTrial(_, _, _, _, _) => CronKeepsTrial(w, cfg, a);
      case Renew(_, _, _, _, _, _) => CronKeepsTrial(w, cfg, a);
      case Retry(_, _, _, _, _) => CronKeepsTrial(w, cfg, a);
      case _ =>
    }
  }

  /** A brand whose trial has started keeps its start through any run, and can never start another. */
  lemma {:induction false} OneTrialPerBrand(w: World, cfg: Config, run: seq<Action>, again: Action)
    requires TrialSpent(w) && again.StartTrial?
    ensures var after := After(w, cfg, run);
            && TrialSpent(after) && after.row.value.trialStart == w.row.value.trialStart
            && Step(after, cfg, again) == after
    decreases |run|
  {
    if run != [] {
      hide Step;
      StepKeepsTrial(w, cfg, run[0]);
      OneTrialPerBrand(Step(w, cfg, run[0]), cfg, run[1..], again);
    }
  }

  // ---------------------------------------------------------------- across handlers

  predicate Untouched(r: Row) { r.autoRenew && r.cancelledAt.None? && r.cancelReason.None? && r.accessEndsAt.None? }

  /** The row without any cancellation, and renewing. */
  function Cleared(r: Row): Row { r.(cancelledAt := None, cancelReason := None, accessEndsAt := None, autoRenew := true) }

  lemma ReactivatedRowIsCleared(r: Row, reason: string, registered: bool, now: Instant)
    ensures ReactivateRow(CancelRow(r, reason, registered, now)) == Cleared(r)
    ensures IsLive(r.status) && !r.provider.Confio? ==> MayReactivate(CancelRow(r, reason, registered, now))
  {
    hide AccessEnd, RowOk;
  }

  lemma ClearedIsUntouched(r: Row)
    ensures Cleared(r) == r <==> Untouched(r)
  {
  }

  lemma CancellingWrites(w: World, reason: string, triggeredBy: string, gateway: GatewayReply, stored: bool, now: Instant)
    requires w.row.Some?
    ensures var done := Cancelling(w, reason, triggeredBy, gateway, stored, now);
            var registered := w.row.value.cancelledAt.Some? && HasCancelTrace(w.history);
            && done.0.plans == w.plans
            && (done.1 ==> done.0.row == Some(CancelRow(w.row.value, Trim(reason), registered, now)))
  {
    hide UsableText, HasCancelTrace, CancelName, CancelRow, Trim;
  }

  lemma SuccessfulCancelWrites(w: World, cfg: Config, a: Action)
    requires a.Cancel? && w.row.Some?
    ensures CancelSucceeds(w, a) ==>
              var registered := w.row.value.cancelledAt.Some? && HasCancelTrace(w.history);
              && Step(w, cfg, a).row == Some(CancelRow(w.row.value, Trim(a.reason), registered, a.at))
              && Step(w, cfg, a).plans == w.plans
  {
    hide Cancelling, HasCancelTrace, CancelRow, Trim;
    CancellingWrites(w, a.reason, a.triggeredBy, a.gateway, a.stored, a.at);
  }

  /**
   Reactivating undoes a cancellation, whole row and all, exactly when the row had none before:
   a row whose renewal was already off comes back renewing.
   */
  lemma ReactivateUndoesCancel(w: World, cfg: Config, a: Action)
    requires a.Cancel? && w.row.Some? && IsLive(w.row.value.status) && !w.row.value.provider.Confio?
    ensures CancelSucceeds(w, a) ==>
              var back := Step(Step(w, cfg, a), cfg, Reactivate);
              && back.plans == w.plans && back.row == Some(Cleared(w.row.value))
              && (back.row == w.row <==> Untouched(w.row.value))
  {
    hide Step, CancelSucceeds, CancelRow, ReactivateRow, MayReactivate, Cleared, Untouched, HasCancelTrace;
    if CancelSucceeds(w, a) {
      var r := w.row.value;
      var registered := r.cancelledAt.Some? && HasCancelTrace(w.history);
      SuccessfulCancelWrites(w, cfg, a);
      ReactivatedRowIsCleared(r, Trim(a.reason), registered, a.at);
      ClearedIsUntouched(r);
      ReactivationWrites(Step(w, cfg, a), cfg);
    }
  }

  lemma ReactivationWrites(w: World, cfg: Config)
    requires w.row.Some? && MayReactivate(w.row.value)
    ensures Step(w, cfg, Reactivate).row == Some(ReactivateRow(w.row.value)) && Step(w, cfg, Reactivate).plans == w.plans
  {
    hide ReactivateRow, MayReactivate;
  }

  /** Live, given up, and past the date its access ends. */
  predicate AccessIsOver(r: Row, now: Instant) {
    IsLive(r.status) && !r.autoRenew && r.accessEndsAt.Some? && r.accessEndsAt.value < now
  }

  /** Such a row is due in exactly one of the two hourly passes: the one of arrears has exhausted retries. */
  lemma LapsedRowsHaveOneOwner(r: Row, now: Instant, maxRetry: int)
    ensures AccessIsOver(r, now) ==> (DueClosing(r, now, maxRetry) <==> !DueExpiry(r, maxRetry))
    ensures DueClosing(r, now, maxRetry) ==> AccessIsOver(r, now)
  {
  }

  /** Until when the row has been paid for: the end of the trial in a trial that has one, else of the period. */
  function PaidUntil(r: Row, now: Instant): Instant {
    if r.status.Trial? && r.trialEnd.Some? then r.trialEnd.value
    else if r.currentPeriodEnd.Some? then r.currentPeriodEnd.value
    else now
  }

  /** What the first cancellation of a live row leaves: the row as it was, given up and dated. */
  lemma FirstCancelDatesAccess(w: World, cfg: Config, a: Action)
    requires a.Cancel? && w.row.Some? && IsLive(w.row.value.status) && Untouched(w.row.value)
    ensures CancelSucceeds(w, a) ==>
              && Step(w, cfg, a).plans == w.plans
              && Step(w, cfg, a).row
                 == Some(w.row.value.(cancelledAt := Some(a.at), cancelReason := Some(Trim(a.reason)), autoRenew := false,
                                      accessEndsAt := Some(PaidUntil(w.row.value, a.at))))
  {
    hide Step, CancelSucceeds, HasCancelTrace, RowOk;
    SuccessfulCancelWrites(w, cfg, a);
  }

  /** With the store answering, a closing pass closes a live row given up exactly when it is due. */
  lemma PassClosesIffDue(w: World, cfg: Config, later: Instant)
    requires LivePaid(w)
    ensures var passed := Step(w, cfg, CloseCancelled(Accepted, Accepted, later));
            && (passed == w <==> !DueClosing(w.row.value, later, cfg.maxRetry))
            && (Closed(passed) <==> DueClosing(w.row.value, later, cfg.maxRetry))
            && (Closed(passed) ==> OnFreeOnly(passed.plans, w.row.value) && passed.row.value.accessEndsAt.None?)
  {
    hide RowOk, DueClosing;
  }

  /**
   From cancelling to losing access: a live row cancelled for the first time keeps its plan through
   every pass until the end of what was paid for, and the first pass after it, if the store
   accepts, closes the row and leaves the brand on `free`.
   */
  lemma AccessLastsUntilItsEnd(w: World, cfg: Config, a: Action, later: Instant)
    requires a.Cancel? && LivePaid(w) && Untouched(w.row.value) && !DueExpiry(w.row.value, cfg.maxRetry)
    ensures CancelSucceeds(w, a) ==>
              var cancelled := Step(w, cfg, a);
              var passed := Step(cancelled, cfg, CloseCancelled(Accepted, Accepted, later));
              && cancelled.row.Some? && cancelled.plans == w.plans && cancelled.row.value.status == w.row.value.status
              && (passed == cancelled <==> later <= PaidUntil(w.row.value, a.at))
              && (Closed(passed) <==> later > PaidUntil(w.row.value, a.at))
              && (Closed(passed) ==> OnFreeOnly(passed.plans, w.row.value) && passed.row.value.accessEndsAt.None?)
  {
    hide Step, CancelSucceeds, PaidUntil;
    FirstCancelDatesAccess(w, cfg, a);
    if CancelSucceeds(w, a) { PassClosesIffDue(Step(w, cfg, a), cfg, later); }
  }

  /** Passes of the cron, at any instants and with any answers of the store. */
  predicate ClosingPasses(run: seq<Action>, until: Instant) {
    forall i :: 0 <= i < |run| ==> run[i].CloseCancelled? && run[i].at <= until
  }

  /** No number of passes up to the end of what was paid for changes anything. */
  lemma {:induction false} PassesBeforeItsEndDoNothing(w: World, cfg: Config, run: seq<Action>, until: Instant)
    requires w.row.Some? && w.row.value.accessEndsAt == Some(until) && ClosingPasses(run, until)
    ensures After(w, cfg, run) == w
    decreases |run|
  {
    if run != [] {
      hide Degrade, RowOk;
      assert Step(w, cfg, run[0]) == w;
      PassesBeforeItsEndDoNothing(w, cfg, run[1..], until);
    }
  }

  /**
   So from a first cancellation on, every pass until then leaves the row and its plan alone, and the
   first pass after it, with the store answering, leaves the brand on `free`.
   */
  lemma PaidAccessIsKept(w: World, cfg: Config, a: Action, run: seq<Action>, later: Instant)
    requires a.Cancel? && LivePaid(w) && Untouched(w.row.value) && !DueExpiry(w.row.value, cfg.maxRetry) && CancelSucceeds(w, a)
    requires ClosingPasses(run, PaidUntil(w.row.value, a.at)) && later > PaidUntil(w.row.value, a.at)
    ensures var cancelled := Step(w, cfg, a);
            var passed := Step(After(cancelled, cfg, run), cfg, CloseCancelled(Accepted, Accepted, later));
            && After(cancelled, cfg, run) == cancelled && cancelled.plans == w.plans
            && Closed(passed) && OnFreeOnly(passed.plans, w.row.value)
  {
    hide Step, CancelSucceeds, PaidUntil, After, ClosingPasses;
    FirstCancelDatesAccess(w, cfg, a);
    PassesBeforeItsEndDoNothing(Step(w, cfg, a), cfg, run, PaidUntil(w.row.value, a.at));
    AccessLastsUntilItsEnd(w, cfg, a, later);
  }

  /** A purchase leaves a row that renews from scratch, and the store, if it accepts, saying the same date. */
  lemma PurchaseAgrees(w: World, cfg: Config, a: Action)
    requires a.Checkout?
    ensures var after := Step(w, cfg, a);
            && after.row.Some? && Untouched(after.row.value) && after.row.value.status.Active? && after.row.value.retryCount == 0
            && after.row.value.planSlug == a.plan && after.row.value.currentPeriodStart == Some(a.at)
            && after.row.value.nextBillingDate == after.row.value.currentPeriodEnd
            && (!a.first.Refused? ==>
                  (a.brand, a.plan) in after.plans && after.plans[(a.brand, a.plan)] == after.row.value.currentPeriodEnd)
  {
  }

  /** An extension moves the end of pending access by as much as the period, and revives only arrears and expiry. */
  lemma ExtensionMovesBothEnds(w: World, cfg: Config, days: int)
    requires w.row.Some? && w.row.value.currentPeriodEnd.Some?
    ensures var r, out := w.row.value, Step(w, cfg, AdminExtend(days)).row.value;
            && out.currentPeriodEnd.Some? && out.nextBillingDate == out.currentPeriodEnd
            && out.currentPeriodEnd.value - r.currentPeriodEnd.value == days * MS_PER_DAY
            && (r.accessEndsAt.Some? <==> out.accessEndsAt.Some?)
            && (r.accessEndsAt.Some? ==>
                  out.accessEndsAt.value - out.currentPeriodEnd.value == r.accessEndsAt.value - r.currentPeriodEnd.value)
            && (out.status != r.status <==> r.status.PastDue? || r.status.Expired?)
            && out.autoRenew == r.autoRenew && out.cancelledAt == r.cancelledAt
  {
    hide RowOk;
  }
}
