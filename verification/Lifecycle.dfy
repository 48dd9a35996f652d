/**
 One brand's subscription with every actor that moves it, each handler one atomic step.

 The world is the brand's row, its history, the plans every brand holds, the subscriptions the
 provider has cancelled and how many payment links have been issued.
 */
module Lifecycle {
  import opened Basics
  import opened Subscriptions
  import opened ConfioWebhook
  import opened RowMoves
  import opened Text

  /** `MAX_PAYMENT_RETRY_COUNT` and `BILLING_PERIOD_DAYS`. */
  datatype Config = Config(maxRetry: int, billingDays: int)

  datatype World = World(
    row: Option<Row>,
    history: seq<Event>,
    plans: PlanStore,
    canceled: set<string>,
    links: nat
  )

  /**
   What became of a link. `NotEmitted` and `FailedAfterLink`: an error before the link, or after it,
   and the save of the catch landed. `SavesLost`: that save failed too; `saved` says whether the
   first one landed, `recovered` whether that of the caller's own catch did.
   */
  datatype ChargeReply =
    | Emitted
    | NotEmitted
    | FailedAfterLink
    | SavesLost(linked: bool, saved: bool, recovered: bool)

  /** `DebitReturnedError`: `debit` swallowed a storage error and returned it unthrown. */
  datatype DebitReply = FreeOfCharge | Debited | DebitThrew | DebitReturnedError

  /**
   What became of a renewal out of the wallet: the debit, the save of the renewed row, the save of
   its event, and what the cron's catch then saves if any of them threw.
   */
  datatype WalletReply = WalletReply(debit: DebitReply, row: Call, eventSaved: bool, recovered: bool)

  const NO_FAILURE := WalletReply(Debited, Accepted, true, true)

  /** `Unheard`: the provider cancelled and its answer was lost. */
  datatype GatewayReply = Confirmed | Rejected | Unheard

  /** Creating at the provider cancels the subscription it replaces first. */
  datatype StartReply = CreateFailed(replacedCanceled: bool) | Created(name: string, stored: bool)

  datatype Action =
    | Deliver(m: Message, id: DeliveryId, reply: ProviderReply, first: Call, second: Call, at: Instant)
    | Confirm(reply: ProviderReply, first: Call, second: Call, at: Instant)
    | ConvertTrial(charge: ChargeReply, wallet: WalletReply, first: Call, second: Call, at: Instant)
    | Renew(reply: ProviderReply, charge: ChargeReply, wallet: WalletReply, first: Call, second: Call, at: Instant)
    | Retry(lastAttempt: Instant, charge: ChargeReply, wallet: WalletReply, first: Call, at: Instant)
    | ExpireArrears(first: Call, second: Call)
    | CloseCancelled(first: Call, second: Call, at: Instant)
    | Cancel(reason: string, triggeredBy: string, gateway: GatewayReply, stored: bool, at: Instant)
    | Reactivate
    | StartTrial(brand: string, plan: string, phoneChanged: bool, start: StartReply, at: Instant)
    | StartPaid(brand: string, plan: string, start: StartReply, at: Instant)
    | Checkout(brand: string, plan: string, provider: Provider, walletId: Option<string>, first: Call, at: Instant)
    | AdminExtend(days: int)
    | ChangePlan(plan: string)

  // ---------------------------------------------------------------- webhook and confirmation

  /** Push the access movement; only if it is accepted, write row and history together. */
  function Settled(w: World, r: Row, e: Effect, id: DeliveryId, first: Call, second: Call, now: Instant): World {
    var pushed := if e.roles.Some? then Push(w.plans, e.roles.value, first, second) else (w.plans, true);
    if !pushed.1 || HasMarker(w.history, id) then w.(plans := pushed.0)
    else w.(row := Some(ApplyEffect(r, e, now)), history := w.history + [TraceOf(r, e, id)], plans := pushed.0)
  }

  function Delivered(w: World, m: Message, id: DeliveryId, reply: ProviderReply, first: Call, second: Call, now: Instant): World {
    if w.row.None? || HasMarker(w.history, id) then w
    else match Plan(m, w.row.value, reply, now)
      case None => w
      case Some(e) => Settled(w, w.row.value, e, id, first, second, now)
  }

  function Asking(w: World, reply: ProviderReply, first: Call, second: Call, now: Instant): World {
    if w.row.None? then w
    else match Ask(w.row.value, reply, now)
      case Settle(e, id) => Settled(w, w.row.value, e, id, first, second, now)
      case _ => w
  }

  /** The answer of a confirmation is an exception exactly when its push is refused. */
  predicate AskingThrows(w: World, reply: ProviderReply, first: Call, second: Call, now: Instant) {
    w.row.Some? &&
    match Ask(w.row.value, reply, now)
    case Settle(e, _) => e.roles.Some? && !Push(w.plans, e.roles.value, first, second).1
    case _ => false
  }

  // ---------------------------------------------------------------- crons

  /** Degrading a row taken by a cron; a row without brand or plan has nothing to move. */
  function Degrade(plans: PlanStore, r: Row, first: Call, second: Call): (PlanStore, bool) {
    if r.brandId == "" || r.planSlug == "" then (plans, true)
    else DowngradeToFree(plans, r.brandId, r.planSlug, first, second)
  }

  function Logged(w: World, kind: EventKind, from: Status, to: Status): World {
    w.(history := w.history + [PlainEvent(kind, Some(from), Some(to))])
  }

  /**
   `issueExternalCharge` and the catch of its caller, if it has one: the row falls into arrears
   whether or not the link went out, unless no save lands at all.
   */
  function Charged(w: World, r: Row, isRetry: bool, handled: bool, charge: ChargeReply): World {
    var once := if isRetry then 1 else 0;
    match charge
    case NotEmitted => w.(row := Some(ChargedRow(r, once)))
    case Emitted => Logged(w, PaymentFailed, r.status, PastDue).(row := Some(ChargedRow(r, once)), links := w.links + 1)
    case FailedAfterLink => w.(row := Some(ChargedRow(r, 2 * once)), links := w.links + 1)
    case SavesLost(linked, saved, recovered) =>
      var told := if linked then w.(links := w.links + 1) else w;
      if handled && recovered then RenewalFailed(told, ChargedRow(r, if linked then 2 * once else once))
      else if linked && saved then told.(row := Some(ChargedRow(r, once)))
      else told
  }

  function RenewalFailed(w: World, r: Row): World {
    Logged(w, PaymentFailed, PastDue, PastDue).(row := Some(ChargedRow(r, 1)))
  }

  /** The catch of a cron, on the copy in memory as the failure left it. */
  function Caught(w: World, copy: Row, recovered: bool): World { if recovered then RenewalFailed(w, copy) else w }

  /** `renewFromWallet` under the cron's catch. */
  function WalletRenewed(w: World, r: Row, wallet: WalletReply, first: Call, now: Instant, days: int): World {
    if wallet.debit.DebitThrew? then Caught(w, r, wallet.recovered)
    else
      var renewed := WalletRenewedRow(r, now, days);
      var kept := if wallet.row.Refused? then w else w.(row := Some(renewed));
      if !wallet.row.Accepted? then Caught(kept, renewed, wallet.recovered)
      else
        var key := (r.brandId, r.planSlug);
        var pushed := kept.(plans := if first.Refused? || key !in w.plans then w.plans else w.plans[key := renewed.currentPeriodEnd]);
        if wallet.debit.FreeOfCharge? then pushed
        else if wallet.eventSaved then Logged(pushed, Renewed, Active, Active)
        else Caught(pushed, renewed, wallet.recovered)
  }

  function TrialConverted(w: World, cfg: Config, charge: ChargeReply, wallet: WalletReply, first: Call, second: Call, now: Instant): World {
    if w.row.None? || !DueTrial(w.row.value, now) then w
    else
      var r := w.row.value;
      if r.provider.InternalWallet? then
        if r.walletId.None? then
          var moved := Degrade(w.plans, r, first, second);
          if !moved.1 then w.(plans := moved.0)
          else Logged(w, TrialEnded, Trial, Expired).(row := Some(TrialEndedRow(r)), plans := moved.0)
        else WalletRenewed(w, r, wallet, first, now, cfg.billingDays)
      else if r.initialPaymentLinkIssuedAt.Some? then w
      else Charged(w, r, false, false, charge)
  }

  function RenewedByCron(w: World, cfg: Config, reply: ProviderReply, charge: ChargeReply, wallet: WalletReply,
                         first: Call, second: Call, now: Instant): World {
    if w.row.None? || !DueRenewal(w.row.value, now) then w
    else
      var r := w.row.value;
      if r.provider.InternalWallet? && r.walletId.Some? then WalletRenewed(w, r, wallet, first, now, cfg.billingDays)
      else if IsRecurring(r) then
        var asked := Asking(w, reply, first, second, now);
        if AskingThrows(w, reply, first, second, now) then RenewalFailed(asked, r) else asked
      else if r.provider.Confio? && r.status.Active? then Charged(w, r, false, true, charge)
      else w
  }

  predicate BackoffElapsed(r: Row, lastAttempt: Instant, now: Instant) {
    lastAttempt + (r.retryCount + 1) * MS_PER_DAY <= now
  }

  function Retried(w: World, cfg: Config, lastAttempt: Instant, charge: ChargeReply, wallet: WalletReply, first: Call, now: Instant): World {
    if w.row.None? || !DueRetry(w.row.value) then w
    else
      var r := w.row.value;
      if r.retryCount >= cfg.maxRetry || !BackoffElapsed(r, lastAttempt, now) then w
      else if r.provider.InternalWallet? && r.walletId.Some? then WalletRenewed(w, r, wallet, first, now, cfg.billingDays)
      else if r.provider.Confio? then Charged(w, r, true, true, charge)
      else w
  }

  /** `expireSubscriptions`: downgrade first; a refusal only stops the recurring charge. */
  function ArrearsExpired(w: World, cfg: Config, first: Call, second: Call): World {
    if w.row.None? || !DueExpiry(w.row.value, cfg.maxRetry) then w
    else
      var r := w.row.value;
      var moved := Degrade(w.plans, r, first, second);
      if !moved.1 then w.(row := Some(r.(autoRenew := false)), plans := moved.0)
      else Logged(w, ExpiredEvent, PastDue, Expired).(row := Some(ExpiredRow(r)), plans := moved.0)
  }

  function CancelledClosed(w: World, cfg: Config, first: Call, second: Call, now: Instant): World {
    if w.row.None? || !DueClosing(w.row.value, now, cfg.maxRetry) then w
    else
      var r := w.row.value;
      var moved := Degrade(w.plans, r, first, second);
      if !moved.1 then w.(plans := moved.0)
      else Logged(w, ExpiredEvent, r.status, Cancelled).(row := Some(ClosedRow(r)), plans := moved.0)
  }

  // ---------------------------------------------------------------- cancel and start

  const MAX_CANCEL_REASON_LENGTH: int := 500
  const MAX_TRIGGERED_BY_LENGTH: int := 255

  predicate UsableText(text: string, limit: int) { Trim(text) != "" && |Trim(text)| <= limit }

  /** The first of the two names that is not blank. */
  function CancelName(r: Row): Option<string> {
    if Trim(r.confioName) != "" then Some(Trim(r.confioName))
    else if Trim(r.providerSubscriptionId) != "" then Some(Trim(r.providerSubscriptionId))
    else None
  }

  predicate HasCancelTrace(history: seq<Event>) { exists e :: e in history && e.kind.CancelledEvent? }

  /** Provider first, then row and trace in one transaction; the flag is whether the caller got 200. */
  function Cancelling(w: World, reason: string, triggeredBy: string, gateway: GatewayReply, stored: bool, now: Instant): (World, bool) {
    if !UsableText(reason, MAX_CANCEL_REASON_LENGTH) || !UsableText(triggeredBy, MAX_TRIGGERED_BY_LENGTH) || w.row.None?
    then (w, false)
    else
      var r := w.row.value;
      var name := if r.provider.Confio? then CancelName(r) else None;
      if name.Some? && gateway.Rejected? then (w, false)
      else
        var told := if name.Some? then w.(canceled := w.canceled + {name.value}) else w;
        if (name.Some? && gateway.Unheard?) || !stored then (told, false)
        else
          var registered := r.cancelledAt.Some? && HasCancelTrace(w.history);
          var trace := Event(CancelledEvent, Some(r.status), Some(r.status), None, None, name);
          (told.(row := Some(CancelRow(r, Trim(reason), registered, now)),
                 history := if registered then w.history else w.history + [trace]), true)
  }

  function Starting(w: World, brand: string, plan: string, kind: EventKind, start: StartReply, now: Instant): World {
    var replaced := if w.row.Some? && AskedName(w.row.value) != "" then {AskedName(w.row.value)} else {};
    match start
    case CreateFailed(gone) => if gone then w.(canceled := w.canceled + replaced) else w
    case Created(name, stored) =>
      var told := w.(canceled := w.canceled + replaced);
      if !stored then told
      else
        var from := if w.row.Some? then Some(w.row.value.status) else None;
        told.(row := Some(StartRow(w.row, brand, plan, name, now)), history := w.history + [PlainEvent(kind, from, Some(Pending))])
  }

  // ---------------------------------------------------------------- checkout

  /** The paid plan is assigned whatever the store answers. */
  function CheckedOut(w: World, cfg: Config, brand: string, plan: string, provider: Provider, wallet: Option<string>, first: Call, now: Instant): World {
    var until := Some(now + cfg.billingDays * MS_PER_DAY);
    var plans := Assign(w.plans, brand, plan, until, first);
    match w.row
    case None =>
      w.(row := Some(BoughtRow(brand, plan, provider, wallet, now, cfg.billingDays)), plans := plans,
         history := w.history + [PlainEvent(EventKind.Created, None, Some(Active))])
    case Some(r) =>
      w.(row := Some(RenewedRow(r, plan, provider, wallet, now, cfg.billingDays)), plans := plans,
         history := w.history + [PlainEvent(if r.planSlug != plan then PlanChanged else Renewed, Some(r.status), Some(Active))])
  }

  // ---------------------------------------------------------------- the machine

  function Step(w: World, cfg: Config, a: Action): World {
    match a
    case Deliver(m, id, reply, first, second, at) => Delivered(w, m, id, reply, first, second, at)
    case Confirm(reply, first, second, at) => Asking(w, reply, first, second, at)
    case ConvertTrial(charge, wallet, first, second, at) => TrialConverted(w, cfg, charge, wallet, first, second, at)
    case Renew(reply, charge, wallet, first, second, at) => RenewedByCron(w, cfg, reply, charge, wallet, first, second, at)
    case Retry(lastAttempt, charge, wallet, first, at) => Retried(w, cfg, lastAttempt, charge, wallet, first, at)
    case ExpireArrears(first, second) => ArrearsExpired(w, cfg, first, second)
    case CloseCancelled(first, second, at) => CancelledClosed(w, cfg, first, second, at)
    case Cancel(reason, triggeredBy, gateway, stored, at) => Cancelling(w, reason, triggeredBy, gateway, stored, at).0
    case Reactivate =>
      if w.row.None? || !MayReactivate(w.row.value) then w
      else Logged(w, Reactivated, w.row.value.status, w.row.value.status).(row := Some(ReactivateRow(w.row.value)))
    case StartTrial(brand, plan, phoneChanged, start, at) =>
      if TrialGuard(w.row, plan, phoneChanged).Some? then w else Starting(w, brand, plan, TrialStarted, start, at)
    case StartPaid(brand, plan, start, at) =>
      if PaidGuard(w.row, plan).Some? then w else Starting(w, brand, plan, EventKind.Created, start, at)
    case Checkout(brand, plan, provider, wallet, first, at) => CheckedOut(w, cfg, brand, plan, provider, wallet, first, at)
    case AdminExtend(days) => if w.row.None? then w else w.(row := Some(ExtendedRow(w.row.value, days)))
    case ChangePlan(plan) =>
      if w.row.None? then w
      else w.(row := Some(w.row.value.(planSlug := plan)), history := w.history + [PlainEvent(PlanChanged, None, None)])
  }

  function After(w: World, cfg: Config, run: seq<Action>): World
    decreases |run|
  {
    if run == [] then w else After(Step(w, cfg, run[0]), cfg, run[1..])
  }
}
