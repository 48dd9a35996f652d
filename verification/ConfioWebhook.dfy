/**
 What a ConfioPagos notification, or our own question to ConfioPagos, does to a row.

 `src/webhook/confio-subscription-webhook.service.ts` and the period fallbacks of
 `src/webhook/confio-period.util.ts`. Planning computes an effect from the row as it was read;
 applying it is a function of the row found under the lock.
 */
module ConfioWebhook {
  import opened Basics
  import opened Subscriptions
  import Calendar

  datatype Period = Period(start: Instant, end: Instant, nextBilling: Instant)

  datatype Effect = Effect(
    kind: EventKind,
    toStatus: Status,
    period: Option<Period>,       // present exactly when the effect advances the period
    resetsRetries: bool,
    sealsCancellation: bool,
    sealsTrial: bool,
    roles: Option<RolesMove>
  )

  /** The two signed notifications. `name` is `data.name`, "" when absent. */
  datatype Message =
    | Billing(succeeded: bool, name: string)
    | StatusChange(wire: Wire, name: string)

  /** What `getSubscription` brought back. */
  datatype ProviderReply =
    | Unreachable
    | Found(wire: Wire, start: Option<Instant>, end: Option<Instant>, nextBilling: Option<Instant>)

  // ---------------------------------------------------------------- periods

  /** A local monthly cycle from the previous period end, floored at the present. */
  function LocalPeriod(r: Row, now: Instant): (p: Period)
    ensures now <= p.start && p.start + 28 * MS_PER_DAY <= p.end && p.nextBilling == p.end
    ensures r.currentPeriodEnd.Some? ==> r.currentPeriodEnd.value <= p.start
    ensures p.start == now || Some(p.start) == r.currentPeriodEnd
  {
    var start := match r.currentPeriodEnd
      case Some(end) => if end > now then end else now
      case None => now;
    Period(start, Calendar.AddOneMonth(start), Calendar.AddOneMonth(start))
  }

  /** The trial already promised on the row, if it has not ended. */
  function TrialPeriod(r: Row, now: Instant): (p: Option<Period>)
    ensures p.Some? ==> Some(p.value.end) == r.trialEnd && now < p.value.end
  {
    match r.trialEnd
    case Some(end) => if end <= now then None else Some(Period(r.trialStart.UnwrapOr(now), end, end))
    case None => None
  }

  /** The provider's period, if it can be read, is complete and has not ended. */
  function ProviderPeriod(name: string, r: Row, reply: ProviderReply, now: Instant): (p: Option<Period>)
    ensures p.Some? ==> now < p.value.end
  {
    if name == "" && r.providerSubscriptionId == "" then None
    else match reply
      case Unreachable => None
      case Found(_, start, end, nextBilling) =>
        if start.Some? && end.Some? && nextBilling.Some? && end.value > now
        then Some(Period(start.value, end.value, nextBilling.value))
        else None
  }

  // ---------------------------------------------------------------- planning

  /** Only a cancellation is sealed, and a trial is sealed with the period that opened it. */
  predicate EffectOk(e: Effect) {
    (e.sealsCancellation ==> e.toStatus.Cancelled?) && (e.sealsTrial ==> e.period.Some?)
  }

  predicate GivenUp(r: Row) { IsTerminal(r.status) || r.cancelledAt.Some? }

  /** The movement, or nothing when the row cannot name brand and plan. */
  function MoveFor(action: RolesAction, r: Row, until: Option<Instant>): (m: Option<RolesMove>)
    ensures m.Some? <==> r.brandId != "" && r.planSlug != ""
    ensures m.Some? ==> m.value == RolesMove(action, r.brandId, r.planSlug, until)
  {
    if r.brandId == "" || r.planSlug == "" then None else Some(RolesMove(action, r.brandId, r.planSlug, until))
  }

  function PlanBilling(succeeded: bool, name: string, r: Row, reply: ProviderReply, now: Instant): (e: Option<Effect>)
    ensures e.Some? ==> EffectOk(e.value)
  {
    if !succeeded then
      if GivenUp(r) then None
      else Some(Effect(PaymentFailed, PastDue, None, false, false, false, MoveFor(Withdraw, r, None)))
    else
      var period := ProviderPeriod(name, r, reply, now).UnwrapOr(LocalPeriod(r, now));
      var revives := IsTerminal(r.status) || CancellationPending(r, now);
      Some(Effect(PaymentSucceeded, Active, Some(period), true, false, false,
                  if revives then None else MoveFor(Restore, r, Some(period.end))))
  }

  /** The explicit map from the provider's status to ours. */
  function StatusFor(wire: Wire): Option<Status> {
    match wire
    case TRIALING => Some(Trial)
    case ACTIVE => Some(Active)
    case PAST_DUE => Some(PastDue)
    case SUSPENDED => Some(PastDue)
    case CANCELED => Some(Cancelled)
    case EXPIRED => Some(Expired)
    case _ => None
  }

  predicate Grants(wire: Wire) { wire.TRIALING? || wire.ACTIVE? }

  predicate ReportsDead(wire: Wire) { wire.CANCELED? || wire.EXPIRED? }

  predicate ReportsArrears(wire: Wire) { wire.PAST_DUE? || wire.SUSPENDED? }

  /** The provider accepted the subscription: this is where the brand gains access. */
  function PlanGrant(name: string, r: Row, wire: Wire, reply: ProviderReply, now: Instant): (e: Option<Effect>)
    requires Grants(wire)
    ensures e.Some? ==> EffectOk(e.value)
    ensures e.Some? && e.value.roles.Some? ==> e.value.period.Some?
  {
    var toStatus := StatusFor(wire).value;
    if IsTerminal(r.status) || CancellationPending(r, now) then
      Some(Effect(ConfirmationNotGranted, toStatus, None, false, false, false, None))
    else
      var remote := ProviderPeriod(name, r, reply, now);
      var period := if remote.Some? then remote
                    else if toStatus.Trial? then TrialPeriod(r, now)
                    else Some(LocalPeriod(r, now));
      match period
      case None => Some(Effect(ConfirmationNotGranted, r.status, None, false, false, false, None))
      case Some(p) =>
        if r.status == toStatus && r.currentPeriodEnd == Some(p.end) then None
        else Some(Effect(ConfirmationGranted, toStatus, Some(p), false, false,
                         toStatus.Trial? && r.trialStart.None?, MoveFor(Restore, r, Some(p.end))))
  }

  function PlanStatus(wire: Wire, name: string, r: Row, reply: ProviderReply, now: Instant): (e: Option<Effect>)
    ensures e.Some? ==> EffectOk(e.value)
  {
    match StatusFor(wire)
    case None => None
    case Some(toStatus) =>
      if IsTerminal(toStatus) && IsTerminal(r.status) then None
      else if IsTerminal(toStatus) && CancellationPending(r, now) then None
      else if Grants(wire) then PlanGrant(name, r, wire, reply, now)
      else
        var kind := if ReportsArrears(wire) then PaymentFailed else if wire.CANCELED? then CancelledEvent else ExpiredEvent;
        Some(Effect(kind, toStatus, None, false, toStatus.Cancelled?, false,
                    MoveFor(if IsTerminal(toStatus) then Downgrade else Withdraw, r, None)))
  }

  function Plan(m: Message, r: Row, reply: ProviderReply, now: Instant): (e: Option<Effect>)
    ensures e.Some? ==> EffectOk(e.value)
  {
    match m
    case Billing(succeeded, name) => PlanBilling(succeeded, name, r, reply, now)
    case StatusChange(wire, name) => PlanStatus(wire, name, r, reply, now)
  }

  // ---------------------------------------------------------------- asking the provider

  datatype Question =
    | NoSubscription
    | Unavailable
    | NotConfirmed
    | NoEffect
    | Settle(effect: Effect, id: DeliveryId)

  /** What asking leads to: an effect to push and apply, or nothing to write. */
  function Ask(r: Row, reply: ProviderReply, now: Instant): (q: Question)
    ensures q.Settle? ==> EffectOk(q.effect)
  {
    var name := AskedName(r);
    if name == "" then NoSubscription
    else match reply
      case Unreachable => Unavailable
      case Found(wire, _, _, _) =>
        if ReportsDead(wire) && r.status.Pending? then
          var cancelled := wire.CANCELED?;
          Settle(Effect(if cancelled then CancelledEvent else ExpiredEvent, if cancelled then Cancelled else Expired,
                        None, false, cancelled, false, None),
                 Asked(name, wire, None))
        else if !Grants(wire) then NotConfirmed
        else match PlanGrant(name, r, wire, reply, now)
          case None => NoEffect
          case Some(effect) =>
            if effect.roles.None? then NoEffect
            else Settle(effect, Asked(name, wire, Some(effect.period.value.end)))
  }

  // ---------------------------------------------------------------- applying

  /** The row after the effect, computed on the row found under the lock. */
  function ApplyEffect(r: Row, e: Effect, now: Instant): (out: Row)
    ensures RowOk(r) && EffectOk(e) ==> RowOk(out)
    ensures out.accessEndsAt == r.accessEndsAt && out.status == e.toStatus
  {
    var sealed := r.(
      status := e.toStatus,
      retryCount := if e.resetsRetries then 0 else r.retryCount,
      cancelledAt := if e.sealsCancellation && r.cancelledAt.None? then Some(now) else r.cancelledAt,
      autoRenew := r.autoRenew && !IsTerminal(e.toStatus));
    match e.period
    case None => sealed
    case Some(p) =>
      var moved := sealed.(currentPeriodStart := Some(p.start), currentPeriodEnd := Some(p.end), nextBillingDate := Some(p.nextBilling));
      if e.sealsTrial && r.trialStart.None? then moved.(trialStart := Some(p.start), trialEnd := Some(p.end)) else moved
  }

  /** The history row an applied effect leaves. */
  function TraceOf(r: Row, e: Effect, id: DeliveryId): Event {
    Event(e.kind, Some(r.status), Some(e.toStatus), Some(id), e.roles, None)
  }
}
