/**
 What hearing from ConfioPagos leaves, field by field, on row, history and plan store: the service's
 promises for each notification (`src/webhook/confio-subscription-webhook.service.ts`), stated
 without the plan of the effect or its application.
 */
module Notifications {
  import opened Basics
  import opened Subscriptions
  import opened ConfioWebhook
  import opened RowMoves
  import opened Lifecycle
  import Calendar
  import LifecycleTheorems

  /** The row names a brand and a plan, so there is something to move. */
  predicate Named(r: Row) { r.brandId != "" && r.planSlug != "" }

  function Key(r: Row): (string, string) { (r.brandId, r.planSlug) }

  /** A notification of this brand, not heard before, and a plan store that answers. */
  function Heard(w: World, cfg: Config, m: Message, id: DeliveryId, reply: ProviderReply, now: Instant): World {
    Step(w, cfg, Deliver(m, id, reply, Accepted, Accepted, now))
  }

  predicate Fresh(w: World, id: DeliveryId) { w.row.Some? && !HasMarker(w.history, id) }

  /** The row is this now, and one marked entry tells of it. */
  predicate Becomes(w: World, after: World, row: Row, kind: EventKind, id: DeliveryId, move: Option<RolesMove>) {
    && w.row.Some? && after.row == Some(row)
    && after.history == w.history + [Event(kind, Some(w.row.value.status), Some(row.status), Some(id), move, None)]
    && after.canceled == w.canceled && after.links == w.links
  }

  /** The brand is off its paid plan and on `free` for good; nothing else in the store moves. */
  predicate OnFree(before: PlanStore, after: PlanStore, r: Row) {
    if r.planSlug == FREE_PLAN then after == before
    else after == (before - {Key(r)})[(r.brandId, FREE_PLAN) := None]
  }

  lemma AcceptedPushLands(plans: PlanStore, move: RolesMove)
    ensures var done := Push(plans, move, Accepted, Accepted);
            && done.1
            && (match move.action
                case Withdraw => done.0 == plans - {(move.brandId, move.planSlug)}
                case Restore => done.0 == plans[(move.brandId, move.planSlug) := move.expiresAt]
                case Downgrade =>
                  done.0 == if move.planSlug == FREE_PLAN then plans
                            else (plans - {(move.brandId, move.planSlug)})[(move.brandId, FREE_PLAN) := None])
  {
  }

  function Moved(plans: PlanStore, roles: Option<RolesMove>): PlanStore {
    if roles.Some? then Push(plans, roles.value, Accepted, Accepted).0 else plans
  }

  /** With the store answering, a planned effect is applied, told and pushed. */
  lemma HeardIs(w: World, cfg: Config, m: Message, id: DeliveryId, reply: ProviderReply, now: Instant)
    requires Fresh(w, id)
    ensures var e, after := Plan(m, w.row.value, reply, now), Heard(w, cfg, m, id, reply, now);
            if e.None? then after == w
            else
              after == w.(row := Some(ApplyEffect(w.row.value, e.value, now)),
                          history := w.history + [TraceOf(w.row.value, e.value, id)], plans := Moved(w.plans, e.value.roles))
    ensures var e := Plan(m, w.row.value, reply, now);
            e.Some? && e.value.roles.Some? ==> Push(w.plans, e.value.roles.value, Accepted, Accepted).1
  {
    hide HasMarker, RowOk, Plan, ApplyEffect, TraceOf, Push;
    var e := Plan(m, w.row.value, reply, now);
    if e.Some? && e.value.roles.Some? { AcceptedPushLands(w.plans, e.value.roles.value); }
  }

  /** The effect names this movement, so the store ends so. */
  lemma MovesTo(plans: PlanStore, roles: Option<RolesMove>)
    ensures roles.None? ==> Moved(plans, roles) == plans
    ensures roles.Some? && roles.value.action.Withdraw? ==>
              Moved(plans, roles) == plans - {(roles.value.brandId, roles.value.planSlug)}
    ensures roles.Some? && roles.value.action.Restore? ==>
              Moved(plans, roles) == plans[(roles.value.brandId, roles.value.planSlug) := roles.value.expiresAt]
    ensures roles.Some? && roles.value.action.Downgrade? ==>
              Moved(plans, roles) == if roles.value.planSlug == FREE_PLAN then plans
                                     else (plans - {(roles.value.brandId, roles.value.planSlug)})[(roles.value.brandId, FREE_PLAN) := None]
  {
    hide Push;
    if roles.Some? { AcceptedPushLands(plans, roles.value); }
  }

  /** An effect planned on the row, applied, told and moved: what all these lemmas read back. */
  lemma HeardMoves(w: World, cfg: Config, m: Message, id: DeliveryId, reply: ProviderReply, now: Instant)
    requires Fresh(w, id)
    ensures var e, after := Plan(m, w.row.value, reply, now), Heard(w, cfg, m, id, reply, now);
            if e.None? then after == w
            else
              && after.row == Some(ApplyEffect(w.row.value, e.value, now))
              && after.history == w.history + [TraceOf(w.row.value, e.value, id)]
              && after.plans == Moved(w.plans, e.value.roles) && after.canceled == w.canceled && after.links == w.links
  {
    hide Heard, Moved, Plan, ApplyEffect, TraceOf, Push;
    HeardIs(w, cfg, m, id, reply, now);
  }

  // ---------------------------------------------------------------- charges

  /** The first failed charge cuts access: arrears, and the plan withdrawn; a row given up hears nothing of it. */
  lemma FailedChargeCutsAccess(w: World, cfg: Config, name: string, id: DeliveryId, reply: ProviderReply, now: Instant)
    requires Fresh(w, id) && Named(w.row.value)
    ensures var r, after := w.row.value, Heard(w, cfg, Billing(false, name), id, reply, now);
            if IsTerminal(r.status) || r.cancelledAt.Some? then after == w
            else
              && Becomes(w, after, r.(status := PastDue), PaymentFailed, id, Some(RolesMove(Withdraw, r.brandId, r.planSlug, None)))
              && after.plans == w.plans - {Key(r)}
  {
    hide Heard, Moved, Push, RowOk, HasMarker;
    HeardMoves(w, cfg, Billing(false, name), id, reply, now);
    var e := Plan(Billing(false, name), w.row.value, reply, now);
    if e.Some? { MovesTo(w.plans, e.value.roles); }
  }

  /** What a paid period leaves: active, no retries, these dates, and the plan until the same end. */
  predicate Renewed(w: World, after: World, id: DeliveryId, start: Instant, end: Instant, nextBilling: Instant, now: Instant) {
    w.row.Some? &&
    var r := w.row.value;
    var paid := r.(status := Active, retryCount := 0, currentPeriodStart := Some(start), currentPeriodEnd := Some(end),
                   nextBillingDate := Some(nextBilling));
    if IsTerminal(r.status) || (r.cancelledAt.Some? && r.accessEndsAt.Some? && now < r.accessEndsAt.value) then
      Becomes(w, after, paid, PaymentSucceeded, id, None) && after.plans == w.plans
    else
      && Becomes(w, after, paid, PaymentSucceeded, id, Some(RolesMove(Restore, r.brandId, r.planSlug, Some(end))))
      && after.plans == w.plans[Key(r) := Some(end)]
  }

  /**
   A successful charge ConfioPagos gives no period for pays one civil month from the end of the period
   still running, or from now if none is: no day already paid is lost, and none lies in the past.
   */
  lemma SuccessfulChargeExtends(w: World, cfg: Config, name: string, id: DeliveryId, now: Instant)
    requires Fresh(w, id) && Named(w.row.value)
    ensures var r := w.row.value;
            var after := Heard(w, cfg, Billing(true, name), id, Unreachable, now);
            var running := r.currentPeriodEnd.Some? && now < r.currentPeriodEnd.value;
            var start := if running then r.currentPeriodEnd.value else now;
            && after.row.Some? && after.row.value.currentPeriodEnd.Some?
            && var end := after.row.value.currentPeriodEnd.value;
               Calendar.OneMonthApart(start, end) && Renewed(w, after, id, start, end, end, now)
  {
    hide Heard, Moved, Push, RowOk, HasMarker, Calendar.OneMonthApart, Calendar.AddOneMonth;
    HeardMoves(w, cfg, Billing(true, name), id, Unreachable, now);
    var e := Plan(Billing(true, name), w.row.value, Unreachable, now);
    if e.Some? { MovesTo(w.plans, e.value.roles); }
    var p := LocalPeriod(w.row.value, now);
    Calendar.OneMonthApartIff(p.start, p.end);
  }

  /** The row or the notification names the subscription, so its period can be asked for. */
  predicate Askable(r: Row, name: string) { name != "" || r.providerSubscriptionId != "" }

  /** A complete period of ConfioPagos that has not ended is taken as it is. */
  lemma SuccessfulChargeTakesProviderPeriod(w: World, cfg: Config, name: string, id: DeliveryId, wire: Wire,
                                            start: Instant, end: Instant, nextBilling: Instant, now: Instant)
    requires Fresh(w, id) && Named(w.row.value) && now < end && Askable(w.row.value, name)
    ensures var reply := Found(wire, Some(start), Some(end), Some(nextBilling));
            Renewed(w, Heard(w, cfg, Billing(true, name), id, reply, now), id, start, end, nextBilling, now)
  {
    hide Heard, Moved, Push, RowOk, HasMarker, LocalPeriod;
    HeardMoves(w, cfg, Billing(true, name), id, Found(wire, Some(start), Some(end), Some(nextBilling)), now);
    var e := Plan(Billing(true, name), w.row.value, Found(wire, Some(start), Some(end), Some(nextBilling)), now);
    if e.Some? { MovesTo(w.plans, e.value.roles); }
  }

  /** A period that is missing a date, has ended or cannot be asked for counts as no answer at all. */
  lemma UnusablePeriodIsNoAnswer(w: World, cfg: Config, m: Message, id: DeliveryId, wire: Wire,
                                 start: Option<Instant>, end: Option<Instant>, nextBilling: Option<Instant>, now: Instant)
    requires Fresh(w, id)
    requires start.None? || end.None? || nextBilling.None? || end.value <= now || !Askable(w.row.value, m.name)
    ensures Heard(w, cfg, m, id, Found(wire, start, end, nextBilling), now) == Heard(w, cfg, m, id, Unreachable, now)
  {
    hide HasMarker, RowOk, Push, ApplyEffect, TraceOf, LocalPeriod;
  }

  // ---------------------------------------------------------------- confirmations

  /** What an accepted confirmation leaves, and in a first trial the dates the trial is remembered by. */
  predicate Granted(w: World, after: World, id: DeliveryId, status: Status, start: Instant, end: Instant, nextBilling: Instant) {
    w.row.Some? &&
    var r := w.row.value;
    var dated := r.(status := status, currentPeriodStart := Some(start), currentPeriodEnd := Some(end), nextBillingDate := Some(nextBilling));
    var row := if status.Trial? && r.trialStart.None? then dated.(trialStart := Some(start), trialEnd := Some(end)) else dated;
    && Becomes(w, after, row, ConfirmationGranted, id, Some(RolesMove(Restore, r.brandId, r.planSlug, Some(end))))
    && after.plans == w.plans[Key(r) := Some(end)]
  }

  /** The row can still be granted its plan: open, and no cancellation of ours running. */
  predicate Grantable(r: Row, now: Instant) { !IsTerminal(r.status) && !CancellationPending(r, now) }

  /** Accepted with a period, the brand has its plan for exactly that period. */
  lemma ConfirmationGrantsProviderPeriod(w: World, cfg: Config, wire: Wire, name: string, id: DeliveryId,
                                         start: Instant, end: Instant, nextBilling: Instant, now: Instant)
    requires Fresh(w, id) && Named(w.row.value) && Grantable(w.row.value, now) && Askable(w.row.value, name) && now < end
    requires wire.TRIALING? || wire.ACTIVE?
    ensures var status := if wire.TRIALING? then Trial else Active;
            var after := Heard(w, cfg, StatusChange(wire, name), id, Found(wire, Some(start), Some(end), Some(nextBilling)), now);
            if w.row.value.status == status && w.row.value.currentPeriodEnd == Some(end) then after == w
            else Granted(w, after, id, status, start, end, nextBilling)
  {
    hide Heard, Moved, Push, RowOk, HasMarker, LocalPeriod, TrialPeriod;
    HeardMoves(w, cfg, StatusChange(wire, name), id, Found(wire, Some(start), Some(end), Some(nextBilling)), now);
    var e := Plan(StatusChange(wire, name), w.row.value, Found(wire, Some(start), Some(end), Some(nextBilling)), now);
    if e.Some? { MovesTo(w.plans, e.value.roles); }
  }

  /** A cycle accepted without one is a civil month, as a charge pays for. */
  lemma ActiveGrantsLocalPeriod(w: World, cfg: Config, name: string, id: DeliveryId, now: Instant)
    requires Fresh(w, id) && Named(w.row.value) && Grantable(w.row.value, now)
    ensures var r := w.row.value;
            var after := Heard(w, cfg, StatusChange(ACTIVE, name), id, Unreachable, now);
            var running := r.currentPeriodEnd.Some? && now < r.currentPeriodEnd.value;
            var start := if running then r.currentPeriodEnd.value else now;
            && after.row.Some? && after.row.value.currentPeriodEnd.Some?
            && var end := after.row.value.currentPeriodEnd.value;
               Calendar.OneMonthApart(start, end) && Granted(w, after, id, Active, start, end, end)
  {
    hide Heard, Moved, Push, RowOk, HasMarker, Calendar.OneMonthApart, Calendar.AddOneMonth;
    HeardMoves(w, cfg, StatusChange(ACTIVE, name), id, Unreachable, now);
    var e := Plan(StatusChange(ACTIVE, name), w.row.value, Unreachable, now);
    if e.Some? { MovesTo(w.plans, e.value.roles); }
    var p := LocalPeriod(w.row.value, now);
    Calendar.OneMonthApartIff(p.start, p.end);
  }

  /**
   A trial accepted without one lasts until the end the row had promised. If it promised none, or one
   already past, nothing is granted and the row stays where the sweep finds it.
   */
  lemma TrialKeepsItsPromise(w: World, cfg: Config, name: string, id: DeliveryId, now: Instant)
    requires Fresh(w, id) && Named(w.row.value) && Grantable(w.row.value, now)
    ensures var r := w.row.value;
            var after := Heard(w, cfg, StatusChange(TRIALING, name), id, Unreachable, now);
            if r.trialEnd.None? || r.trialEnd.value <= now then
              Becomes(w, after, r, ConfirmationNotGranted, id, None) && after.plans == w.plans
            else if r.status.Trial? && r.currentPeriodEnd == r.trialEnd then after == w
            else Granted(w, after, id, Trial, r.trialStart.UnwrapOr(now), r.trialEnd.value, r.trialEnd.value)
  {
    hide Heard, Moved, Push, RowOk, HasMarker, LocalPeriod;
    HeardMoves(w, cfg, StatusChange(TRIALING, name), id, Unreachable, now);
    var e := Plan(StatusChange(TRIALING, name), w.row.value, Unreachable, now);
    if e.Some? { MovesTo(w.plans, e.value.roles); }
  }

  /** A confirmation too late for a row given up moves its status and buys nothing. */
  lemma LateConfirmationBuysNothing(w: World, cfg: Config, wire: Wire, name: string, id: DeliveryId, reply: ProviderReply, now: Instant)
    requires Fresh(w, id) && !Grantable(w.row.value, now) && (wire.TRIALING? || wire.ACTIVE?)
    ensures var r, after := w.row.value, Heard(w, cfg, StatusChange(wire, name), id, reply, now);
            && Becomes(w, after, r.(status := if wire.TRIALING? then Trial else Active), ConfirmationNotGranted, id, None)
            && after.plans == w.plans
  {
    hide Heard, Moved, Push, RowOk, HasMarker;
    HeardMoves(w, cfg, StatusChange(wire, name), id, reply, now);
    var e := Plan(StatusChange(wire, name), w.row.value, reply, now);
    if e.Some? { MovesTo(w.plans, e.value.roles); }
  }

  // ---------------------------------------------------------------- arrears and ends

  /** Arrears withdraw the plan and nothing more: no `free`, no date moved, no seal. */
  lemma ArrearsWithdrawThePlan(w: World, cfg: Config, wire: Wire, name: string, id: DeliveryId, reply: ProviderReply, now: Instant)
    requires Fresh(w, id) && Named(w.row.value) && (wire.PAST_DUE? || wire.SUSPENDED?)
    ensures var r, after := w.row.value, Heard(w, cfg, StatusChange(wire, name), id, reply, now);
            && Becomes(w, after, r.(status := PastDue), PaymentFailed, id, Some(RolesMove(Withdraw, r.brandId, r.planSlug, None)))
            && after.plans == w.plans - {Key(r)}
  {
    hide Heard, Moved, Push, RowOk, HasMarker;
    HeardMoves(w, cfg, StatusChange(wire, name), id, reply, now);
    var e := Plan(StatusChange(wire, name), w.row.value, reply, now);
    if e.Some? { MovesTo(w.plans, e.value.roles); }
  }

  /**
   The end of a subscription leaves the brand on `free` and the row closed and not renewing, sealed
   now if it was cancelled and not sealed before. A row already closed, or still in the access its
   owner's cancellation left it, hears nothing.
   */
  lemma EndLeavesFree(w: World, cfg: Config, wire: Wire, name: string, id: DeliveryId, reply: ProviderReply, now: Instant)
    requires Fresh(w, id) && Named(w.row.value) && (wire.CANCELED? || wire.EXPIRED?)
    ensures var r, after := w.row.value, Heard(w, cfg, StatusChange(wire, name), id, reply, now);
            var ended := r.(status := if wire.CANCELED? then Cancelled else Expired, autoRenew := false,
                            cancelledAt := if wire.CANCELED? && r.cancelledAt.None? then Some(now) else r.cancelledAt);
            if !Grantable(r, now) then after == w
            else
              && Becomes(w, after, ended, if wire.CANCELED? then CancelledEvent else ExpiredEvent, id,
                         Some(RolesMove(Downgrade, r.brandId, r.planSlug, None)))
              && OnFree(w.plans, after.plans, r)
  {
    hide Heard, Moved, Push, RowOk, HasMarker;
    HeardMoves(w, cfg, StatusChange(wire, name), id, reply, now);
    var e := Plan(StatusChange(wire, name), w.row.value, reply, now);
    if e.Some? { MovesTo(w.plans, e.value.roles); }
  }

  /** No other status, nor a notification heard before, does anything at all. */
  lemma OtherReportsAreSilent(w: World, cfg: Config, m: Message, id: DeliveryId, reply: ProviderReply, first: Call, second: Call, now: Instant)
    requires w.row.None? || HasMarker(w.history, id)
             || (m.StatusChange? && (m.wire.PENDING_ACCEPTANCE? || m.wire.PROCESSING? || m.wire.UNMAPPED?))
    ensures Step(w, cfg, Deliver(m, id, reply, first, second, now)) == w
  {
    hide HasMarker;
  }

  /** A row that names no brand or no plan is written just the same, and no store is called. */
  lemma UnnamedMovesNoPlan(w: World, cfg: Config, m: Message, id: DeliveryId, reply: ProviderReply, first: Call, second: Call, now: Instant)
    requires Fresh(w, id) && !Named(w.row.value)
    ensures var after := Step(w, cfg, Deliver(m, id, reply, first, second, now));
            && after.plans == w.plans
            && (after != w ==> |after.history| == |w.history| + 1 && after.history[|w.history|].roles.None?)
  {
    hide HasMarker, RowOk, LocalPeriod, ProviderPeriod, TrialPeriod, ApplyEffect;
  }

  // ---------------------------------------------------------------- asking

  /** The mark a confirmation of ours leaves for what it granted. */
  function AskedMark(r: Row, wire: Wire, end: Instant): DeliveryId { Asked(AskedName(r), wire, Some(end)) }

  /** What asking settles is what the notification of that status plans, when that moves the plan. */
  lemma AskPlansTheSame(r: Row, reply: ProviderReply, now: Instant)
    requires AskedName(r) != "" && reply.Found? && (reply.wire.TRIALING? || reply.wire.ACTIVE?)
    ensures var e, q := Plan(StatusChange(reply.wire, AskedName(r)), r, reply, now), Ask(r, reply, now);
            if e.None? || e.value.roles.None? then !q.Settle?
            else e.value.period.Some? && q == Settle(e.value, AskedMark(r, reply.wire, e.value.period.value.end))
  {
    hide PlanGrant, ProviderPeriod, LocalPeriod, TrialPeriod;
  }

  lemma GrowsHistory(w: World, after: World)
    requires |after.history| == |w.history| + 1
    ensures after != w
  {
  }

  /**
   Asking ConfioPagos grants what its notification of the same status would have, under a mark of
   its own; and writes nothing where the notification would have granted nothing.
   */
  lemma AskingIsHearing(w: World, cfg: Config, reply: ProviderReply, id: DeliveryId, now: Instant)
    requires Fresh(w, id) && Named(w.row.value) && AskedName(w.row.value) != ""
    requires reply.Found? && (reply.wire.TRIALING? || reply.wire.ACTIVE?)
    requires forall end :: !HasMarker(w.history, AskedMark(w.row.value, reply.wire, end))
    ensures var r := w.row.value;
            var told := Heard(w, cfg, StatusChange(reply.wire, AskedName(r)), id, reply, now);
            var asked := Step(w, cfg, Confirm(reply, Accepted, Accepted, now));
            if told == w || told.history[|w.history|].roles.None? then asked == w
            else
              && asked.row == told.row && asked.plans == told.plans
              && asked.history == w.history + [told.history[|w.history|].(
                   delivery := Some(AskedMark(r, reply.wire, told.row.value.currentPeriodEnd.UnwrapOr(0))))]
  {
    hide Heard, Push, RowOk, HasMarker, LocalPeriod, ProviderPeriod, TrialPeriod, PlanGrant;
    var m := StatusChange(reply.wire, AskedName(w.row.value));
    HeardIs(w, cfg, m, id, reply, now);
    AskPlansTheSame(w.row.value, reply, now);
    if Plan(m, w.row.value, reply, now).Some? { GrowsHistory(w, Heard(w, cfg, m, id, reply, now)); }
  }

  /** Asking fails exactly when what it heard would move the plan and the store does not accept. */
  lemma AskingThrowsIff(w: World, reply: ProviderReply, first: Call, second: Call, now: Instant)
    requires w.row.Some?
    ensures var name := AskedName(w.row.value);
            AskingThrows(w, reply, first, second, now) <==>
              && name != "" && reply.Found? && (reply.wire.TRIALING? || reply.wire.ACTIVE?) && !first.Accepted?
              && var e := Plan(StatusChange(reply.wire, name), w.row.value, reply, now);
                 e.Some? && e.value.roles.Some?
  {
    hide ProviderPeriod, LocalPeriod, TrialPeriod, RowOk;
  }

  /** A pending row found dead is closed without a call to the store; anything else not granting changes nothing. */
  lemma AskingClosesPending(w: World, cfg: Config, reply: ProviderReply, first: Call, second: Call, now: Instant)
    requires w.row.Some? && (reply.Found? ==> !reply.wire.TRIALING? && !reply.wire.ACTIVE?)
    ensures var r, after := w.row.value, Step(w, cfg, Confirm(reply, first, second, now));
            if reply.Found? && (reply.wire.CANCELED? || reply.wire.EXPIRED?) && r.status.Pending? && AskedName(r) != ""
               && !HasMarker(w.history, Asked(AskedName(r), reply.wire, None)) then
              var dead := reply.wire.CANCELED?;
              && Becomes(w, after,
                         r.(status := if dead then Cancelled else Expired, autoRenew := false,
                            cancelledAt := if dead && r.cancelledAt.None? then Some(now) else r.cancelledAt),
                         if dead then CancelledEvent else ExpiredEvent, Asked(AskedName(r), reply.wire, None), None)
              && after.plans == w.plans
            else after == w
  {
    hide HasMarker, RowOk;
  }

  // ---------------------------------------------------------------- a trial is spent by its confirmation

  /** A step recorded that the brand was granted a trial. */
  predicate RecordsTrial(before: World, after: World) {
    && |after.history| > |before.history|
    && after.history[|before.history|].kind.ConfirmationGranted? && after.history[|before.history|].to == Some(Trial)
  }

  /** The dates the trial is remembered by are those of the period just granted. */
  predicate TrialIsSealed(before: World, after: World) {
    && before.row.Some? && after.row.Some? && after.row.value.trialStart.Some?
    && (before.row.value.trialStart.None? ==>
          && after.row.value.trialStart == after.row.value.currentPeriodStart
          && after.row.value.trialEnd == after.row.value.currentPeriodEnd && after.row.value.trialEnd.Some?)
    && (before.row.value.trialStart.Some? ==>
          after.row.value.trialStart == before.row.value.trialStart && after.row.value.trialEnd == before.row.value.trialEnd)
  }

  lemma SettlingSealsTrial(w: World, r: Row, e: Effect, id: DeliveryId, first: Call, second: Call, now: Instant)
    requires w.row == Some(r)
    requires e.kind.ConfirmationGranted? && e.toStatus.Trial? ==> e.period.Some? && (e.sealsTrial <==> r.trialStart.None?)
    ensures var after := Settled(w, r, e, id, first, second, now);
            RecordsTrial(w, after) ==> TrialIsSealed(w, after)
  {
    hide HasMarker, RowOk, Push;
  }

  lemma GrantSealsFirstTrial(name: string, r: Row, wire: Wire, reply: ProviderReply, now: Instant)
    requires Grants(wire)
    ensures var e := PlanGrant(name, r, wire, reply, now);
            e.Some? && e.value.kind.ConfirmationGranted? && e.value.toStatus.Trial? ==>
              e.value.period.Some? && (e.value.sealsTrial <==> r.trialStart.None?)
  {
    hide LocalPeriod, ProviderPeriod, TrialPeriod;
  }

  lemma PlannedTrialIsSealed(m: Message, r: Row, reply: ProviderReply, now: Instant)
    ensures var e := Plan(m, r, reply, now);
            e.Some? && e.value.kind.ConfirmationGranted? && e.value.toStatus.Trial? ==>
              e.value.period.Some? && (e.value.sealsTrial <==> r.trialStart.None?)
    ensures var q := Ask(r, reply, now);
            q.Settle? && q.effect.kind.ConfirmationGranted? && q.effect.toStatus.Trial? ==>
              q.effect.period.Some? && (q.effect.sealsTrial <==> r.trialStart.None?)
  {
    hide PlanGrant, LocalPeriod, ProviderPeriod, RowOk;
    if m.StatusChange? && Grants(m.wire) { GrantSealsFirstTrial(m.name, r, m.wire, reply, now); }
    if reply.Found? && Grants(reply.wire) { GrantSealsFirstTrial(AskedName(r), r, reply.wire, reply, now); }
  }

  lemma AskingSealsTrial(w: World, reply: ProviderReply, first: Call, second: Call, now: Instant)
    ensures RecordsTrial(w, Asking(w, reply, first, second, now)) ==> TrialIsSealed(w, Asking(w, reply, first, second, now))
  {
    hide Ask, Plan, Settled;
    if w.row.Some? && Ask(w.row.value, reply, now).Settle? {
      PlannedTrialIsSealed(Billing(true, ""), w.row.value, reply, now);
      var q := Ask(w.row.value, reply, now);
      SettlingSealsTrial(w, w.row.value, q.effect, q.id, first, second, now);
    }
  }

  /** Whoever hears of it, a granted trial seals its dates on a row that had none, and leaves any others. */
  lemma TrialGrantSealsIt(w: World, cfg: Config, a: Action)
    requires a.Deliver? || a.Confirm? || a.Renew?
    ensures RecordsTrial(w, Step(w, cfg, a)) ==> TrialIsSealed(w, Step(w, cfg, a))
  {
    hide Ask, Plan, Settled, Asking, RenewedByCron;
    match a {
      case Deliver(m, id, reply, first, second, at) =>
        if w.row.Some? && Plan(m, w.row.value, reply, at).Some? {
          PlannedTrialIsSealed(m, w.row.value, reply, at);
          SettlingSealsTrial(w, w.row.value, Plan(m, w.row.value, reply, at).value, id, first, second, at);
        }
      case Confirm(reply, first, second, at) => AskingSealsTrial(w, reply, first, second, at);
      case Renew(reply, charge, wallet, first, second, at) => RenewalSealsTrial(w, cfg, a);
    }
  }

  lemma RenewalSealsTrial(w: World, cfg: Config, a: Action)
    requires a.Renew?
    ensures RecordsTrial(w, Step(w, cfg, a)) ==> TrialIsSealed(w, Step(w, cfg, a))
  {
    hide Asking, AskingThrows, IsRecurring, Charged, WalletRenewed, RenewalFailed, RecordsTrial, TrialIsSealed;
    if w.row.Some? {
      AskingSealsTrial(w, a.reply, a.first, a.second, a.at);
      LifecycleTheorems.AskedGrantAgrees(w, a.reply, a.first, a.second, a.at);
      ChargesRecordNoTrial(w, Asking(w, a.reply, a.first, a.second, a.at), w.row.value, a.charge, a.wallet, a.first, a.at, cfg.billingDays);
    }
    NothingRecordsNoTrial(w);
  }

  lemma ChargesRecordNoTrial(w: World, asked: World, r: Row, charge: ChargeReply, wallet: WalletReply, first: Call, now: Instant, days: int)
    ensures !RecordsTrial(w, Charged(w, r, false, true, charge))
    ensures !RecordsTrial(w, WalletRenewed(w, r, wallet, first, now, days))
    ensures asked.history == w.history ==> !RecordsTrial(w, RenewalFailed(asked, r))
  {
    hide Charged, WalletRenewed, RenewalFailed, RecordsTrial;
    LinkRecordsNoTrial(w, r, charge);
    WalletRecordsNoTrial(w, r, wallet, first, now, days);
    FailureRecordsNoTrial(w, asked, r);
  }

  lemma LinkRecordsNoTrial(w: World, r: Row, charge: ChargeReply)
    ensures !RecordsTrial(w, Charged(w, r, false, true, charge))
  {
    hide ChargedRow;
  }

  lemma WalletRecordsNoTrial(w: World, r: Row, wallet: WalletReply, first: Call, now: Instant, days: int)
    ensures !RecordsTrial(w, WalletRenewed(w, r, wallet, first, now, days))
  {
    hide ChargedRow, WalletRenewedRow;
  }

  lemma FailureRecordsNoTrial(w: World, asked: World, r: Row)
    ensures asked.history == w.history ==> !RecordsTrial(w, RenewalFailed(asked, r))
  {
    hide ChargedRow;
  }

  lemma NothingRecordsNoTrial(w: World)
    ensures !RecordsTrial(w, w)
  {
  }

  /** So from the confirmation of its trial on, whatever happens, a brand is refused every other. */
  lemma OneTrialFromItsConfirmation(w: World, cfg: Config, a: Action, run: seq<Action>, again: Action)
    requires (a.Deliver? || a.Confirm? || a.Renew?) && RecordsTrial(w, Step(w, cfg, a)) && again.StartTrial?
    ensures var after := After(Step(w, cfg, a), cfg, run);
            && after.row.Some? && after.row.value.trialStart == Step(w, cfg, a).row.value.trialStart
            && Step(after, cfg, again) == after
  {
    hide Step, After;
    TrialGrantSealsIt(w, cfg, a);
    LifecycleTheorems.OneTrialPerBrand(Step(w, cfg, a), cfg, run, again);
  }
}
