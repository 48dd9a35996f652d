/**
 The subscription row, its append-only history and the external plan store.

 `src/subscription/entities/subscription.entity.ts` and `subscriptionEvent.entity.ts`, plus the
 two calls of `src/client/client-roles.service.ts` that move a plan.
 */
module Subscriptions {
  import opened Basics

  datatype Status = Trial | Active | PastDue | Cancelled | Expired | Pending

  datatype Provider = Stripe | MercadoPago | InternalWallet | Dropi | Confio

  predicate IsTerminal(s: Status) { s.Cancelled? || s.Expired? }

  /** Service in force. `Pending` is neither live nor terminal. */
  predicate IsLive(s: Status) { s.Trial? || s.Active? || s.PastDue? }

  datatype Row = Row(
    brandId: string,
    planSlug: string,
    status: Status,
    provider: Provider,
    walletId: Option<string>,
    confioName: string,               // metadata.confio.name, "" when absent
    providerSubscriptionId: string,   // "" when null
    currentPeriodStart: Option<Instant>,
    currentPeriodEnd: Option<Instant>,
    nextBillingDate: Option<Instant>,
    trialStart: Option<Instant>,
    trialEnd: Option<Instant>,
    initialPaymentLinkIssuedAt: Option<Instant>,
    autoRenew: bool,
    cancelledAt: Option<Instant>,
    cancelReason: Option<string>,
    accessEndsAt: Option<Instant>,
    retryCount: nat
  )

  /**
   The row invariant. A row given up — terminal, or sealed by a cancellation — does not renew,
   and only a sealed row can carry a date on which paid access ends.
   */
  predicate RowOk(r: Row) {
    && (IsTerminal(r.status) ==> !r.autoRenew)
    && (r.accessEndsAt.Some? ==> r.cancelledAt.Some?)
    && (r.cancelledAt.Some? ==> !r.autoRenew)
  }

  /** A cancellation of ours still running: sealed, and the access already paid has not ended. */
  predicate CancellationPending(r: Row, now: Instant) {
    r.cancelledAt.Some? && r.accessEndsAt.Some? && now < r.accessEndsAt.value
  }

  /** The name of the row's subscription at ConfioPagos, "" when it has none. */
  function AskedName(r: Row): string {
    if r.confioName != "" then r.confioName else r.providerSubscriptionId
  }

  // ---------------------------------------------------------------- history

  datatype EventKind =
    | Created | PlanChanged | Renewed | CancelledEvent | ExpiredEvent | Reactivated
    | PaymentFailed | PaymentSucceeded | TrialStarted | TrialEnded
    | ConfirmationGranted | ConfirmationNotGranted

  /** Statuses as ConfioPagos words them; the field is open text on the wire. */
  datatype Wire =
    | TRIALING | ACTIVE | PAST_DUE | SUSPENDED | CANCELED | EXPIRED
    | PENDING_ACCEPTANCE | PROCESSING | UNMAPPED(text: string)

  /**
   The idempotency marker `metadata.providerEventId`: minted by the provider for a notification,
   composed from name, status and period end for a confirmation we asked for.
   */
  datatype DeliveryId =
    | Notified(id: string)
    | Asked(name: string, wire: Wire, periodEnd: Option<Instant>)

  datatype RolesAction = Withdraw | Restore | Downgrade

  datatype RolesMove = RolesMove(action: RolesAction, brandId: string, planSlug: string, expiresAt: Option<Instant>)

  datatype Event = Event(
    kind: EventKind,
    from: Option<Status>,
    to: Option<Status>,
    delivery: Option<DeliveryId>,
    roles: Option<RolesMove>,
    confirmedName: Option<string>     // set exactly when `confirmadoPorConfio` is true
  )

  function PlainEvent(kind: EventKind, from: Option<Status>, to: Option<Status>): Event {
    Event(kind, from, to, None, None, None)
  }

  predicate HasMarker(history: seq<Event>, id: DeliveryId) {
    exists e :: e in history && e.delivery == Some(id)
  }

  // ---------------------------------------------------------------- the plan store

  /** Which plans a brand holds, and until when; `None` never expires. */
  type PlanStore = map<(string, string), Option<Instant>>

  const FREE_PLAN: string := "free"

  /**
   Outcome of one call to the plan store. The client collapses every failure to `false`, so a
   call that landed and then lost its answer is told apart only here.
   */
  datatype Call = Accepted | Refused | Unanswered

  function Assign(plans: PlanStore, brand: string, plan: string, until: Option<Instant>, c: Call): PlanStore {
    if c.Refused? then plans else plans[(brand, plan) := until]
  }

  function Remove(plans: PlanStore, brand: string, plan: string, c: Call): PlanStore {
    if c.Refused? then plans else plans - {(brand, plan)}
  }

  /** Withdraw the paid plan, then leave `free` without expiry; stop at the first failure. */
  function DowngradeToFree(plans: PlanStore, brand: string, plan: string, remove: Call, assign: Call): (r: (PlanStore, bool))
    ensures r.1 && plan != FREE_PLAN ==>
              (brand, plan) !in r.0 && (brand, FREE_PLAN) in r.0 && r.0[(brand, FREE_PLAN)] == None
    ensures plan == FREE_PLAN ==> r == (plans, true)
    ensures forall k :: k != (brand, plan) && k != (brand, FREE_PLAN) ==>
              (k in r.0 <==> k in plans) && (k in plans ==> r.0[k] == plans[k])
  {
    if plan == FREE_PLAN then (plans, true)
    else if !remove.Accepted? then (Remove(plans, brand, plan, remove), false)
    else (Assign(Remove(plans, brand, plan, remove), brand, FREE_PLAN, None, assign), assign.Accepted?)
  }

  /** The access movement a webhook effect asks for. */
  function Push(plans: PlanStore, move: RolesMove, first: Call, second: Call): (r: (PlanStore, bool))
    ensures r.1 && move.action.Restore? ==>
              (move.brandId, move.planSlug) in r.0 && r.0[(move.brandId, move.planSlug)] == move.expiresAt
    ensures r.1 && move.action.Withdraw? ==> (move.brandId, move.planSlug) !in r.0
    ensures r.1 && move.action.Downgrade? && move.planSlug != FREE_PLAN ==>
              && (move.brandId, move.planSlug) !in r.0
              && (move.brandId, FREE_PLAN) in r.0 && r.0[(move.brandId, FREE_PLAN)] == None
  {
    match move.action
    case Downgrade => DowngradeToFree(plans, move.brandId, move.planSlug, first, second)
    case Withdraw => (Remove(plans, move.brandId, move.planSlug, first), first.Accepted?)
    case Restore => (Assign(plans, move.brandId, move.planSlug, move.expiresAt, first), first.Accepted?)
  }
}
