/**
 The same actors, cut where the source lets others in: reading, planning, calling the plan store,
 opening a transaction, writing and committing are separate steps of any number of workers.

 What the storage layer is taken to do:
 - `repo.save(row)` overwrites the whole row from the copy that was read;
 - `repo.update(predicate, columns)` is one compare-and-set;
 - `pessimistic_write` holds the row until commit or rollback, and every other write of that row
   waits for it; plain reads do not wait and see committed rows;
 - a transaction publishes its row and its history entry together, or neither.
 A step whose worker is not ready for it, or whose row is locked, leaves the world as it is.
 */
module Interleaving {
  import opened Basics
  import opened Subscriptions
  import opened ConfioWebhook
  import opened RowMoves

  /** A history row of one subscription; `closing` numbers the cron closing it reports. */
  datatype Entry = Entry(sub: string, event: Event, closing: Option<nat>)

  /** The three hourly passes that close rows, and the instant a lapsed pass compares with. */
  datatype Pass = Arrears | Lapsed(at: Instant) | TrialOver

  datatype Job =
    | Idle
    | Holding(sub: string, copy: Row)
    | Planned(sub: string, effect: Effect, id: DeliveryId)
    | Pushed(sub: string, effect: Effect, id: DeliveryId)
    | InApply(sub: string, effect: Effect, id: DeliveryId)
    | InTx(sub: string)
    | Writing(sub: string, base: Row, row: Row, trace: Option<Event>)
    | Logging(sub: string, event: Event)
    | Failing(sub: string, copy: Row)
    | Selected(pass: Pass, sub: string, copy: Row)
    | Withdrawn(pass: Pass, sub: string, copy: Row)
    | Degraded(pass: Pass, sub: string, copy: Row)
    | Stuck(sub: string)
    | Closing(sub: string, event: Event, number: nat)
    | Missed(sub: string, copy: Row, at: Instant)
    | Repairing(row: Row, at: Instant)

  datatype World = World(
    rows: map<string, Row>,
    locks: map<string, nat>,
    history: seq<Entry>,
    plans: PlanStore,
    closings: seq<string>,    // which row each cron closing closed, in order
    jobs: map<nat, Job>,
    maxRetry: int
  )

  /** Whole-row saves of a copy read earlier without a lock. */
  datatype StaleMove =
    | Charge(bumps: nat)
    | RenewFromWallet(days: int)
    | Repurchase(plan: string, provider: Provider, wallet: Option<string>, days: int)
    | Reinstate
    | Extend(days: int)
    | SetPlan(plan: string)

  /** Writes of the freshly locked row. */
  datatype OwnMove =
    | Seal(reason: string, confirmedName: Option<string>)
    | Reopen(kind: EventKind, plan: string, name: string)

  datatype Step =
    | Read(w: nat, sub: string)
    | PlanMessage(w: nat, m: Message, id: DeliveryId, reply: ProviderReply, now: Instant)
    | PlanQuestion(w: nat, reply: ProviderReply, now: Instant)
    | PushPlans(w: nat, first: Call, second: Call)
    | Begin(w: nat)
    | ComputeEffect(w: nat, now: Instant)
    | BeginOwn(w: nat, sub: string)
    | ComputeOwn(w: nat, move: OwnMove, now: Instant)
    | Commit(w: nat)
    | Abort(w: nat)
    | Save(w: nat, stale: StaleMove, now: Instant)
    | Falter(w: nat, reached: Option<StaleMove>, landed: bool, now: Instant)
    | Recover(w: nat)
    | Log(w: nat)
    | Select(w: nat, sub: string, pass: Pass, now: Instant)
    | WithdrawPaid(w: nat, call: Call)
    | GiveFree(w: nat, call: Call)
    | StopCharging(w: nat)
    | CompareAndSet(w: nat)
    | LogClosing(w: nat)
    | Reread(w: nat)
    | Repair(w: nat, call: Call)
    | Insert(sub: string, row: Row)
    | PlansMove(plans: PlanStore)      // any other writer of the plan store

  function JobOf(s: World, w: nat): Job { if w in s.jobs then s.jobs[w] else Idle }

  function To(s: World, w: nat, job: Job): World { s.(jobs := s.jobs[w := job]) }

  predicate Free(s: World, sub: string) { sub !in s.locks }

  function Lock(s: World, w: nat, sub: string): World { s.(locks := s.locks[sub := w]) }

  function Unlock(s: World, sub: string): World { s.(locks := s.locks - {sub}) }

  predicate Marked(history: seq<Entry>, sub: string, id: DeliveryId) {
    exists e :: e in history && e.sub == sub && e.event.delivery == Some(id)
  }

  predicate Traced(history: seq<Entry>, sub: string) {
    exists e :: e in history && e.sub == sub && e.event.kind.CancelledEvent?
  }

  predicate MovesPlan(r: Row) { r.brandId != "" && r.planSlug != "" && r.planSlug != FREE_PLAN }

  /** Still entitled to its plan: live, and renewing or with a date of end still ahead. */
  predicate Entitled(r: Row, at: Instant) {
    IsLive(r.status) && (r.autoRenew || (r.accessEndsAt.Some? && r.accessEndsAt.value > at))
  }

  predicate Due(pass: Pass, r: Row, now: Instant, maxRetry: int) {
    match pass
    case Arrears => DueExpiry(r, maxRetry)
    case Lapsed(at) => DueClosing(r, at, maxRetry)
    case TrialOver => DueTrialEnd(r, now)
  }

  /** The predicate of each compare-and-set. */
  predicate StillDue(pass: Pass, copy: Row, r: Row) {
    match pass
    case Arrears => r.status.PastDue?
    case Lapsed(at) => r.status == copy.status && !r.autoRenew && r.accessEndsAt.Some? && r.accessEndsAt.value < at
    case TrialOver => r.status.Trial?
  }

  function CloseBy(pass: Pass, r: Row): Row {
    match pass
    case Arrears => ExpiredRow(r)
    case Lapsed(_) => ClosedRow(r)
    case TrialOver => TrialEndedRow(r)
  }

  function ClosingEvent(pass: Pass, copy: Row): Event {
    match pass
    case Arrears => PlainEvent(ExpiredEvent, Some(PastDue), Some(Expired))
    case Lapsed(_) => PlainEvent(ExpiredEvent, Some(copy.status), Some(Cancelled))
    case TrialOver => PlainEvent(TrialEnded, Some(Trial), Some(Expired))
  }

  function SavedRow(copy: Row, move: StaleMove, now: Instant): Row {
    match move
    case Charge(bumps) => ChargedRow(copy, bumps)
    case RenewFromWallet(days) => WalletRenewedRow(copy, now, days)
    case Repurchase(plan, provider, wallet, days) => RenewedRow(copy, plan, provider, wallet, now, days)
    case Reinstate => ReactivateRow(copy)
    case Extend(days) => ExtendedRow(copy, days)
    case SetPlan(plan) => copy.(planSlug := plan)
  }

  function SavedEvent(copy: Row, move: StaleMove): Event {
    match move
    case Charge(_) => PlainEvent(PaymentFailed, Some(copy.status), Some(PastDue))
    case RenewFromWallet(_) => PlainEvent(Renewed, Some(Active), Some(Active))
    case Repurchase(plan, _, _, _) => PlainEvent(if plan != copy.planSlug then PlanChanged else Renewed, Some(copy.status), Some(Active))
    case Reinstate => PlainEvent(Reactivated, Some(copy.status), Some(copy.status))
    case _ => PlainEvent(PlanChanged, None, None)
  }

  function PlanFrom(s: World, w: nat, sub: string, effect: Option<Effect>, id: DeliveryId): World {
    match effect
    case None => To(s, w, Idle)
    case Some(e) => To(s, w, Planned(sub, e, id))
  }

  /** A refused downgrade: only the arrears pass goes on, to stop the recurring charge. */
  function GiveUp(s: World, w: nat, pass: Pass, sub: string, copy: Row): World {
    To(s, w, if pass.Arrears? && copy.autoRenew then Stuck(sub) else Idle)
  }

  // ---------------------------------------------------------------- steps

  function DoPlan(s: World, step: Step): World
    requires step.PlanMessage? || step.PlanQuestion?
  {
    match JobOf(s, step.w)
    case Holding(sub, copy) =>
      (match step
       case PlanMessage(w, m, id, reply, now) =>
         if Marked(s.history, sub, id) then To(s, w, Idle) else PlanFrom(s, w, sub, Plan(m, copy, reply, now), id)
       case PlanQuestion(w, reply, now) =>
         match Ask(copy, reply, now)
         case Settle(e, id) => To(s, w, Planned(sub, e, id))
         case _ => To(s, w, Idle))
    case _ => s
  }

  function DoPush(s: World, w: nat, first: Call, second: Call): World {
    match JobOf(s, w)
    case Planned(sub, e, id) =>
      if e.roles.None? then To(s, w, Pushed(sub, e, id))
      else
        var pushed := Push(s.plans, e.roles.value, first, second);
        To(s.(plans := pushed.0), w, if pushed.1 then Pushed(sub, e, id) else Idle)
    case _ => s
  }

  function DoBegin(s: World, w: nat): World {
    match JobOf(s, w)
    case Pushed(sub, e, id) =>
      if !Free(s, sub) then s
      else if sub !in s.rows then To(s, w, Idle)
      else To(Lock(s, w, sub), w, InApply(sub, e, id))
    case _ => s
  }

  /** Under the lock: read the marker again, and only without one compute row and trace. */
  function DoComputeEffect(s: World, w: nat, now: Instant): World {
    match JobOf(s, w)
    case InApply(sub, e, id) =>
      if sub !in s.rows || Marked(s.history, sub, id) then To(Unlock(s, sub), w, Idle)
      else
        var r := s.rows[sub];
        To(s, w, Writing(sub, r, ApplyEffect(r, e, now), Some(TraceOf(r, e, id))))
    case _ => s
  }

  function DoBeginOwn(s: World, w: nat, sub: string): World {
    if JobOf(s, w).Idle? && Free(s, sub) && sub in s.rows then To(Lock(s, w, sub), w, InTx(sub)) else s
  }

  function DoComputeOwn(s: World, w: nat, move: OwnMove, now: Instant): World {
    match JobOf(s, w)
    case InTx(sub) =>
      if sub !in s.rows then To(Unlock(s, sub), w, Idle)
      else
        var r := s.rows[sub];
        (match move
         case Seal(reason, name) =>
           var registered := r.cancelledAt.Some? && Traced(s.history, sub);
           var trace := Event(CancelledEvent, Some(r.status), Some(r.status), None, None, name);
           To(s, w, Writing(sub, r, CancelRow(r, reason, registered, now), if registered then None else Some(trace)))
         case Reopen(kind, plan, name) =>
           if IsLive(r.status) then To(Unlock(s, sub), w, Idle)
           else To(s, w, Writing(sub, r, StartRow(Some(r), r.brandId, plan, name, now),
                                 Some(PlainEvent(kind, Some(r.status), Some(Pending))))))
    case _ => s
  }

  function DoCommit(s: World, w: nat): World {
    match JobOf(s, w)
    case Writing(sub, _, row, trace) =>
      To(Unlock(s.(rows := s.rows[sub := row],
                   history := if trace.Some? then s.history + [Entry(sub, trace.value, None)] else s.history), sub), w, Idle)
    case _ => s
  }

  /** A crash or a rollback, at any point: the worker forgets, its lock goes, nothing is written. */
  function DoAbort(s: World, w: nat): World {
    match JobOf(s, w)
    case InApply(sub, _, _) => To(Unlock(s, sub), w, Idle)
    case InTx(sub) => To(Unlock(s, sub), w, Idle)
    case Writing(sub, _, _, _) => To(Unlock(s, sub), w, Idle)
    case _ => To(s, w, Idle)
  }

  function DoSave(s: World, w: nat, move: StaleMove, now: Instant): World {
    match JobOf(s, w)
    case Holding(sub, copy) =>
      if !Free(s, sub) then s
      else if move.Reinstate? && !MayReactivate(copy) then To(s, w, Idle)
      else To(s.(rows := s.rows[sub := SavedRow(copy, move, now)]), w,
              if move.Extend? then Idle else Logging(sub, SavedEvent(copy, move)))
    case _ => s
  }

  /**
   A charge or renewal throws before it saves anything, at its save, or after it (`landed`); the
   catch of its cron then has the copy in memory, moved or not.
   */
  function DoFalter(s: World, w: nat, move: Option<StaleMove>, landed: bool, now: Instant): World {
    match JobOf(s, w)
    case Holding(sub, copy) =>
      if move.None? then To(s, w, Failing(sub, copy))
      else if !move.value.Charge? && !move.value.RenewFromWallet? then s
      else if landed && !Free(s, sub) then s
      else To(if landed then s.(rows := s.rows[sub := SavedRow(copy, move.value, now)]) else s, w,
              Failing(sub, SavedRow(copy, move.value, now)))
    case _ => s
  }

  /** `handleRenewalFailure`: the same copy saved once more. */
  function DoRecover(s: World, w: nat): World {
    match JobOf(s, w)
    case Failing(sub, copy) =>
      if !Free(s, sub) then s
      else To(s.(rows := s.rows[sub := ChargedRow(copy, 1)]), w,
              Logging(sub, PlainEvent(PaymentFailed, Some(PastDue), Some(PastDue))))
    case _ => s
  }

  function DoLog(s: World, w: nat): World {
    match JobOf(s, w)
    case Logging(sub, event) => To(s.(history := s.history + [Entry(sub, event, None)]), w, Idle)
    case _ => s
  }

  function DoSelect(s: World, w: nat, sub: string, pass: Pass, now: Instant): World {
    if JobOf(s, w).Idle? && sub in s.rows && Due(pass, s.rows[sub], now, s.maxRetry)
    then To(s, w, Selected(pass, sub, s.rows[sub])) else s
  }

  function DoWithdraw(s: World, w: nat, call: Call): World {
    match JobOf(s, w)
    case Selected(pass, sub, copy) =>
      if !MovesPlan(copy) then To(s, w, Degraded(pass, sub, copy))
      else
        var called := s.(plans := Remove(s.plans, copy.brandId, copy.planSlug, call));
        if call.Accepted? then To(called, w, Withdrawn(pass, sub, copy)) else GiveUp(called, w, pass, sub, copy)
    case _ => s
  }

  function DoGiveFree(s: World, w: nat, call: Call): World {
    match JobOf(s, w)
    case Withdrawn(pass, sub, copy) =>
      var called := s.(plans := Assign(s.plans, copy.brandId, FREE_PLAN, None, call));
      if call.Accepted? then To(called, w, Degraded(pass, sub, copy)) else GiveUp(called, w, pass, sub, copy)
    case _ => s
  }

  function DoStopCharging(s: World, w: nat): World {
    match JobOf(s, w)
    case Stuck(sub) =>
      if !Free(s, sub) then s
      else if sub !in s.rows then To(s, w, Idle)
      else To(s.(rows := s.rows[sub := s.rows[sub].(autoRenew := false)]), w, Idle)
    case _ => s
  }

  function DoCompareAndSet(s: World, w: nat): World {
    match JobOf(s, w)
    case Degraded(pass, sub, copy) =>
      if !Free(s, sub) then s
      else if sub in s.rows && StillDue(pass, copy, s.rows[sub]) then
        To(s.(rows := s.rows[sub := CloseBy(pass, s.rows[sub])], closings := s.closings + [sub]), w,
           Closing(sub, ClosingEvent(pass, copy), |s.closings|))
      else if pass.Lapsed? then To(s, w, Missed(sub, copy, pass.at))
      else To(s, w, Idle)
    case _ => s
  }

  function DoLogClosing(s: World, w: nat): World {
    match JobOf(s, w)
    case Closing(sub, event, number) =>
      To(s.(history := s.history + [Entry(sub, event, Some(number))]), w, Idle)
    case _ => s
  }

  function DoReread(s: World, w: nat): World {
    match JobOf(s, w)
    case Missed(sub, copy, at) =>
      if MovesPlan(copy) && sub in s.rows && Entitled(s.rows[sub], at) then To(s, w, Repairing(s.rows[sub], at))
      else To(s, w, Idle)
    case _ => s
  }

  function DoRepair(s: World, w: nat, call: Call): World {
    match JobOf(s, w)
    case Repairing(r, _) => To(s.(plans := Assign(s.plans, r.brandId, r.planSlug, r.currentPeriodEnd, call)), w, Idle)
    case _ => s
  }

  function Do(s: World, step: Step): World {
    match step
    case Read(w, sub) => if JobOf(s, w).Idle? && sub in s.rows then To(s, w, Holding(sub, s.rows[sub])) else s
    case PlanMessage(_, _, _, _, _) => DoPlan(s, step)
    case PlanQuestion(_, _, _) => DoPlan(s, step)
    case PushPlans(w, first, second) => DoPush(s, w, first, second)
    case Begin(w) => DoBegin(s, w)
    case ComputeEffect(w, now) => DoComputeEffect(s, w, now)
    case BeginOwn(w, sub) => DoBeginOwn(s, w, sub)
    case ComputeOwn(w, move, now) => DoComputeOwn(s, w, move, now)
    case Commit(w) => DoCommit(s, w)
    case Abort(w) => DoAbort(s, w)
    case Save(w, move, now) => DoSave(s, w, move, now)
    case Falter(w, move, landed, now) => DoFalter(s, w, move, landed, now)
    case Recover(w) => DoRecover(s, w)
    case Log(w) => DoLog(s, w)
    case Select(w, sub, pass, now) => DoSelect(s, w, sub, pass, now)
    case WithdrawPaid(w, call) => DoWithdraw(s, w, call)
    case GiveFree(w, call) => DoGiveFree(s, w, call)
    case StopCharging(w) => DoStopCharging(s, w)
    case CompareAndSet(w) => DoCompareAndSet(s, w)
    case LogClosing(w) => DoLogClosing(s, w)
    case Reread(w) => DoReread(s, w)
    case Repair(w, call) => DoRepair(s, w, call)
    case Insert(sub, row) => if sub !in s.rows && Free(s, sub) && RowOk(row) then s.(rows := s.rows[sub := row]) else s
    case PlansMove(plans) => s.(plans := plans)
  }

  function Run(s: World, steps: seq<Step>): World
    decreases |steps|
  {
    if steps == [] then s else Run(Do(s, steps[0]), steps[1..])
  }

  /** Rows that satisfy the row invariant, and nothing under way. */
  predicate Initial(s: World) {
    s.locks == map[] && s.history == [] && s.closings == [] && s.jobs == map[]
    && forall sub :: sub in s.rows ==> RowOk(s.rows[sub])
  }
}
