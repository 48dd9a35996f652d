/**
 How the two machines relate: a worker nobody interrupts does what the atomic handler does, and
 two interrupted runs end where no atomic handler would.
 */
module Refinement {
  import opened Basics
  import opened Subscriptions
  import opened ConfioWebhook
  import opened RowMoves
  import opened Interleaving
  import opened InterleavingTheorems
  import L = Lifecycle
  import Text

  // ---------------------------------------------------------------- one row of the many

  /** The history of one row, in order. */
  function EventsOf(history: seq<Entry>, sub: string): seq<Event> {
    if history == [] then []
    else
      var rest, last := history[..|history| - 1], history[|history| - 1];
      if last.sub == sub then EventsOf(rest, sub) + [last.event] else EventsOf(rest, sub)
  }

  lemma {:induction false} EventOfEntry(history: seq<Entry>, sub: string, e: Event)
    ensures e in EventsOf(history, sub) <==> exists x :: x in history && x.sub == sub && x.event == e
  {
    if history != [] {
      var rest, last := history[..|history| - 1], history[|history| - 1];
      EventOfEntry(rest, sub, e);
      assert history == rest + [last];
    }
  }

  lemma MarksAgree(history: seq<Entry>, sub: string, id: DeliveryId)
    ensures Marked(history, sub, id) <==> HasMarker(EventsOf(history, sub), id)
  {
    if Marked(history, sub, id) {
      var x :| x in history && x.sub == sub && x.event.delivery == Some(id);
      EventOfEntry(history, sub, x.event);
    }
    if HasMarker(EventsOf(history, sub), id) {
      var e :| e in EventsOf(history, sub) && e.delivery == Some(id);
      EventOfEntry(history, sub, e);
    }
  }

  lemma AppendedEvent(history: seq<Entry>, x: Entry)
    ensures EventsOf(history + [x], x.sub) == EventsOf(history, x.sub) + [x.event]
  {
    assert (history + [x])[..|history|] == history;
  }

  /** The atomic world that holds this row. */
  function View(s: World, sub: string): L.World {
    L.World(if sub in s.rows then Some(s.rows[sub]) else None, EventsOf(s.history, sub), s.plans, {}, 0)
  }

  lemma RunStep(s: World, first: Step, rest: seq<Step>)
    ensures Run(s, [first] + rest) == Run(Do(s, first), rest)
  {
    assert ([first] + rest)[1..] == rest;
  }

  // ---------------------------------------------------------------- a delivery

  function DeliverySteps(w: nat, sub: string, m: Message, id: DeliveryId, reply: ProviderReply, first: Call, second: Call, now: Instant): seq<Step> {
    [Read(w, sub)] + ([PlanMessage(w, m, id, reply, now)] + SettleSteps(w, first, second, now))
  }

  function SettleSteps(w: nat, first: Call, second: Call, now: Instant): seq<Step> {
    [PushPlans(w, first, second)] + ([Begin(w)] + ([ComputeEffect(w, now)] + ([Commit(w)] + [])))
  }

  predicate Ready(s: World, w: nat, sub: string) { JobOf(s, w).Idle? && sub in s.rows && Free(s, sub) }

  lemma SettleInOrder(s: World, w: nat, first: Call, second: Call, now: Instant)
    ensures Run(s, SettleSteps(w, first, second, now))
            == Do(Do(Do(Do(s, PushPlans(w, first, second)), Begin(w)), ComputeEffect(w, now)), Commit(w))
  {
    hide Do;
    var s1 := Do(s, PushPlans(w, first, second));
    var s2 := Do(s1, Begin(w));
    var s3 := Do(s2, ComputeEffect(w, now));
    RunStep(s, PushPlans(w, first, second), [Begin(w)] + ([ComputeEffect(w, now)] + ([Commit(w)] + [])));
    RunStep(s1, Begin(w), [ComputeEffect(w, now)] + ([Commit(w)] + []));
    RunStep(s2, ComputeEffect(w, now), [Commit(w)] + []);
    RunStep(s3, Commit(w), []);
  }

  lemma IdleSettlesNothing(s: World, w: nat, first: Call, second: Call, now: Instant)
    requires JobOf(s, w).Idle?
    ensures Run(s, SettleSteps(w, first, second, now)) == s
  {
    hide Run, Push, Marked;
    SettleInOrder(s, w, first, second, now);
  }

  lemma LockingIsAtomic(s: World, w: nat)
    requires JobOf(s, w).Pushed? && JobOf(s, w).sub in s.rows && Free(s, JobOf(s, w).sub)
    ensures var job := JobOf(s, w);
            Do(s, Begin(w)) == To(Lock(s, w, job.sub), w, InApply(job.sub, job.effect, job.id))
  {
  }

  lemma WritingIsAtomic(s: World, w: nat, now: Instant)
    requires JobOf(s, w).InApply? && JobOf(s, w).sub in s.rows
    ensures var job := JobOf(s, w);
            var r := s.rows[job.sub];
            var done := Do(Do(s, ComputeEffect(w, now)), Commit(w));
            && JobOf(done, w).Idle? && Free(done, job.sub) && done.plans == s.plans
            && (Marked(s.history, job.sub, job.id) ==> done.rows == s.rows && done.history == s.history)
            && (!Marked(s.history, job.sub, job.id) ==>
                  && done.rows == s.rows[job.sub := ApplyEffect(r, job.effect, now)]
                  && done.history == s.history + [Entry(job.sub, TraceOf(r, job.effect, job.id), None)])
  {
    hide Marked, ApplyEffect, TraceOf;
    var s1 := Do(s, ComputeEffect(w, now));
    assert JobOf(s1, w).Idle? || JobOf(s1, w).Writing?;
  }

  /** Under a lock nobody contends for, an effect is written once or not at all. */
  lemma ApplyingIsAtomic(s: World, w: nat, now: Instant)
    requires JobOf(s, w).Pushed? && JobOf(s, w).sub in s.rows && Free(s, JobOf(s, w).sub)
    ensures var job := JobOf(s, w);
            var r := s.rows[job.sub];
            var done := Do(Do(Do(s, Begin(w)), ComputeEffect(w, now)), Commit(w));
            && JobOf(done, w).Idle? && Free(done, job.sub) && done.plans == s.plans
            && (Marked(s.history, job.sub, job.id) ==> done.rows == s.rows && done.history == s.history)
            && (!Marked(s.history, job.sub, job.id) ==>
                  && done.rows == s.rows[job.sub := ApplyEffect(r, job.effect, now)]
                  && done.history == s.history + [Entry(job.sub, TraceOf(r, job.effect, job.id), None)])
  {
    hide Do, Marked, ApplyEffect, TraceOf;
    LockingIsAtomic(s, w);
    WritingIsAtomic(Do(s, Begin(w)), w, now);
  }

  lemma PushingIsAtomic(s: World, w: nat, first: Call, second: Call)
    requires JobOf(s, w).Planned?
    ensures var job := JobOf(s, w);
            var pushed := if job.effect.roles.Some? then Push(s.plans, job.effect.roles.value, first, second) else (s.plans, true);
            var next := Do(s, PushPlans(w, first, second));
            && next == To(s.(plans := pushed.0), w, if pushed.1 then Pushed(job.sub, job.effect, job.id) else Idle)
  {
    hide Push;
  }

  lemma SettlingIsAtomic(s: World, w: nat, first: Call, second: Call, now: Instant)
    requires JobOf(s, w).Planned? && JobOf(s, w).sub in s.rows && Free(s, JobOf(s, w).sub)
    ensures var job := JobOf(s, w);
            var done := Run(s, SettleSteps(w, first, second, now));
            && View(done, job.sub) == L.Settled(View(s, job.sub), s.rows[job.sub], job.effect, job.id, first, second, now)
            && JobOf(done, w).Idle? && Free(done, job.sub)
  {
    hide Push, Marked, HasMarker, ApplyEffect, Run, EventsOf, Do, TraceOf;
    var job := JobOf(s, w);
    var s1 := Do(s, PushPlans(w, first, second));
    SettleInOrder(s, w, first, second, now);
    PushingIsAtomic(s, w, first, second);
    MarksAgree(s.history, job.sub, job.id);
    if JobOf(s1, w).Pushed? {
      ApplyingIsAtomic(s1, w, now);
      AppendedEvent(s.history, Entry(job.sub, TraceOf(s.rows[job.sub], job.effect, job.id), None));
    } else {
      IdleInOrder(s1, w, now);
    }
  }

  lemma IdleInOrder(s: World, w: nat, now: Instant)
    requires JobOf(s, w).Idle?
    ensures Do(Do(Do(s, Begin(w)), ComputeEffect(w, now)), Commit(w)) == s
  {
  }

  lemma PlanningIsAtomic(s: World, w: nat, sub: string, m: Message, id: DeliveryId, reply: ProviderReply, now: Instant)
    requires Ready(s, w, sub)
    ensures var r := s.rows[sub];
            var planned := Do(Do(s, Read(w, sub)), PlanMessage(w, m, id, reply, now));
            && View(planned, sub) == View(s, sub) && planned.rows == s.rows && planned.locks == s.locks
            && JobOf(planned, w) == (if Marked(s.history, sub, id) || Plan(m, r, reply, now).None? then Idle
                                     else Planned(sub, Plan(m, r, reply, now).value, id))
  {
    hide Plan, Marked, EventsOf;
  }

  /** One worker reading, planning, pushing and applying alone is the atomic delivery. */
  lemma DeliveryAloneIsAtomic(s: World, w: nat, sub: string, m: Message, id: DeliveryId, reply: ProviderReply,
                              first: Call, second: Call, now: Instant)
    requires Ready(s, w, sub)
    ensures View(Run(s, DeliverySteps(w, sub, m, id, reply, first, second, now)), sub)
            == L.Delivered(View(s, sub), m, id, reply, first, second, now)
  {
    hide Plan, Marked, HasMarker, EventsOf, Do, Run, L.Settled;
    var s1 := Do(s, Read(w, sub));
    var s2 := Do(s1, PlanMessage(w, m, id, reply, now));
    RunStep(s, Read(w, sub), [PlanMessage(w, m, id, reply, now)] + SettleSteps(w, first, second, now));
    RunStep(s1, PlanMessage(w, m, id, reply, now), SettleSteps(w, first, second, now));
    PlanningIsAtomic(s, w, sub, m, id, reply, now);
    MarksAgree(s.history, sub, id);
    if JobOf(s2, w).Planned? {
      SettlingIsAtomic(s2, w, first, second, now);
    } else {
      IdleSettlesNothing(s2, w, first, second, now);
    }
  }

  // ---------------------------------------------------------------- a confirmation

  function QuestionSteps(w: nat, sub: string, reply: ProviderReply, first: Call, second: Call, now: Instant): seq<Step> {
    [Read(w, sub)] + ([PlanQuestion(w, reply, now)] + SettleSteps(w, first, second, now))
  }

  lemma QuestioningIsAtomic(s: World, w: nat, sub: string, reply: ProviderReply, now: Instant)
    requires Ready(s, w, sub)
    ensures var q := Ask(s.rows[sub], reply, now);
            var planned := Do(Do(s, Read(w, sub)), PlanQuestion(w, reply, now));
            && View(planned, sub) == View(s, sub) && planned.rows == s.rows && planned.locks == s.locks
            && JobOf(planned, w) == (if q.Settle? then Planned(sub, q.effect, q.id) else Idle)
  {
    hide Ask, EventsOf;
  }

  /** One worker asking, pushing and applying alone is the atomic confirmation. */
  lemma ConfirmationAloneIsAtomic(s: World, w: nat, sub: string, reply: ProviderReply, first: Call, second: Call, now: Instant)
    requires Ready(s, w, sub)
    ensures View(Run(s, QuestionSteps(w, sub, reply, first, second, now)), sub)
            == L.Asking(View(s, sub), reply, first, second, now)
  {
    hide Ask, EventsOf, Do, Run, L.Settled;
    var s1 := Do(s, Read(w, sub));
    var s2 := Do(s1, PlanQuestion(w, reply, now));
    RunStep(s, Read(w, sub), [PlanQuestion(w, reply, now)] + SettleSteps(w, first, second, now));
    RunStep(s1, PlanQuestion(w, reply, now), SettleSteps(w, first, second, now));
    QuestioningIsAtomic(s, w, sub, reply, now);
    if JobOf(s2, w).Planned? {
      SettlingIsAtomic(s2, w, first, second, now);
    } else {
      IdleSettlesNothing(s2, w, first, second, now);
    }
  }

  // ---------------------------------------------------------------- a cancellation, a start, a charge

  lemma TracesAgree(history: seq<Entry>, sub: string)
    ensures Traced(history, sub) <==> L.HasCancelTrace(EventsOf(history, sub))
  {
    if Traced(history, sub) {
      var x :| x in history && x.sub == sub && x.event.kind.CancelledEvent?;
      EventOfEntry(history, sub, x.event);
    }
    if L.HasCancelTrace(EventsOf(history, sub)) {
      var e :| e in EventsOf(history, sub) && e.kind.CancelledEvent?;
      EventOfEntry(history, sub, e);
    }
  }

  function OwnSteps(w: nat, sub: string, move: OwnMove, now: Instant): seq<Step> {
    [BeginOwn(w, sub)] + ([ComputeOwn(w, move, now)] + ([Commit(w)] + []))
  }

  lemma OwnInOrder(s: World, w: nat, sub: string, move: OwnMove, now: Instant)
    ensures Run(s, OwnSteps(w, sub, move, now)) == Do(Do(Do(s, BeginOwn(w, sub)), ComputeOwn(w, move, now)), Commit(w))
  {
    hide Do;
    var s1 := Do(s, BeginOwn(w, sub));
    var s2 := Do(s1, ComputeOwn(w, move, now));
    RunStep(s, BeginOwn(w, sub), [ComputeOwn(w, move, now)] + ([Commit(w)] + []));
    RunStep(s1, ComputeOwn(w, move, now), [Commit(w)] + []);
    RunStep(s2, Commit(w), []);
  }

  /** What a lock and a computed write leave to commit. */
  lemma WritingCommits(s: World, w: nat)
    requires JobOf(s, w).Writing?
    ensures var job, done := JobOf(s, w), Do(s, Commit(w));
            && done.rows == s.rows[job.sub := job.row] && done.plans == s.plans
            && done.history == if job.trace.Some? then s.history + [Entry(job.sub, job.trace.value, None)] else s.history
  {
  }

  lemma LockingHolds(s: World, w: nat, sub: string)
    requires Ready(s, w, sub)
    ensures var t := Do(s, BeginOwn(w, sub));
            JobOf(t, w) == InTx(sub) && t.rows == s.rows && t.plans == s.plans && t.history == s.history
  {
  }

  lemma OwnMoveComputes(s: World, w: nat, move: OwnMove, now: Instant)
    requires JobOf(s, w).InTx? && JobOf(s, w).sub in s.rows
    requires move.Reopen? ==> !IsLive(s.rows[JobOf(s, w).sub].status)
    ensures var sub, t := JobOf(s, w).sub, Do(s, ComputeOwn(w, move, now));
            var r := s.rows[sub];
            && t.rows == s.rows && t.plans == s.plans && t.history == s.history
            && (match move
                case Seal(reason, name) =>
                  var registered := r.cancelledAt.Some? && Traced(s.history, sub);
                  var trace := Event(CancelledEvent, Some(r.status), Some(r.status), None, None, name);
                  JobOf(t, w) == Writing(sub, r, CancelRow(r, reason, registered, now), if registered then None else Some(trace))
                case Reopen(kind, plan, name) =>
                  JobOf(t, w) == Writing(sub, r, StartRow(Some(r), r.brandId, plan, name, now),
                                         Some(PlainEvent(kind, Some(r.status), Some(Pending)))))
  {
    hide CancelRow, StartRow, Traced, IsLive;
  }

  lemma SealingIsAtomic(s: World, w: nat, sub: string, reason: string, name: Option<string>, now: Instant)
    requires Ready(s, w, sub)
    ensures var r := s.rows[sub];
            var registered := r.cancelledAt.Some? && Traced(s.history, sub);
            var trace := Event(CancelledEvent, Some(r.status), Some(r.status), None, None, name);
            var done := Do(Do(Do(s, BeginOwn(w, sub)), ComputeOwn(w, Seal(reason, name), now)), Commit(w));
            && done.rows == s.rows[sub := CancelRow(r, reason, registered, now)] && done.plans == s.plans
            && done.history == (if registered then s.history else s.history + [Entry(sub, trace, None)])
  {
    hide CancelRow, Traced, Do;
    LockingHolds(s, w, sub);
    var s1 := Do(s, BeginOwn(w, sub));
    OwnMoveComputes(s1, w, Seal(reason, name), now);
    WritingCommits(Do(s1, ComputeOwn(w, Seal(reason, name), now)), w);
  }

  lemma ReopeningIsAtomic(s: World, w: nat, sub: string, kind: EventKind, plan: string, name: string, now: Instant)
    requires Ready(s, w, sub) && !IsLive(s.rows[sub].status)
    ensures var r := s.rows[sub];
            var done := Do(Do(Do(s, BeginOwn(w, sub)), ComputeOwn(w, Reopen(kind, plan, name), now)), Commit(w));
            && done.rows == s.rows[sub := StartRow(Some(r), r.brandId, plan, name, now)] && done.plans == s.plans
            && done.history == s.history + [Entry(sub, PlainEvent(kind, Some(r.status), Some(Pending)), None)]
  {
    hide StartRow, IsLive, Do;
    LockingHolds(s, w, sub);
    var s1 := Do(s, BeginOwn(w, sub));
    OwnMoveComputes(s1, w, Reopen(kind, plan, name), now);
    WritingCommits(Do(s1, ComputeOwn(w, Reopen(kind, plan, name), now)), w);
  }

  /** A cancellation the provider has confirmed, written alone, is the atomic one. */
  lemma CancellationAloneIsAtomic(s: World, w: nat, sub: string, reason: string, triggeredBy: string, gateway: L.GatewayReply, now: Instant)
    requires Ready(s, w, sub) && L.Cancelling(View(s, sub), reason, triggeredBy, gateway, true, now).1
    ensures var r := s.rows[sub];
            var name := if r.provider.Confio? then L.CancelName(r) else None;
            View(Run(s, OwnSteps(w, sub, Seal(Text.Trim(reason), name), now)), sub)
            == L.Cancelling(View(s, sub), reason, triggeredBy, gateway, true, now).0.(canceled := {})
  {
    hide Run, Do, EventsOf, Traced, L.HasCancelTrace, CancelRow, L.CancelName, L.UsableText, Text.Trim;
    var r := s.rows[sub];
    var name := if r.provider.Confio? then L.CancelName(r) else None;
    OwnInOrder(s, w, sub, Seal(Text.Trim(reason), name), now);
    SealingIsAtomic(s, w, sub, Text.Trim(reason), name, now);
    TracesAgree(s.history, sub);
    AppendedEvent(s.history, Entry(sub, Event(CancelledEvent, Some(r.status), Some(r.status), None, None, name), None));
  }

  /** A start the provider has created, written alone over a row that is not live, is the atomic one. */
  lemma StartAloneIsAtomic(s: World, w: nat, sub: string, kind: EventKind, plan: string, name: string, now: Instant)
    requires Ready(s, w, sub) && !IsLive(s.rows[sub].status)
    ensures View(Run(s, OwnSteps(w, sub, Reopen(kind, plan, name), now)), sub)
            == L.Starting(View(s, sub), s.rows[sub].brandId, plan, kind, L.Created(name, true), now).(canceled := {})
  {
    hide Run, Do, EventsOf, StartRow, AskedName, IsLive;
    OwnInOrder(s, w, sub, Reopen(kind, plan, name), now);
    ReopeningIsAtomic(s, w, sub, kind, plan, name, now);
    AppendedEvent(s.history, Entry(sub, PlainEvent(kind, Some(s.rows[sub].status), Some(Pending)), None));
  }

  function ChargeSteps(w: nat, sub: string, bumps: nat, now: Instant): seq<Step> {
    [Read(w, sub)] + ([Save(w, Charge(bumps), now)] + ([Log(w)] + []))
  }

  lemma ChargingIsAtomic(s: World, w: nat, sub: string, bumps: nat, now: Instant)
    requires Ready(s, w, sub)
    ensures var r := s.rows[sub];
            var done := Do(Do(Do(s, Read(w, sub)), Save(w, Charge(bumps), now)), Log(w));
            && done.rows == s.rows[sub := ChargedRow(r, bumps)] && done.plans == s.plans
            && done.history == s.history + [Entry(sub, PlainEvent(PaymentFailed, Some(r.status), Some(PastDue)), None)]
  {
    hide ChargedRow;
    var s1 := Do(s, Read(w, sub));
    assert JobOf(s1, w) == Holding(sub, s.rows[sub]);
    assert JobOf(Do(s1, Save(w, Charge(bumps), now)), w).Logging?;
  }

  /** A charge whose link goes out, alone on its row, is the atomic one. */
  lemma ChargeAloneIsAtomic(s: World, w: nat, sub: string, isRetry: bool, handled: bool, now: Instant)
    requires Ready(s, w, sub)
    ensures View(Run(s, ChargeSteps(w, sub, if isRetry then 1 else 0, now)), sub)
            == L.Charged(View(s, sub), s.rows[sub], isRetry, handled, L.Emitted).(links := 0)
  {
    hide Run, Do, EventsOf, ChargedRow;
    var bumps := if isRetry then 1 else 0;
    var s1 := Do(s, Read(w, sub));
    var s2 := Do(s1, Save(w, Charge(bumps), now));
    RunStep(s, Read(w, sub), [Save(w, Charge(bumps), now)] + ([Log(w)] + []));
    RunStep(s1, Save(w, Charge(bumps), now), [Log(w)] + []);
    RunStep(s2, Log(w), []);
    RunNothing(Do(s2, Log(w)));
    ChargingIsAtomic(s, w, sub, bumps, now);
    AppendedEvent(s.history, Entry(sub, PlainEvent(PaymentFailed, Some(s.rows[sub].status), Some(PastDue)), None));
  }

  // ---------------------------------------------------------------- the other saves of a copy

  /** What the atomic machine does for each such save, the plan store left to its own steps. */
  function Handled(v: L.World, r: Row, move: StaleMove, now: Instant): L.World {
    match move
    case Charge(bumps) => L.Logged(v, PaymentFailed, r.status, PastDue).(row := Some(ChargedRow(r, bumps)))
    case RenewFromWallet(days) => L.WalletRenewed(v, r, L.NO_FAILURE, Refused, now, days)
    case Repurchase(plan, provider, wallet, days) =>
      L.Step(v, L.Config(0, days), L.Checkout(r.brandId, plan, provider, wallet, Refused, now))
    case Reinstate => L.Step(v, L.Config(0, 0), L.Reactivate)
    case Extend(days) => L.Step(v, L.Config(0, 0), L.AdminExtend(days))
    case SetPlan(plan) => L.Step(v, L.Config(0, 0), L.ChangePlan(plan))
  }

  lemma SavingWrites(s: World, w: nat, move: StaleMove, now: Instant)
    requires JobOf(s, w).Holding? && Free(s, JobOf(s, w).sub)
    ensures var job, t := JobOf(s, w), Do(Do(s, Save(w, move, now)), Log(w));
            && t.plans == s.plans
            && (if move.Reinstate? && !MayReactivate(job.copy) then t.rows == s.rows && t.history == s.history
                else
                  && t.rows == s.rows[job.sub := SavedRow(job.copy, move, now)]
                  && t.history == s.history + (if move.Extend? then [] else [Entry(job.sub, SavedEvent(job.copy, move), None)]))
  {
    hide SavedRow, SavedEvent, MayReactivate;
    var job := JobOf(s, w);
    var t := Do(s, Save(w, move, now));
    if move.Reinstate? && !MayReactivate(job.copy) {
      assert JobOf(t, w) == Idle;
    } else if !move.Extend? {
      assert JobOf(t, w) == Logging(job.sub, SavedEvent(job.copy, move));
    }
  }

  lemma HandledIs(v: L.World, r: Row, move: StaleMove, now: Instant)
    requires v.row == Some(r)
    ensures var h := Handled(v, r, move, now);
            && h.plans == v.plans && h.canceled == v.canceled && h.links == v.links
            && (if move.Reinstate? && !MayReactivate(r) then h.row == v.row && h.history == v.history
                else
                  && h.row == Some(SavedRow(r, move, now))
                  && h.history == v.history + (if move.Extend? then [] else [SavedEvent(r, move)]))
  {
    hide RowOk;
  }

  /** Each save of a copy, read, saved and told alone, is the atomic handler. */
  lemma SaveAloneIsAtomic(s: World, w: nat, sub: string, move: StaleMove, now: Instant)
    requires Ready(s, w, sub)
    ensures View(Run(s, [Read(w, sub)] + ([Save(w, move, now)] + ([Log(w)] + []))), sub) == Handled(View(s, sub), s.rows[sub], move, now)
  {
    hide Run, Do, EventsOf, Handled, SavedRow, SavedEvent, MayReactivate;
    ReadKeepsWorld(s, w, sub);
    var s1 := Do(s, Read(w, sub));
    var s2 := Do(s1, Save(w, move, now));
    RunStep(s, Read(w, sub), [Save(w, move, now)] + ([Log(w)] + []));
    RunStep(s1, Save(w, move, now), [Log(w)] + []);
    RunStep(s2, Log(w), []);
    RunNothing(Do(s2, Log(w)));
    SavingWrites(s1, w, move, now);
    HandledIs(View(s, sub), s.rows[sub], move, now);
    AppendedEvent(s.history, Entry(sub, SavedEvent(s.rows[sub], move), None));
    assert s.history + [] == s.history;
  }

  // ---------------------------------------------------------------- a renewal that fails

  /** Something in the renewal threw. */
  predicate Fails(wallet: L.WalletReply) {
    wallet.debit.DebitThrew? || !wallet.row.Accepted? || (!wallet.debit.FreeOfCharge? && !wallet.eventSaved)
  }

  /** The step of the machine at which such a renewal throws. */
  function FalterOf(w: nat, wallet: L.WalletReply, now: Instant, days: int): Step {
    if wallet.debit.DebitThrew? then Falter(w, None, false, now) else Falter(w, Some(RenewFromWallet(days)), !wallet.row.Refused?, now)
  }

  lemma FalterFails(s: World, w: nat, copy: Row, wallet: L.WalletReply, now: Instant, days: int)
    requires JobOf(s, w).Holding? && JobOf(s, w).copy == copy && Free(s, JobOf(s, w).sub)
    ensures var sub, renewed := JobOf(s, w).sub, WalletRenewedRow(copy, now, days);
            var t := Do(s, FalterOf(w, wallet, now, days));
            && JobOf(t, w) == Failing(sub, if wallet.debit.DebitThrew? then copy else renewed)
            && t.plans == s.plans && t.history == s.history && t.locks == s.locks
            && t.rows == if wallet.debit.DebitThrew? || wallet.row.Refused? then s.rows else s.rows[sub := renewed]
  {
    hide WalletRenewedRow;
  }

  lemma FalteringHolds(s: World, w: nat, sub: string, wallet: L.WalletReply, now: Instant, days: int, plans: PlanStore)
    requires Ready(s, w, sub)
    ensures var r := s.rows[sub];
            var renewed := WalletRenewedRow(r, now, days);
            var t := Do(Do(Do(s, Read(w, sub)), FalterOf(w, wallet, now, days)), PlansMove(plans));
            && JobOf(t, w) == Failing(sub, if wallet.debit.DebitThrew? then r else renewed)
            && t.plans == plans && t.history == s.history && Free(t, sub)
            && t.rows == if wallet.debit.DebitThrew? || wallet.row.Refused? then s.rows else s.rows[sub := renewed]
  {
    hide WalletRenewedRow, FalterOf;
    ReadKeepsWorld(s, w, sub);
    var s1 := Do(s, Read(w, sub));
    hide Do;
    FalterFails(s1, w, s.rows[sub], wallet, now, days);
    PlansMoveOnly(Do(s1, FalterOf(w, wallet, now, days)), plans);
  }

  lemma PlansMoveOnly(s: World, plans: PlanStore)
    ensures Do(s, PlansMove(plans)) == s.(plans := plans)
  {
  }

  lemma RecoveringWrites(s: World, w: nat)
    requires JobOf(s, w).Failing? && Free(s, JobOf(s, w).sub)
    ensures var job, t := JobOf(s, w), Do(Do(s, Recover(w)), Log(w));
            && t.rows == s.rows[job.sub := ChargedRow(job.copy, 1)] && t.plans == s.plans
            && t.history == s.history + [Entry(job.sub, PlainEvent(PaymentFailed, Some(PastDue), Some(PastDue)), None)]
  {
    hide ChargedRow;
    var job := JobOf(s, w);
    var t := Do(s, Recover(w));
    assert JobOf(t, w) == Logging(job.sub, PlainEvent(PaymentFailed, Some(PastDue), Some(PastDue)));
  }

  lemma FailedRenewalIs(v: L.World, r: Row, wallet: L.WalletReply, first: Call, now: Instant, days: int)
    requires Fails(wallet) && wallet.recovered && v.row == Some(r)
    ensures var done := L.WalletRenewed(v, r, wallet, first, now, days);
            var copy := if wallet.debit.DebitThrew? then r else WalletRenewedRow(r, now, days);
            && done.row == Some(ChargedRow(copy, 1)) && done.canceled == v.canceled && done.links == v.links
            && done.history == v.history + [PlainEvent(PaymentFailed, Some(PastDue), Some(PastDue))]
  {
    hide ChargedRow, WalletRenewedRow;
  }

  /** A renewal out of the wallet that throws anywhere, and its catch, alone on the row are the atomic ones. */
  lemma FailedRenewalAloneIsAtomic(s: World, w: nat, sub: string, wallet: L.WalletReply, first: Call, now: Instant, days: int)
    requires Ready(s, w, sub) && Fails(wallet) && wallet.recovered
    ensures var done := L.WalletRenewed(View(s, sub), s.rows[sub], wallet, first, now, days);
            var steps := [Read(w, sub)] + ([FalterOf(w, wallet, now, days)] + ([PlansMove(done.plans)] + ([Recover(w)] + ([Log(w)] + []))));
            View(Run(s, steps), sub) == done
  {
    hide Run, Do, EventsOf, ChargedRow, WalletRenewedRow, FalterOf, L.WalletRenewed, Fails;
    var r := s.rows[sub];
    var done := L.WalletRenewed(View(s, sub), r, wallet, first, now, days);
    var read, fall, push := Read(w, sub), FalterOf(w, wallet, now, days), PlansMove(done.plans);
    FailedRenewalIs(View(s, sub), r, wallet, first, now, days);
    FalteringHolds(s, w, sub, wallet, now, days, done.plans);
    ThreeInOrder(s, read, fall, push, [Recover(w)] + ([Log(w)] + []));
    var t := Do(Do(Do(s, read), fall), push);
    RunStep(t, Recover(w), [Log(w)] + []);
    RunStep(Do(t, Recover(w)), Log(w), []);
    RunNothing(Do(Do(t, Recover(w)), Log(w)));
    RecoveringWrites(t, w);
    AppendedEvent(s.history, Entry(sub, PlainEvent(PaymentFailed, Some(PastDue), Some(PastDue)), None));
  }

  lemma RunNothing(s: World)
    ensures Run(s, []) == s
  {
  }

  // ---------------------------------------------------------------- a closing pass

  function ClosingSteps(w: nat, sub: string, pass: Pass, first: Call, second: Call, now: Instant): seq<Step> {
    [Select(w, sub, pass, now)] + ([WithdrawPaid(w, first)] + ([GiveFree(w, second)] + EndingSteps(w)))
  }

  function EndingSteps(w: nat): seq<Step> { [StopCharging(w)] + ([CompareAndSet(w)] + ([LogClosing(w)] + [])) }

  lemma CloseInOrder(s: World, w: nat, sub: string, pass: Pass, first: Call, second: Call, now: Instant)
    ensures Run(s, ClosingSteps(w, sub, pass, first, second, now))
            == Ended(Do(Do(Do(s, Select(w, sub, pass, now)), WithdrawPaid(w, first)), GiveFree(w, second)), w)
  {
    hide Do;
    var s1 := Do(s, Select(w, sub, pass, now));
    var s2 := Do(s1, WithdrawPaid(w, first));
    var s3 := Do(s2, GiveFree(w, second));
    var s4 := Do(s3, StopCharging(w));
    var s5 := Do(s4, CompareAndSet(w));
    RunStep(s, Select(w, sub, pass, now), [WithdrawPaid(w, first)] + ([GiveFree(w, second)] + EndingSteps(w)));
    RunStep(s1, WithdrawPaid(w, first), [GiveFree(w, second)] + EndingSteps(w));
    RunStep(s2, GiveFree(w, second), EndingSteps(w));
    RunStep(s3, StopCharging(w), [CompareAndSet(w)] + ([LogClosing(w)] + []));
    RunStep(s4, CompareAndSet(w), [LogClosing(w)] + []);
    RunStep(s5, LogClosing(w), []);
  }

  function Ended(s: World, w: nat): World { Do(Do(Do(s, StopCharging(w)), CompareAndSet(w)), LogClosing(w)) }

  /** Where a pass stands after its row was degraded, or was not. */
  function Afterwards(pass: Pass, sub: string, copy: Row, moved: bool): Job {
    if moved then Degraded(pass, sub, copy) else if pass.Arrears? && copy.autoRenew then Stuck(sub) else Idle
  }

  lemma WithdrawingIsAtomic(s: World, w: nat, call: Call)
    requires JobOf(s, w).Selected?
    ensures var job := JobOf(s, w);
            DoWithdraw(s, w, call)
            == if !MovesPlan(job.copy) then To(s, w, Afterwards(job.pass, job.sub, job.copy, true))
               else To(s.(plans := Remove(s.plans, job.copy.brandId, job.copy.planSlug, call)), w,
                       if call.Accepted? then Withdrawn(job.pass, job.sub, job.copy)
                       else Afterwards(job.pass, job.sub, job.copy, false))
  {
    hide MovesPlan, Remove;
  }

  lemma GivingFreeIsAtomic(s: World, w: nat, call: Call)
    ensures var job := JobOf(s, w);
            DoGiveFree(s, w, call)
            == if !job.Withdrawn? then s
               else To(s.(plans := Assign(s.plans, job.copy.brandId, FREE_PLAN, None, call)), w,
                       Afterwards(job.pass, job.sub, job.copy, call.Accepted?))
  {
    hide Assign;
  }

  /** The two calls of the pass are the downgrade of the atomic handler, stopping where it stops. */
  lemma DegradingIsAtomic(s: World, w: nat, first: Call, second: Call)
    requires JobOf(s, w).Selected?
    ensures var job := JobOf(s, w);
            var moved := L.Degrade(s.plans, job.copy, first, second);
            var next := Do(Do(s, WithdrawPaid(w, first)), GiveFree(w, second));
            && next.plans == moved.0 && next.rows == s.rows && next.history == s.history
            && next.locks == s.locks && next.closings == s.closings
            && JobOf(next, w) == Afterwards(job.pass, job.sub, job.copy, moved.1)
  {
    hide DoWithdraw, DoGiveFree, Assign, Remove, DowngradeToFree;
    WithdrawingIsAtomic(s, w, first);
    GivingFreeIsAtomic(DoWithdraw(s, w, first), w, second);
    DegradeInTwo(s.plans, JobOf(s, w).copy, first, second);
  }

  lemma DegradeInTwo(plans: PlanStore, r: Row, first: Call, second: Call)
    ensures L.Degrade(plans, r, first, second)
            == if !MovesPlan(r) then (plans, true)
               else if !first.Accepted? then (Remove(plans, r.brandId, r.planSlug, first), false)
               else (Assign(Remove(plans, r.brandId, r.planSlug, first), r.brandId, FREE_PLAN, None, second), second.Accepted?)
  {
    hide Assign, Remove;
  }

  lemma ClosingIsAtomic(s: World, w: nat, pass: Pass, sub: string, copy: Row)
    requires sub in s.rows && Free(s, sub) && s.rows[sub] == copy && StillDue(pass, copy, copy)
    requires JobOf(s, w) == Degraded(pass, sub, copy)
    ensures Ended(s, w).rows == s.rows[sub := CloseBy(pass, copy)] && Ended(s, w).plans == s.plans
    ensures Ended(s, w).history == s.history + [Entry(sub, ClosingEvent(pass, copy), Some(|s.closings|))]
  {
    hide StillDue, CloseBy, ClosingEvent, Do;
    NotStuckStopsNothing(s, w);
    CompareAndSetCloses(s, w);
    ClosingIsLogged(Do(s, CompareAndSet(w)), w);
  }

  lemma NotStuckStopsNothing(s: World, w: nat)
    requires !JobOf(s, w).Stuck?
    ensures Do(s, StopCharging(w)) == s
  {
  }

  lemma CompareAndSetCloses(s: World, w: nat)
    requires JobOf(s, w).Degraded? && JobOf(s, w).sub in s.rows && Free(s, JobOf(s, w).sub)
    requires StillDue(JobOf(s, w).pass, JobOf(s, w).copy, s.rows[JobOf(s, w).sub])
    ensures var job := JobOf(s, w);
            var next := Do(s, CompareAndSet(w));
            && next.rows == s.rows[job.sub := CloseBy(job.pass, s.rows[job.sub])]
            && next.plans == s.plans && next.history == s.history
            && JobOf(next, w) == Closing(job.sub, ClosingEvent(job.pass, job.copy), |s.closings|)
  {
    hide StillDue, CloseBy, ClosingEvent;
  }

  lemma ClosingIsLogged(s: World, w: nat)
    requires JobOf(s, w).Closing?
    ensures var job := JobOf(s, w);
            var next := Do(s, LogClosing(w));
            && next.rows == s.rows && next.plans == s.plans
            && next.history == s.history + [Entry(job.sub, job.event, Some(job.number))]
  {
  }

  lemma StoppingIsAtomic(s: World, w: nat, sub: string)
    requires sub in s.rows && Free(s, sub) && JobOf(s, w) == Stuck(sub)
    ensures Ended(s, w).rows == s.rows[sub := s.rows[sub].(autoRenew := false)] && Ended(s, w).plans == s.plans
    ensures Ended(s, w).history == s.history
  {
    assert JobOf(Do(s, StopCharging(w)), w).Idle?;
    IdleEndsNothing(Do(s, StopCharging(w)), w);
  }

  lemma IdleEndsNothing(s: World, w: nat)
    requires JobOf(s, w).Idle?
    ensures Ended(s, w) == s
  {
  }

  lemma PassAloneIsAtomic(s: World, w: nat, sub: string, pass: Pass, first: Call, second: Call, now: Instant)
    requires Ready(s, w, sub)
    ensures var r := s.rows[sub];
            var moved := L.Degrade(s.plans, r, first, second);
            var done := Run(s, ClosingSteps(w, sub, pass, first, second, now));
            if !Due(pass, r, now, s.maxRetry) then done == s
            else if moved.1 then
              && done.rows == s.rows[sub := CloseBy(pass, r)] && done.plans == moved.0
              && done.history == s.history + [Entry(sub, ClosingEvent(pass, r), Some(|s.closings|))]
            else
              && done.rows == s.rows[sub := if pass.Arrears? then r.(autoRenew := false) else r] && done.plans == moved.0
              && done.history == s.history
  {
    hide Run, L.Degrade, CloseBy, ClosingEvent, Ended;
    var r := s.rows[sub];
    CloseInOrder(s, w, sub, pass, first, second, now);
    var s1 := Do(s, Select(w, sub, pass, now));
    if Due(pass, r, now, s.maxRetry) {
      assert JobOf(s1, w) == Selected(pass, sub, r) && s1.rows == s.rows && s1.locks == s.locks;
      DueRowIsStillDue(pass, r, now, s.maxRetry);
      DegradingIsAtomic(s1, w, first, second);
      var s3 := Do(Do(s1, WithdrawPaid(w, first)), GiveFree(w, second));
      match JobOf(s3, w) {
        case Degraded(_, _, _) => ClosingIsAtomic(s3, w, pass, sub, r);
        case Stuck(_) => StoppingIsAtomic(s3, w, sub);
        case Idle => IdleEndsNothing(s3, w);
      }
    } else {
      NotSelectedEndsNothing(s, w, first, second);
    }
  }

  lemma DueRowIsStillDue(pass: Pass, r: Row, now: Instant, maxRetry: int)
    requires Due(pass, r, now, maxRetry)
    ensures StillDue(pass, r, r)
  {
  }

  lemma NotSelectedEndsNothing(s: World, w: nat, first: Call, second: Call)
    requires JobOf(s, w).Idle?
    ensures Ended(Do(Do(s, WithdrawPaid(w, first)), GiveFree(w, second)), w) == s
  {
    hide Ended;
    IdleEndsNothing(s, w);
  }

  /** Each of the three passes, alone on a row, is its atomic handler. */
  lemma ArrearsPassAloneIsAtomic(s: World, w: nat, sub: string, cfg: L.Config, first: Call, second: Call, now: Instant)
    requires Ready(s, w, sub) && cfg.maxRetry == s.maxRetry
    ensures View(Run(s, ClosingSteps(w, sub, Arrears, first, second, now)), sub)
            == L.ArrearsExpired(View(s, sub), cfg, first, second)
  {
    hide Run, L.Degrade, EventsOf, ClosingSteps;
    PassAloneIsAtomic(s, w, sub, Arrears, first, second, now);
    AppendedEvent(s.history, Entry(sub, ClosingEvent(Arrears, s.rows[sub]), Some(|s.closings|)));
  }

  lemma LapsedPassAloneIsAtomic(s: World, w: nat, sub: string, cfg: L.Config, first: Call, second: Call, now: Instant)
    requires Ready(s, w, sub) && cfg.maxRetry == s.maxRetry
    ensures View(Run(s, ClosingSteps(w, sub, Lapsed(now), first, second, now)), sub)
            == L.CancelledClosed(View(s, sub), cfg, first, second, now)
  {
    hide Run, L.Degrade, EventsOf, ClosingSteps;
    PassAloneIsAtomic(s, w, sub, Lapsed(now), first, second, now);
    AppendedEvent(s.history, Entry(sub, ClosingEvent(Lapsed(now), s.rows[sub]), Some(|s.closings|)));
  }

  lemma TrialPassAloneIsAtomic(s: World, w: nat, sub: string, cfg: L.Config, charge: L.ChargeReply, wallet: L.WalletReply,
                               first: Call, second: Call, now: Instant)
    requires Ready(s, w, sub) && DueTrialEnd(s.rows[sub], now)
    ensures View(Run(s, ClosingSteps(w, sub, TrialOver, first, second, now)), sub)
            == L.TrialConverted(View(s, sub), cfg, charge, wallet, first, second, now)
  {
    hide Run, L.Degrade, EventsOf, ClosingSteps;
    PassAloneIsAtomic(s, w, sub, TrialOver, first, second, now);
    AppendedEvent(s.history, Entry(sub, ClosingEvent(TrialOver, s.rows[sub]), Some(|s.closings|)));
  }

  // ---------------------------------------------------------------- where the two machines part

  predicate KeepsPaidPlan(s: World, r: Row) { (r.brandId, r.planSlug) in s.plans }

  function Three(s: World, a: Step, b: Step, c: Step): World { Do(Do(Do(s, a), b), c) }

  lemma ThreeInOrder(s: World, a: Step, b: Step, c: Step, rest: seq<Step>)
    ensures Run(s, [a] + ([b] + ([c] + rest))) == Run(Three(s, a, b, c), rest)
  {
    hide Do;
    RunStep(s, a, [b] + ([c] + rest));
    RunStep(Do(s, a), b, [c] + rest);
    RunStep(Do(Do(s, a), b), c, rest);
  }

  /** Three steps of one worker, and the job of another. */
  lemma ThreeKeepOther(s: World, a: Step, b: Step, c: Step, v: nat)
    requires Marking(s) && HasActor(a) && HasActor(b) && HasActor(c) && v !in {a.w, b.w, c.w}
    ensures Marking(Three(s, a, b, c)) && JobOf(Three(s, a, b, c), v) == JobOf(s, v)
  {
    hide Do, Marking;
    OtherStepKeepsJob(s, v, a);
    StepKeepsMarking(s, a);
    OtherStepKeepsJob(Do(s, a), v, b);
    StepKeepsMarking(Do(s, a), b);
    OtherStepKeepsJob(Do(Do(s, a), b), v, c);
    StepKeepsMarking(Do(Do(s, a), b), c);
  }

  /** Read, planned and pushed: the effect waits for the lock, and the row has not moved. */
  lemma PlannedAndPushed(s: World, w: nat, sub: string, plan: Step, e: Effect, id: DeliveryId)
    requires Ready(s, w, sub) && (plan.PlanMessage? || plan.PlanQuestion?) && plan.w == w
    requires JobOf(Do(Do(s, Read(w, sub)), plan), w) == Planned(sub, e, id)
    ensures var pushed := Three(s, Read(w, sub), plan, PushPlans(w, Accepted, Accepted));
            && pushed.rows == s.rows && pushed.locks == s.locks && pushed.history == s.history
            && pushed.plans == (if e.roles.Some? then Push(s.plans, e.roles.value, Accepted, Accepted).0 else s.plans)
            && JobOf(pushed, w) == Pushed(sub, e, id)
  {
    hide DoPlan, Push;
    var s1 := Do(s, Read(w, sub));
    hide Do;
    ReadKeepsWorld(s, w, sub);
    PlanningMovesJob(s1, plan);
    PushingIsAtomic(Do(s1, plan), w, Accepted, Accepted);
    PlanKeepsPlans(s1, plan);
    if e.roles.Some? { AcceptedPushLands(s.plans, e.roles.value); }
  }

  lemma AcceptedPushLands(plans: PlanStore, move: RolesMove)
    ensures Push(plans, move, Accepted, Accepted).1
  {
  }

  lemma ReadKeepsWorld(s: World, w: nat, sub: string)
    requires Ready(s, w, sub)
    ensures Do(s, Read(w, sub)) == To(s, w, Holding(sub, s.rows[sub]))
  {
  }

  lemma PlanKeepsPlans(s: World, plan: Step)
    requires plan.PlanMessage? || plan.PlanQuestion?
    ensures Do(s, plan) == DoPlan(s, plan) && Do(s, plan).plans == s.plans
  {
    hide Plan, Ask, Marked;
  }

  /** A pass that has degraded its row, both calls accepted. */
  lemma SelectedAndDegraded(s: World, w: nat, sub: string, pass: Pass, now: Instant)
    requires Ready(s, w, sub) && Due(pass, s.rows[sub], now, s.maxRetry) && MovesPlan(s.rows[sub])
    ensures var r := s.rows[sub];
            var degraded := Three(s, Select(w, sub, pass, now), WithdrawPaid(w, Accepted), GiveFree(w, Accepted));
            && degraded.rows == s.rows && degraded.locks == s.locks && degraded.history == s.history
            && (r.brandId, r.planSlug) !in degraded.plans
            && JobOf(degraded, w) == Degraded(pass, sub, r)
  {
    hide L.Degrade, Due, DoWithdraw, DoGiveFree;
    var s1 := Do(s, Select(w, sub, pass, now));
    assert JobOf(s1, w) == Selected(pass, sub, s.rows[sub]) && s1.plans == s.plans;
    hide Do;
    DegradingIsAtomic(s1, w, Accepted, Accepted);
    DegradeInTwo(s.plans, s.rows[sub], Accepted, Accepted);
  }

  lemma PaymentRevives(r: Row, reply: ProviderReply, now: Instant)
    ensures var e := Plan(Billing(true, ""), r, reply, now);
            && e.Some?
            && var paid := ApplyEffect(r, e.value, now);
               paid.status.Active? && paid.retryCount == 0 && paid.brandId == r.brandId && paid.planSlug == r.planSlug
  {
    hide ProviderPeriod, LocalPeriod, RowOk;
  }

  lemma MissedArrearsEndThere(s: World, w: nat, sub: string, copy: Row)
    requires JobOf(s, w) == Degraded(Arrears, sub, copy) && Free(s, sub) && sub in s.rows && !s.rows[sub].status.PastDue?
    ensures Do(s, CompareAndSet(w)) == To(s, w, Idle)
  {
    hide CloseBy, ClosingEvent;
  }

  /**
   A payment that lands while an arrears pass is calling the plan store: the row is paid for and
   live, its brand is left on `free`, and the pass, unlike that of lapsed cancellations, ends there.
   */
  lemma ArrearsPassHasNoRepair(s: World, sub: string, id: DeliveryId, now: Instant)
    requires Marking(s) && Ready(s, 0, sub) && Ready(s, 1, sub) && !Marked(s.history, sub, id)
    requires DueExpiry(s.rows[sub], s.maxRetry) && MovesPlan(s.rows[sub])
    ensures exists steps: seq<Step> ::
              var t := Run(s, steps);
              && sub in t.rows && t.rows[sub].status.Active? && t.rows[sub].retryCount == 0
              && !KeepsPaidPlan(t, t.rows[sub]) && JobOf(t, 0).Idle? && JobOf(t, 1).Idle?
  {
    hide Run, Marked, Do, Marking, Plan, Due, ApplyEffect, Push, Three;
    var r := s.rows[sub];
    var m := Billing(true, "");
    PaymentRevives(r, Unreachable, now);
    var e := Plan(m, r, Unreachable, now).value;
    var read, plan, push := Read(1, sub), PlanMessage(1, m, id, Unreachable, now), PushPlans(1, Accepted, Accepted);
    var take, remove, give := Select(0, sub, Arrears, now), WithdrawPaid(0, Accepted), GiveFree(0, Accepted);
    var begin, compute, commit, close := Begin(1), ComputeEffect(1, now), Commit(1), CompareAndSet(0);
    var s3 := Three(s, read, plan, push);
    var s6 := Three(s3, take, remove, give);
    var s9 := Three(s6, begin, compute, commit);
    PlanningIsAtomic(s, 1, sub, m, id, Unreachable, now);
    PlannedAndPushed(s, 1, sub, plan, e, id);
    ThreeKeepOther(s, read, plan, push, 0);
    ThreeKeepMaxRetry(s, read, plan, push);
    assert Due(Arrears, r, now, s3.maxRetry) by { ArrearsAreDue(r, now, s.maxRetry); }
    SelectedAndDegraded(s3, 0, sub, Arrears, now);
    ThreeKeepOther(s3, take, remove, give, 1);
    PaidBeforeClosing(s6, sub, r, e, id, now);
    var t := Do(s9, close);
    assert JobOf(t, 1).Idle? && JobOf(t, 0).Idle?;
    assert sub in t.rows && t.rows[sub] == ApplyEffect(r, e, now) && t.plans == s6.plans;
    var steps := [read] + ([plan] + ([push] + ([take] + ([remove] + ([give] + ([begin] + ([compute] + ([commit] + ([close] + [])))))))));
    TenInOrder(s, read, plan, push, take, remove, give, begin, compute, commit, close);
    assert Run(s, steps) == t;
  }

  lemma PaidBeforeClosing(s: World, sub: string, copy: Row, e: Effect, id: DeliveryId, now: Instant)
    requires Marking(s) && sub in s.rows && Free(s, sub) && !Marked(s.history, sub, id)
    requires JobOf(s, 1) == Pushed(sub, e, id) && JobOf(s, 0) == Degraded(Arrears, sub, copy)
    requires !ApplyEffect(s.rows[sub], e, now).status.PastDue?
    ensures var t := Do(Three(s, Begin(1), ComputeEffect(1, now), Commit(1)), CompareAndSet(0));
            && t.plans == s.plans && JobOf(t, 0).Idle? && JobOf(t, 1).Idle?
            && sub in t.rows && t.rows[sub] == ApplyEffect(s.rows[sub], e, now)
  {
    hide Marked, Do, Marking, ApplyEffect, TraceOf;
    ApplyingIsAtomic(s, 1, now);
    ThreeKeepOther(s, Begin(1), ComputeEffect(1, now), Commit(1), 0);
    MissedArrearsEndThere(Three(s, Begin(1), ComputeEffect(1, now), Commit(1)), 0, sub, copy);
  }

  lemma ArrearsAreDue(r: Row, now: Instant, maxRetry: int)
    requires DueExpiry(r, maxRetry)
    ensures Due(Arrears, r, now, maxRetry)
  {
  }

  lemma ThreeKeepMaxRetry(s: World, a: Step, b: Step, c: Step)
    ensures Three(s, a, b, c).maxRetry == s.maxRetry
  {
    hide Do;
    StepKeepsMaxRetry(s, a);
    StepKeepsMaxRetry(Do(s, a), b);
    StepKeepsMaxRetry(Do(Do(s, a), b), c);
  }

  lemma PassKeepsMaxRetry(s: World, step: Step)
    requires step.Select? || step.WithdrawPaid? || step.GiveFree? || step.StopCharging? || step.CompareAndSet? || step.LogClosing?
             || step.Reread? || step.Repair?
    ensures Do(s, step).maxRetry == s.maxRetry
  {
    hide StillDue, CloseBy, ClosingEvent, Due, MovesPlan, Entitled, Assign, Remove;
  }

  lemma SaveKeepsMaxRetry(s: World, step: Step)
    requires step.Save? || step.Falter? || step.Recover? || step.Log?
    ensures Do(s, step).maxRetry == s.maxRetry
  {
    hide SavedRow, SavedEvent, ChargedRow, MayReactivate;
  }

  lemma StepKeepsMaxRetry(s: World, step: Step)
    ensures Do(s, step).maxRetry == s.maxRetry
  {
    hide Plan, Ask, Push, Marked, Traced, ApplyEffect, CancelRow, StartRow, SavedRow, SavedEvent, RowOk, MayReactivate, TraceOf;
    hide DoSelect, DoWithdraw, DoGiveFree, DoStopCharging, DoCompareAndSet, DoLogClosing, DoReread, DoRepair;
    hide DoSave, DoFalter, DoRecover, DoLog;
    match step {
      case Save(_, _, _) => SaveKeepsMaxRetry(s, step);
      case Falter(_, _, _, _) => SaveKeepsMaxRetry(s, step);
      case Recover(_) => SaveKeepsMaxRetry(s, step);
      case Log(_) => SaveKeepsMaxRetry(s, step);
      case Select(_, _, _, _) => PassKeepsMaxRetry(s, step);
      case WithdrawPaid(_, _) => PassKeepsMaxRetry(s, step);
      case GiveFree(_, _) => PassKeepsMaxRetry(s, step);
      case StopCharging(_) => PassKeepsMaxRetry(s, step);
      case CompareAndSet(_) => PassKeepsMaxRetry(s, step);
      case LogClosing(_) => PassKeepsMaxRetry(s, step);
      case Reread(_) => PassKeepsMaxRetry(s, step);
      case Repair(_, _) => PassKeepsMaxRetry(s, step);
      case _ =>
    }
  }

  lemma TenInOrder(s: World, a: Step, b: Step, c: Step, d: Step, e: Step, f: Step, g: Step, h: Step, i: Step, j: Step)
    ensures Run(s, [a] + ([b] + ([c] + ([d] + ([e] + ([f] + ([g] + ([h] + ([i] + ([j] + []))))))))))
            == Do(Three(Three(Three(s, a, b, c), d, e, f), g, h, i), j)
  {
    hide Do, Three;
    ThreeInOrder(s, a, b, c, [d] + ([e] + ([f] + ([g] + ([h] + ([i] + ([j] + [])))))));
    ThreeInOrder(Three(s, a, b, c), d, e, f, [g] + ([h] + ([i] + ([j] + []))));
    ThreeInOrder(Three(Three(s, a, b, c), d, e, f), g, h, i, [j] + []);
    RunStep(Three(Three(Three(s, a, b, c), d, e, f), g, h, i), j, []);
  }

  /** ConfioPagos said a pending row was dead; nothing in the plan store has to move for that. */
  lemma DeadPendingClosesSilently(r: Row, now: Instant)
    requires r.status.Pending? && AskedName(r) != ""
    ensures var q := Ask(r, Found(CANCELED, None, None, None), now);
            && q.Settle? && q.id == Asked(AskedName(r), CANCELED, None) && q.effect.roles.None?
            && forall x: Row :: ApplyEffect(x, q.effect, now).status.Cancelled?
                                && ApplyEffect(x, q.effect, now).brandId == x.brandId
                                && ApplyEffect(x, q.effect, now).planSlug == x.planSlug
  {
    hide RowOk, EffectOk;
  }

  lemma AcceptanceGrants(r: Row, now: Instant)
    requires r.status.Pending? && r.cancelledAt.None? && r.brandId != "" && r.planSlug != ""
    ensures var e := Plan(StatusChange(ACTIVE, ""), r, Unreachable, now);
            && e.Some? && e.value.roles.Some? && e.value.roles.value.action.Restore?
            && e.value.roles.value.brandId == r.brandId && e.value.roles.value.planSlug == r.planSlug
            && ApplyEffect(r, e.value, now).brandId == r.brandId && ApplyEffect(r, e.value, now).planSlug == r.planSlug
  {
    hide LocalPeriod, RowOk, EffectOk;
  }

  lemma AppendMarksOnlyItself(history: seq<Entry>, x: Entry, sub: string, id: DeliveryId)
    requires !Marked(history, sub, id) && x.event.delivery != Some(id)
    ensures !Marked(history + [x], sub, id)
  {
  }

  /** Worker 0 is about to write that the row is dead, worker 1 that it is granted. */
  lemma BothArePushed(s: World, sub: string, m: Message, id: DeliveryId, dead: ProviderReply, now: Instant)
    requires Marking(s) && Ready(s, 0, sub) && Ready(s, 1, sub) && !Marked(s.history, sub, id)
    requires Ask(s.rows[sub], dead, now).Settle? && Ask(s.rows[sub], dead, now).effect.roles.None?
    requires Plan(m, s.rows[sub], Unreachable, now).Some? && Plan(m, s.rows[sub], Unreachable, now).value.roles.Some?
    ensures var q, e := Ask(s.rows[sub], dead, now), Plan(m, s.rows[sub], Unreachable, now).value;
            var t := Three(Three(s, Read(0, sub), PlanQuestion(0, dead, now), PushPlans(0, Accepted, Accepted)),
                           Read(1, sub), PlanMessage(1, m, id, Unreachable, now), PushPlans(1, Accepted, Accepted));
            && Marking(t) && t.rows == s.rows && t.locks == s.locks && t.history == s.history
            && t.plans == Push(s.plans, e.roles.value, Accepted, Accepted).0
            && JobOf(t, 0) == Pushed(sub, q.effect, q.id) && JobOf(t, 1) == Pushed(sub, e, id)
  {
    hide Marked, Do, Marking, Plan, Ask, Push;
    var q, e := Ask(s.rows[sub], dead, now), Plan(m, s.rows[sub], Unreachable, now).value;
    var read0, ask, push0 := Read(0, sub), PlanQuestion(0, dead, now), PushPlans(0, Accepted, Accepted);
    var read1, plan, push1 := Read(1, sub), PlanMessage(1, m, id, Unreachable, now), PushPlans(1, Accepted, Accepted);
    QuestionIsAtomic(s, 0, sub, dead, now);
    PlannedAndPushed(s, 0, sub, ask, q.effect, q.id);
    ThreeKeepOther(s, read0, ask, push0, 1);
    var t := Three(s, read0, ask, push0);
    PlanningIsAtomic(t, 1, sub, m, id, Unreachable, now);
    PlannedAndPushed(t, 1, sub, plan, e, id);
    ThreeKeepOther(t, read1, plan, push1, 0);
  }

  /**
   The atomic handlers never close a paid row before its plan is gone; interleaved they can. A
   pending row is read and found cancelled at the provider; before that is written, a late
   acceptance grants the plan; then the closing lands on the granted row and moves no plan.
   */
  lemma PendingCloseKeepsGrantedPlan(s: World, sub: string, id: DeliveryId, now: Instant)
    requires Marking(s) && Ready(s, 0, sub) && Ready(s, 1, sub)
    requires var r := s.rows[sub];
             && r.status.Pending? && r.cancelledAt.None? && AskedName(r) != "" && MovesPlan(r)
             && !Marked(s.history, sub, id) && !Marked(s.history, sub, Asked(AskedName(r), CANCELED, None))
             && id != Asked(AskedName(r), CANCELED, None)
    ensures exists steps: seq<Step> ::
              var t := Run(s, steps);
              && sub in t.rows && IsTerminal(t.rows[sub].status) && KeepsPaidPlan(t, t.rows[sub])
              && JobOf(t, 0).Idle? && JobOf(t, 1).Idle?
  {
    hide Run, Marked, Do, Marking, Plan, Ask, ApplyEffect, TraceOf, Push, Three;
    var r := s.rows[sub];
    var dead := Found(CANCELED, None, None, None);
    var m := StatusChange(ACTIVE, "");
    DeadPendingClosesSilently(r, now);
    AcceptanceGrants(r, now);
    var q := Ask(r, dead, now);
    var e := Plan(m, r, Unreachable, now).value;
    BothArePushed(s, sub, m, id, dead, now);
    var read0, ask, push0 := Read(0, sub), PlanQuestion(0, dead, now), PushPlans(0, Accepted, Accepted);
    var read1, plan, push1 := Read(1, sub), PlanMessage(1, m, id, Unreachable, now), PushPlans(1, Accepted, Accepted);
    var pushed := Three(Three(s, read0, ask, push0), read1, plan, push1);
    BothApply(pushed, sub, e, id, q.effect, q.id, now);
    RestoreLands(s.plans, e.roles.value);
    TwelveInOrder(s, read0, ask, push0, read1, plan, push1, Begin(1), ComputeEffect(1, now), Commit(1),
                  Begin(0), ComputeEffect(0, now), Commit(0));
  }

  /** Two effects waiting for the same row are both written, the second over the first. */
  lemma BothApply(s: World, sub: string, e: Effect, id: DeliveryId, f: Effect, jd: DeliveryId, now: Instant)
    requires Marking(s) && sub in s.rows && Free(s, sub) && id != jd
    requires JobOf(s, 1) == Pushed(sub, e, id) && JobOf(s, 0) == Pushed(sub, f, jd)
    requires !Marked(s.history, sub, id) && !Marked(s.history, sub, jd)
    ensures var t := Three(Three(s, Begin(1), ComputeEffect(1, now), Commit(1)), Begin(0), ComputeEffect(0, now), Commit(0));
            && t.plans == s.plans && JobOf(t, 0).Idle? && JobOf(t, 1).Idle?
            && sub in t.rows && t.rows[sub] == ApplyEffect(ApplyEffect(s.rows[sub], e, now), f, now)
  {
    hide Marked, Do, Marking, ApplyEffect, TraceOf;
    var r := s.rows[sub];
    var t := Three(s, Begin(1), ComputeEffect(1, now), Commit(1));
    ApplyingIsAtomic(s, 1, now);
    ThreeKeepOther(s, Begin(1), ComputeEffect(1, now), Commit(1), 0);
    TraceCarriesMark(r, e, id);
    AppendMarksOnlyItself(s.history, Entry(sub, TraceOf(r, e, id), None), sub, jd);
    ApplyingIsAtomic(t, 0, now);
    ThreeKeepOther(t, Begin(0), ComputeEffect(0, now), Commit(0), 1);
  }

  lemma TraceCarriesMark(r: Row, e: Effect, id: DeliveryId)
    ensures TraceOf(r, e, id).delivery == Some(id)
  {
  }

  lemma RestoreLands(plans: PlanStore, move: RolesMove)
    requires move.action.Restore?
    ensures (move.brandId, move.planSlug) in Push(plans, move, Accepted, Accepted).0
  {
  }

  lemma QuestionIsAtomic(s: World, w: nat, sub: string, reply: ProviderReply, now: Instant)
    requires Ready(s, w, sub) && Ask(s.rows[sub], reply, now).Settle?
    ensures var q := Ask(s.rows[sub], reply, now);
            JobOf(Do(Do(s, Read(w, sub)), PlanQuestion(w, reply, now)), w) == Planned(sub, q.effect, q.id)
  {
    hide Ask;
  }

  lemma TwelveInOrder(s: World, a: Step, b: Step, c: Step, d: Step, e: Step, f: Step, g: Step, h: Step, i: Step, j: Step, k: Step, l: Step)
    ensures Run(s, [a] + ([b] + ([c] + ([d] + ([e] + ([f] + ([g] + ([h] + ([i] + ([j] + ([k] + ([l] + []))))))))))))
            == Three(Three(Three(Three(s, a, b, c), d, e, f), g, h, i), j, k, l)
  {
    hide Do, Three;
    ThreeInOrder(s, a, b, c, [d] + ([e] + ([f] + ([g] + ([h] + ([i] + ([j] + ([k] + ([l] + [])))))))));
    ThreeInOrder(Three(s, a, b, c), d, e, f, [g] + ([h] + ([i] + ([j] + ([k] + ([l] + []))))));
    ThreeInOrder(Three(Three(s, a, b, c), d, e, f), g, h, i, [j] + ([k] + ([l] + [])));
    ThreeInOrder(Three(Three(Three(s, a, b, c), d, e, f), g, h, i), j, k, l, []);
  }
}
