/**
 The handlers as the code writes them: a row is read, assigned field by field and saved whole, its
 trace is appended, and the plan store is called beside it. Each method is proved to be the
 function on values that the two machines are built from; the two hourly closing passes are the
 loops of the crons, proved to be the atomic handler taken row by row.
 */
module SubscriptionRecord {
  import opened Basics
  import opened Subscriptions
  import opened ConfioWebhook
  import opened RowMoves
  import opened Interleaving
  import L = Lifecycle
  import Refinement
  import Wallets
  import WalletRenewals

  /** `backend-roles` as the client sees it: every call answers yes or no. */
  class RolesStore {
    var plans: PlanStore

    constructor (plans: PlanStore)
      ensures this.plans == plans
    {
      this.plans := plans;
    }

    method RemovePlanFromBrand(brand: string, plan: string, call: Call) returns (ok: bool)
      modifies this
      ensures plans == Remove(old(plans), brand, plan, call) && ok == call.Accepted?
    {
      if !call.Refused? { plans := plans - {(brand, plan)}; }
      ok := call.Accepted?;
    }

    method AssignPlanToBrand(brand: string, plan: string, until: Option<Instant>, call: Call) returns (ok: bool)
      modifies this
      ensures plans == Assign(old(plans), brand, plan, until, call) && ok == call.Accepted?
    {
      if !call.Refused? { plans := plans[(brand, plan) := until]; }
      ok := call.Accepted?;
    }

    /** A plan the brand does not hold cannot be renewed. */
    method RenewPlanForBrand(brand: string, plan: string, until: Instant, call: Call) returns (ok: bool)
      modifies this
      ensures ok <==> call.Accepted? && (brand, plan) in old(plans)
      ensures plans == if call.Refused? || (brand, plan) !in old(plans) then old(plans) else old(plans)[(brand, plan) := Some(until)]
    {
      if (brand, plan) !in plans { return false; }
      if !call.Refused? { plans := plans[(brand, plan) := Some(until)]; }
      ok := call.Accepted?;
    }

    /** Withdraw the paid plan, then leave `free` without expiry; stop at the first refusal. */
    method DowngradeBrandToFree(brand: string, plan: string, first: Call, second: Call) returns (ok: bool)
      modifies this
      ensures (plans, ok) == DowngradeToFree(old(plans), brand, plan, first, second)
    {
      if plan == FREE_PLAN { return true; }
      var removed := RemovePlanFromBrand(brand, plan, first);
      if !removed { return false; }
      ok := AssignPlanToBrand(brand, FREE_PLAN, None, second);
    }

    /** `degradarEnRoles`: a row without brand or plan has nothing to move. */
    method Degrade(r: Row, first: Call, second: Call) returns (ok: bool)
      modifies this
      ensures (plans, ok) == L.Degrade(old(plans), r, first, second)
    {
      if r.brandId == "" || r.planSlug == "" { return true; }
      ok := DowngradeBrandToFree(r.brandId, r.planSlug, first, second);
    }

    /** `sincronizarAccesoEnRoles`: the one movement an effect asks for. */
    method Move(move: RolesMove, first: Call, second: Call) returns (ok: bool)
      modifies this
      ensures (plans, ok) == Push(old(plans), move, first, second)
    {
      match move.action {
        case Downgrade => ok := DowngradeBrandToFree(move.brandId, move.planSlug, first, second);
        case Withdraw => ok := RemovePlanFromBrand(move.brandId, move.planSlug, first);
        case Restore => ok := AssignPlanToBrand(move.brandId, move.planSlug, move.expiresAt, first);
      }
    }
  }

  // ---------------------------------------------------------------- a closing pass over many rows

  /** What a pass reads and writes: the rows, their history and the plan store. */
  datatype Tables = Tables(rows: map<string, Row>, events: seq<Entry>, plans: PlanStore)

  /** What the plan store will answer about each row: to the withdrawal, then to the free plan. */
  type Answers = string -> (Call, Call)

  /** Whether the downgrade of the row goes through; it does not depend on what the store holds. */
  predicate Degrades(r: Row, answers: (Call, Call)) { L.Degrade(map[], r, answers.0, answers.1).1 }

  /** The atomic handler on one row: degrade, then close and trace, or leave it for the next pass. */
  function CloseOne(t: Tables, pass: Pass, id: string, now: Instant, maxRetry: int, answers: Answers): Tables {
    if id !in t.rows || !Due(pass, t.rows[id], now, maxRetry) then t
    else
      var r := t.rows[id];
      var plans := L.Degrade(t.plans, r, answers(id).0, answers(id).1).0;
      if Degrades(r, answers(id))
      then Tables(t.rows[id := CloseBy(pass, r)], t.events + [Entry(id, ClosingEvent(pass, r), None)], plans)
      else Tables(t.rows[id := if pass.Arrears? then r.(autoRenew := false) else r], t.events, plans)
  }

  function CloseAll(t: Tables, pass: Pass, ids: seq<string>, now: Instant, maxRetry: int, answers: Answers): Tables {
    if ids == [] then t
    else CloseOne(CloseAll(t, pass, ids[..|ids| - 1], now, maxRetry, answers), pass, ids[|ids| - 1], now, maxRetry, answers)
  }

  predicate Distinct(ids: seq<string>) { forall i, j :: 0 <= i < j < |ids| ==> ids[i] != ids[j] }

  lemma DegradesIsTheVerdict(plans: PlanStore, r: Row, answers: (Call, Call))
    ensures Degrades(r, answers) == L.Degrade(plans, r, answers.0, answers.1).1
  {
  }

  /** The one-brand world the atomic machine would see. */
  function Brand(t: Tables, id: string): L.World
    requires id in t.rows
  {
    L.World(Some(t.rows[id]), Refinement.EventsOf(t.events, id), t.plans, {}, 0)
  }

  lemma CloseOneIsTheHandler(t: Tables, id: string, cfg: L.Config, now: Instant, answers: Answers)
    requires id in t.rows
    ensures var arrears := CloseOne(t, Arrears, id, now, cfg.maxRetry, answers);
            id in arrears.rows && Brand(arrears, id) == L.ArrearsExpired(Brand(t, id), cfg, answers(id).0, answers(id).1)
    ensures var lapsed := CloseOne(t, Lapsed(now), id, now, cfg.maxRetry, answers);
            id in lapsed.rows && Brand(lapsed, id) == L.CancelledClosed(Brand(t, id), cfg, answers(id).0, answers(id).1, now)
  {
    hide L.Degrade, Refinement.EventsOf, RowOk;
    DegradesIsTheVerdict(t.plans, t.rows[id], answers(id));
    Refinement.AppendedEvent(t.events, Entry(id, ClosingEvent(Arrears, t.rows[id]), None));
    Refinement.AppendedEvent(t.events, Entry(id, ClosingEvent(Lapsed(now), t.rows[id]), None));
  }

  /** Where one row ends after a pass that found it. */
  function Outcome(pass: Pass, r: Row, now: Instant, maxRetry: int, answers: (Call, Call)): Row {
    if !Due(pass, r, now, maxRetry) then r
    else if Degrades(r, answers) then CloseBy(pass, r)
    else if pass.Arrears? then r.(autoRenew := false) else r
  }

  /** Every row found ends where the pass puts it, whatever the order and whoever else is in it; no other row moves. */
  lemma {:induction false} PassMovesRowsApart(t: Tables, pass: Pass, ids: seq<string>, now: Instant, maxRetry: int, answers: Answers, id: string)
    requires Distinct(ids)
    ensures var after := CloseAll(t, pass, ids, now, maxRetry, answers);
            && (id in after.rows <==> id in t.rows)
            && (id in t.rows ==> after.rows[id] == if id in ids then Outcome(pass, t.rows[id], now, maxRetry, answers(id)) else t.rows[id])
  {
    hide Due, Degrades, L.Degrade, CloseBy, ClosingEvent;
    if ids != [] {
      var rest, last := ids[..|ids| - 1], ids[|ids| - 1];
      PassMovesRowsApart(t, pass, rest, now, maxRetry, answers, id);
      PassMovesRowsApart(t, pass, rest, now, maxRetry, answers, last);
      assert ids == rest + [last];
      assert last !in rest;
    }
  }

  /** So the rows do not depend on the order the query returned them in. */
  lemma PassOrderIsIrrelevant(t: Tables, pass: Pass, ids: seq<string>, others: seq<string>, now: Instant, maxRetry: int, answers: Answers)
    requires Distinct(ids) && Distinct(others) && forall id :: id in ids <==> id in others
    ensures CloseAll(t, pass, ids, now, maxRetry, answers).rows == CloseAll(t, pass, others, now, maxRetry, answers).rows
  {
    hide CloseAll, Outcome;
    var a, b := CloseAll(t, pass, ids, now, maxRetry, answers).rows, CloseAll(t, pass, others, now, maxRetry, answers).rows;
    forall id ensures (id in a <==> id in b) && (id in a ==> a[id] == b[id]) {
      PassMovesRowsApart(t, pass, ids, now, maxRetry, answers, id);
      PassMovesRowsApart(t, pass, others, now, maxRetry, answers, id);
    }
    assert a == b;
  }

  /** How many of the rows found are due, and how many of those the store lets close. */
  function DueAmong(t: Tables, pass: Pass, ids: seq<string>, now: Instant, maxRetry: int): nat {
    if ids == [] then 0
    else DueAmong(t, pass, ids[..|ids| - 1], now, maxRetry)
         + (var id := ids[|ids| - 1]; if id in t.rows && Due(pass, t.rows[id], now, maxRetry) then 1 else 0)
  }

  // ---------------------------------------------------------------- a pass among other writers

  /** Where a pass waits and others may write: after its calls to the store, after a miss, after rereading. */
  datatype Point = AfterCalls | AfterMiss | AfterReread

  /** What everybody else does to the tables at a point of the round of the `i`-th row. */
  type Others = (nat, Point, Tables) -> Tables

  /** What a pass has done so far: the tables, the rows it closed and those the store refused. */
  datatype Tally = Tally(tables: Tables, closed: nat, rejected: nat)

  datatype Setting = Setting(pass: Pass, maxRetry: int, answers: Answers, repair: string -> Call, others: Others)

  /** Rows the round passes over: retries left, for the pass of arrears; none left, for the other. */
  predicate Skips(pass: Pass, copy: Row, maxRetry: int) {
    if pass.Arrears? then copy.retryCount < maxRetry else copy.status.PastDue? && copy.retryCount >= maxRetry
  }

  /** The round of one row, on the copy its query read: degrade, then close, stop the charge or repair. */
  function Round(so: Tally, id: string, copy: Row, i: nat, x: Setting): Tally {
    if Skips(x.pass, copy, x.maxRetry) then so
    else
      var moved := L.Degrade(so.tables.plans, copy, x.answers(id).0, x.answers(id).1);
      var t := x.others(i, AfterCalls, so.tables.(plans := moved.0));
      if !moved.1 then
        Tally(if x.pass.Arrears? && copy.autoRenew && id in t.rows then t.(rows := t.rows[id := t.rows[id].(autoRenew := false)]) else t,
              so.closed, so.rejected + 1)
      else if id in t.rows && StillDue(x.pass, copy, t.rows[id]) then
        Tally(Tables(t.rows[id := CloseBy(x.pass, t.rows[id])], t.events + [Entry(id, ClosingEvent(x.pass, copy), None)], t.plans),
              so.closed + 1, so.rejected)
      else so.(tables := if x.pass.Lapsed? then Repaired(t, id, copy, i, x) else t)
  }

  /** `reponerPlanSiSigueVigente`: reread, and give an entitled row its plan back. */
  function Repaired(t: Tables, id: string, copy: Row, i: nat, x: Setting): Tables
    requires x.pass.Lapsed?
  {
    if !MovesPlan(copy) then t
    else
      var u := x.others(i, AfterMiss, t);
      if id in u.rows && Entitled(u.rows[id], x.pass.at) then
        var r := u.rows[id];
        var v := x.others(i, AfterReread, u);
        v.(plans := Assign(v.plans, r.brandId, r.planSlug, r.currentPeriodEnd, x.repair(id)))
      else u
  }

  /** Every row in turn, each from the copy read at the start. */
  function Rounds(t: Tables, ids: seq<string>, copies: map<string, Row>, x: Setting): Tally
    requires forall id :: id in ids ==> id in copies
  {
    if ids == [] then Tally(t, 0, 0)
    else
      var last := |ids| - 1;
      Round(Rounds(t, ids[..last], copies, x), ids[last], copies[ids[last]], last, x)
  }

  /** Nobody else writes while the pass runs. */
  ghost predicate Quiet(others: Others) { forall i, p, t :: others(i, p, t) == t }

  lemma QuietRoundIsCloseOne(so: Tally, id: string, i: nat, x: Setting, now: Instant)
    requires Quiet(x.others) && !x.pass.TrialOver? && id in so.tables.rows
    requires Due(x.pass, so.tables.rows[id], now, x.maxRetry) <==> !Skips(x.pass, so.tables.rows[id], x.maxRetry)
    ensures var r, next := so.tables.rows[id], Round(so, id, so.tables.rows[id], i, x);
            && next.tables == CloseOne(so.tables, x.pass, id, now, x.maxRetry, x.answers)
            && next.closed + next.rejected
               == so.closed + so.rejected + (if Due(x.pass, r, now, x.maxRetry) then 1 else 0)
            && next.closed - so.closed == |next.tables.events| - |so.tables.events|
  {
    hide L.Degrade, Degrades, CloseBy, ClosingEvent, Repaired;
    DegradesIsTheVerdict(so.tables.plans, so.tables.rows[id], x.answers(id));
    if Due(x.pass, so.tables.rows[id], now, x.maxRetry) {
      Refinement.DueRowIsStillDue(x.pass, so.tables.rows[id], now, x.maxRetry);
    }
  }

  /**
   Alone, the loop over any rows its query found is the atomic handler row by row; closed and
   rejected together are the rows that were due, and each closing left one event.
   */
  lemma {:induction false} QuietPassIsAtomic(t: Tables, ids: seq<string>, x: Setting, now: Instant)
    requires Quiet(x.others) && !x.pass.TrialOver? && Distinct(ids)
    requires forall id :: id in ids ==> id in t.rows
    requires forall id :: id in ids ==> (Due(x.pass, t.rows[id], now, x.maxRetry) <==> !Skips(x.pass, t.rows[id], x.maxRetry))
    ensures var done := Rounds(t, ids, t.rows, x);
            && done.tables == CloseAll(t, x.pass, ids, now, x.maxRetry, x.answers)
            && done.closed + done.rejected == DueAmong(t, x.pass, ids, now, x.maxRetry)
            && done.closed == |done.tables.events| - |t.events|
  {
    hide Due, Skips, Round, CloseOne, Quiet;
    if ids != [] {
      var last := |ids| - 1;
      QuietPassIsAtomic(t, ids[..last], x, now);
      NextOfPass(t, x.pass, ids, last, now, x.maxRetry, x.answers);
      assert ids[..last + 1] == ids;
      QuietRoundIsCloseOne(Rounds(t, ids[..last], t.rows, x), ids[last], last, x, now);
    }
  }

  /** The tables at the compare-and-set of a round, whatever the others did meanwhile. */
  function AtCompareAndSet(so: Tally, id: string, copy: Row, i: nat, x: Setting): Tables {
    x.others(i, AfterCalls, so.tables.(plans := L.Degrade(so.tables.plans, copy, x.answers(id).0, x.answers(id).1).0))
  }

  /** The round closes its row: taken, degraded, and still due when it is compared. */
  predicate ClosesRow(so: Tally, id: string, copy: Row, i: nat, x: Setting) {
    && !Skips(x.pass, copy, x.maxRetry) && Degrades(copy, x.answers(id))
    && var t := AtCompareAndSet(so, id, copy, i, x);
       id in t.rows && StillDue(x.pass, copy, t.rows[id])
  }

  /** The round goes on to repair, and the row reread is still entitled to its plan. */
  predicate RepairsRow(so: Tally, id: string, copy: Row, i: nat, x: Setting) {
    && x.pass.Lapsed? && !Skips(x.pass, copy, x.maxRetry) && Degrades(copy, x.answers(id))
    && !ClosesRow(so, id, copy, i, x) && MovesPlan(copy)
    && var u := x.others(i, AfterMiss, AtCompareAndSet(so, id, copy, i, x));
       id in u.rows && Entitled(u.rows[id], x.pass.at)
  }

  /**
   Whatever the others do: a row is closed and counted exactly when it was still due at its
   compare-and-set, and then one event tells of it; and the brand of a row missed and entitled ends
   with that row's own plan until its own period end, if the store accepts.
   */
  lemma RoundDecides(so: Tally, id: string, copy: Row, i: nat, x: Setting)
    ensures var next, t := Round(so, id, copy, i, x), AtCompareAndSet(so, id, copy, i, x);
            if ClosesRow(so, id, copy, i, x) then
              && next.closed == so.closed + 1 && next.rejected == so.rejected
              && next.tables == Tables(t.rows[id := CloseBy(x.pass, t.rows[id])],
                                       t.events + [Entry(id, ClosingEvent(x.pass, copy), None)], t.plans)
            else next.closed == so.closed
    ensures RepairsRow(so, id, copy, i, x) && x.repair(id).Accepted? ==>
              var r := x.others(i, AfterMiss, AtCompareAndSet(so, id, copy, i, x)).rows[id];
              var plans := Round(so, id, copy, i, x).tables.plans;
              (r.brandId, r.planSlug) in plans && plans[(r.brandId, r.planSlug)] == r.currentPeriodEnd
  {
    hide L.Degrade, Degrades, CloseBy, ClosingEvent, StillDue, Skips, MovesPlan, Entitled;
    DegradesIsTheVerdict(so.tables.plans, copy, x.answers(id));
  }

  /** How many closings by these passes a history tells of. */
  function Expiries(events: seq<Entry>): nat {
    if events == [] then 0
    else Expiries(events[..|events| - 1]) + (if events[|events| - 1].event.kind.ExpiredEvent? then 1 else 0)
  }

  lemma ExpiriesOfAppended(events: seq<Entry>, e: Entry)
    ensures Expiries(events + [e]) == Expiries(events) + (if e.event.kind.ExpiredEvent? then 1 else 0)
  {
    assert (events + [e])[..|events|] == events;
  }

  /** The others may do anything at all to rows and plans, and tell of anything but such closings. */
  ghost predicate TellOfNoClosing(others: Others) {
    forall i, p, t: Tables :: Expiries(others(i, p, t).events) == Expiries(t.events)
  }

  lemma RoundTells(so: Tally, id: string, copy: Row, i: nat, x: Setting)
    requires TellOfNoClosing(x.others) && !x.pass.TrialOver?
    ensures var next := Round(so, id, copy, i, x);
            next.closed - so.closed == Expiries(next.tables.events) - Expiries(so.tables.events)
  {
    hide L.Degrade, Degrades, CloseBy, StillDue, Skips, MovesPlan, Entitled, Expiries;
    ExpiriesOfAppended(AtCompareAndSet(so, id, copy, i, x).events, Entry(id, ClosingEvent(x.pass, copy), None));
  }

  /** However the others interfere, a pass closes exactly as many rows as the history gains closings. */
  lemma {:induction false} ClosedRowsAreTold(t: Tables, ids: seq<string>, copies: map<string, Row>, x: Setting)
    requires TellOfNoClosing(x.others) && !x.pass.TrialOver?
    requires forall id :: id in ids ==> id in copies
    ensures var done := Rounds(t, ids, copies, x);
            done.closed == Expiries(done.tables.events) - Expiries(t.events)
  {
    hide Round, TellOfNoClosing, Expiries;
    if ids != [] {
      var last := |ids| - 1;
      ClosedRowsAreTold(t, ids[..last], copies, x);
      RoundTells(Rounds(t, ids[..last], copies, x), ids[last], copies[ids[last]], last, x);
    }
  }

  class Database {
    var subscriptions: map<string, Row>
    var events: seq<Entry>

    constructor ()
      ensures subscriptions == map[] && events == []
    {
      subscriptions := map[];
      events := [];
    }

    /** `repo.save(row)`: the whole row, over whatever is there. */
    method Save(id: string, row: Row)
      modifies this`subscriptions
      ensures subscriptions == old(subscriptions)[id := row]
    {
      subscriptions := subscriptions[id := row];
    }

    method Record(id: string, e: Event)
      modifies this`events
      ensures events == old(events) + [Entry(id, e, None)]
    {
      events := events + [Entry(id, e, None)];
    }

    // -------------------------------------------------------------- webhook

    /** On the locked row: a marker already there stops it, else row and trace are written together. */
    method Apply(id: string, e: Effect, delivery: DeliveryId, now: Instant) returns (applied: bool)
      requires EffectOk(e)
      modifies this
      ensures applied <==> id in old(subscriptions) && !Marked(old(events), id, delivery)
      ensures applied ==> subscriptions == old(subscriptions)[id := ApplyEffect(old(subscriptions)[id], e, now)]
                          && events == old(events) + [Entry(id, TraceOf(old(subscriptions)[id], e, delivery), None)]
      ensures !applied ==> subscriptions == old(subscriptions) && events == old(events)
    {
      if id !in subscriptions { return false; }
      var sub := subscriptions[id];
      if Marked(events, id, delivery) { return false; }
      var fromStatus := sub.status;
      sub := sub.(status := e.toStatus);
      if e.resetsRetries { sub := sub.(retryCount := 0); }
      if e.sealsCancellation && sub.cancelledAt.None? { sub := sub.(cancelledAt := Some(now)); }
      if IsTerminal(e.toStatus) { sub := sub.(autoRenew := false); }
      if e.period.Some? { sub := AdvancePeriod(sub, e.period.value); }
      if e.sealsTrial && sub.trialStart.None? {
        sub := sub.(trialStart := Some(e.period.value.start));
        sub := sub.(trialEnd := Some(e.period.value.end));
      }
      Save(id, sub);
      Record(id, Event(e.kind, Some(fromStatus), Some(e.toStatus), Some(delivery), e.roles, None));
      applied := true;
    }

    static method AdvancePeriod(sub: Row, p: Period) returns (moved: Row)
      ensures moved == sub.(currentPeriodStart := Some(p.start), currentPeriodEnd := Some(p.end), nextBillingDate := Some(p.nextBilling))
    {
      moved := sub.(currentPeriodStart := Some(p.start));
      moved := moved.(currentPeriodEnd := Some(p.end));
      moved := moved.(nextBillingDate := Some(p.nextBilling));
    }

    /** Push first: nothing is written here unless the plan store accepted. */
    method Settle(roles: RolesStore, id: string, e: Effect, delivery: DeliveryId, first: Call, second: Call, now: Instant)
      returns (done: bool)
      requires EffectOk(e) && id in subscriptions
      modifies this, roles
      ensures (roles.plans, done) == if e.roles.Some? then Push(old(roles.plans), e.roles.value, first, second) else (old(roles.plans), true)
      ensures if done && !Marked(old(events), id, delivery) then
                && subscriptions == old(subscriptions)[id := ApplyEffect(old(subscriptions)[id], e, now)]
                && events == old(events) + [Entry(id, TraceOf(old(subscriptions)[id], e, delivery), None)]
              else subscriptions == old(subscriptions) && events == old(events)
    {
      hide Push, ApplyEffect, TraceOf, Marked, EffectOk;
      done := true;
      if e.roles.Some? { done := roles.Move(e.roles.value, first, second); }
      if done { var _ := Apply(id, e, delivery, now); }
    }

    // -------------------------------------------------------------- cancel, reactivate

    method RegisterCancellation(id: string, reason: string, confirmedName: Option<string>, now: Instant)
      requires id in subscriptions
      modifies this
      ensures var r := old(subscriptions)[id];
              var registered := r.cancelledAt.Some? && Traced(old(events), id);
              && subscriptions == old(subscriptions)[id := CancelRow(r, reason, registered, now)]
              && events == (if registered then old(events)
                            else old(events) + [Entry(id, Event(CancelledEvent, Some(r.status), Some(r.status), None, None, confirmedName), None)])
    {
      var current := subscriptions[id];
      var registered := current.cancelledAt.Some? && Traced(events, id);
      var status := current.status;
      if current.cancelledAt.None? { current := current.(cancelledAt := Some(now)); }
      if current.accessEndsAt.None? && IsLive(current.status) {
        var end := if current.status.Trial? && current.trialEnd.Some? then current.trialEnd else current.currentPeriodEnd;
        current := current.(accessEndsAt := Some(end.UnwrapOr(now)));
      }
      if !registered { current := current.(cancelReason := Some(reason)); }
      current := current.(autoRenew := false);
      Save(id, current);
      if !registered {
        Record(id, Event(CancelledEvent, Some(status), Some(status), None, None, confirmedName));
      }
    }

    method Reactivate(id: string) returns (ok: bool)
      modifies this
      ensures ok <==> id in old(subscriptions) && MayReactivate(old(subscriptions)[id])
      ensures ok ==> var r := old(subscriptions)[id];
                     && subscriptions == old(subscriptions)[id := ReactivateRow(r)]
                     && events == old(events) + [Entry(id, PlainEvent(Reactivated, Some(r.status), Some(r.status)), None)]
      ensures !ok ==> subscriptions == old(subscriptions) && events == old(events)
    {
      if id !in subscriptions { return false; }
      var sub := subscriptions[id];
      if sub.cancelledAt.None? { return false; }
      if IsTerminal(sub.status) { return false; }
      if sub.provider.Confio? { return false; }
      var fromStatus := sub.status;
      sub := sub.(cancelledAt := None);
      sub := sub.(cancelReason := None);
      sub := sub.(accessEndsAt := None);
      sub := sub.(autoRenew := true);
      Save(id, sub);
      Record(id, PlainEvent(Reactivated, Some(fromStatus), Some(sub.status)));
      ok := true;
    }

    // -------------------------------------------------------------- crons, one row

    /**
     A link or none, and arrears. The row in memory is bumped before each save, so an error after
     the link counts the same retry twice; if the save of the catch fails too, the error escapes
     and the row keeps whatever the first save left.
     */
    method IssueExternalCharge(id: string, copy: Row, isRetry: bool, charge: L.ChargeReply)
      returns (linked: bool, threw: bool, inMemory: Row)
      modifies this
      ensures linked <==> charge.Emitted? || charge.FailedAfterLink? || (charge.SavesLost? && charge.linked)
      ensures threw <==> charge.SavesLost?
      ensures inMemory == ChargedRow(copy, if !isRetry then 0 else if linked && !charge.Emitted? then 2 else 1)
      ensures !threw ==> subscriptions == old(subscriptions)[id := inMemory]
      ensures threw ==>
                subscriptions == if linked && charge.saved then old(subscriptions)[id := ChargedRow(copy, if isRetry then 1 else 0)]
                                 else old(subscriptions)
      ensures events == if charge.Emitted? then old(events) + [Entry(id, PlainEvent(PaymentFailed, Some(copy.status), Some(PastDue)), None)]
                        else old(events)
    {
      var sub := copy;
      threw := false;
      linked := charge.Emitted? || charge.FailedAfterLink? || (charge.SavesLost? && charge.linked);
      if linked {
        var previousStatus := sub.status;
        sub := sub.(status := PastDue);
        if isRetry { sub := sub.(retryCount := sub.retryCount + 1); }
        if !charge.SavesLost? || charge.saved { Save(id, sub); }
        if charge.Emitted? {
          Record(id, PlainEvent(PaymentFailed, Some(previousStatus), Some(PastDue)));
          return linked, false, sub;
        }
      }
      sub := sub.(status := PastDue);
      if isRetry { sub := sub.(retryCount := sub.retryCount + 1); }
      if charge.SavesLost? {
        threw := true;
      } else {
        Save(id, sub);
      }
      inMemory := sub;
    }

    /** One row of a pass: the charge and, where the pass has a catch, what the catch does. */
    method ChargeRow(id: string, isRetry: bool, handled: bool, charge: L.ChargeReply) returns (links: nat)
      requires id in subscriptions
      modifies this
      ensures var after := L.Charged(L.World(Some(old(subscriptions)[id]), [], map[], {}, 0), old(subscriptions)[id], isRetry, handled, charge);
              && after.row.Some? && subscriptions == old(subscriptions)[id := after.row.value] && links == after.links
              && events == old(events) + (if after.history == [] then [] else [Entry(id, after.history[0], None)])
    {
      var linked, threw, inMemory := IssueExternalCharge(id, subscriptions[id], isRetry, charge);
      links := if linked then 1 else 0;
      if threw && handled && charge.recovered {
        HandleRenewalFailure(id, inMemory);
      }
    }

    method HandleRenewalFailure(id: string, copy: Row)
      modifies this
      ensures subscriptions == old(subscriptions)[id := ChargedRow(copy, 1)]
      ensures events == old(events) + [Entry(id, PlainEvent(PaymentFailed, Some(PastDue), Some(PastDue)), None)]
    {
      var sub := copy.(retryCount := copy.retryCount + 1);
      sub := sub.(status := PastDue);
      Save(id, sub);
      Record(id, PlainEvent(PaymentFailed, Some(sub.status), Some(PastDue)));
    }

    /** The copy moves before it is saved, and the plan store is asked only once it was; its answer is dropped. */
    method ExtendSubscriptionPeriod(roles: RolesStore, id: string, copy: Row, row: Call, first: Call, now: Instant, days: int)
      returns (threw: bool, inMemory: Row)
      modifies this`subscriptions, roles
      ensures threw <==> !row.Accepted?
      ensures inMemory == WalletRenewedRow(copy, now, days)
      ensures subscriptions == if row.Refused? then old(subscriptions) else old(subscriptions)[id := inMemory]
      ensures var key := (copy.brandId, copy.planSlug);
              roles.plans == if threw || first.Refused? || key !in old(roles.plans) then old(roles.plans)
                             else old(roles.plans)[key := inMemory.currentPeriodEnd]
    {
      var newPeriodEnd := now + days * MS_PER_DAY;
      var sub := copy.(currentPeriodStart := Some(now));
      sub := sub.(currentPeriodEnd := Some(newPeriodEnd));
      sub := sub.(nextBillingDate := Some(newPeriodEnd));
      sub := sub.(status := Active);
      sub := sub.(retryCount := 0);
      if !row.Refused? { Save(id, sub); }
      if !row.Accepted? { return true, sub; }
      var _ := roles.RenewPlanForBrand(sub.brandId, sub.planSlug, newPeriodEnd, first);
      threw, inMemory := false, sub;
    }

    /** The debit under whatever storage does to it. */
    static method DebitUnder(wallets: Wallets.WalletService, wallet: string, x: WalletRenewals.Attempt) returns (threw: bool)
      requires WalletRenewals.Amount(x) > 0
      modifies wallets
      ensures threw <==> WalletRenewals.Debit(old(wallets.Value()), wallet, x).DebitThrew?
      ensures wallets.Value() == WalletRenewals.BookAfter(old(wallets.Value()), wallet, x)
    {
      var amount := x.price.UnwrapOr(0);
      match x.storage {
        case Unreachable => threw := true;
        case Held =>
          var v := wallets.DebitWallet(wallet, amount, None);
          threw := !v.Done?;
        case Broke(committed, rolledBack) =>
          if committed { var _ := wallets.DebitWallet(wallet, amount, None); }
          threw := !rolledBack;
      }
    }

    /** `renewFromWallet`: the debit, the renewed row, its event; where it throws, the copy as it stands. */
    method RenewFromWallet(roles: RolesStore, wallets: Wallets.WalletService, id: string, copy: Row, wallet: string,
                           x: WalletRenewals.Attempt, now: Instant, days: int)
      returns (threw: bool, inMemory: Row)
      modifies this, roles, wallets
      ensures threw <==> !WalletRenewals.Clean(old(wallets.Value()), wallet, x)
      ensures var thrown := WalletRenewals.Debit(old(wallets.Value()), wallet, x).DebitThrew?;
              && inMemory == (if thrown then copy else WalletRenewedRow(copy, now, days))
              && subscriptions == (if thrown || x.row.Refused? then old(subscriptions) else old(subscriptions)[id := inMemory])
              && roles.plans == (if thrown || !x.row.Accepted? || x.first.Refused? || (copy.brandId, copy.planSlug) !in old(roles.plans)
                                 then old(roles.plans)
                                 else old(roles.plans)[(copy.brandId, copy.planSlug) := inMemory.currentPeriodEnd])
      ensures wallets.Value() == WalletRenewals.BookAfter(old(wallets.Value()), wallet, x)
      ensures events == old(events) + (if threw || WalletRenewals.Amount(x) == 0 then []
                                       else [Entry(id, PlainEvent(Renewed, Some(Active), Some(Active)), None)])
    {
      hide WalletRenewals.CanPay, RowOk;
      var amount := x.price.UnwrapOr(0);
      if amount == 0 {
        threw, inMemory := ExtendSubscriptionPeriod(roles, id, copy, x.row, x.first, now, days);
        return;
      }
      threw := DebitUnder(wallets, wallet, x);
      if threw { return true, copy; }
      threw, inMemory := ExtendSubscriptionPeriod(roles, id, copy, x.row, x.first, now, days);
      if threw { return; }
      if !x.eventSaved { return true, inMemory; }
      Record(id, PlainEvent(Renewed, Some(inMemory.status), Some(Active)));
    }

    /** One row of a pass and its catch: row, history, plan store and ledger end as the crons' step puts them. */
    method RenewRow(roles: RolesStore, wallets: Wallets.WalletService, id: string, x: WalletRenewals.Attempt, now: Instant, days: int)
      requires id in subscriptions && subscriptions[id].walletId.Some?
      modifies this, roles, wallets
      ensures var r := old(subscriptions)[id];
              var before := WalletRenewals.Both(L.World(Some(r), [], old(roles.plans), {}, 0), old(wallets.Value()));
              var after := WalletRenewals.Renewing(before, r, r.walletId.value, x, now, days);
              && after.world.row.Some? && subscriptions == old(subscriptions)[id := after.world.row.value]
              && roles.plans == after.world.plans && wallets.Value() == after.book
              && events == old(events) + (if after.world.history == [] then [] else [Entry(id, after.world.history[0], None)])
    {
      hide WalletRenewals.CanPay, RowOk, WalletRenewals.BookAfter, WalletRenewedRow, ChargedRow;
      var copy := subscriptions[id];
      var threw, inMemory := RenewFromWallet(roles, wallets, id, copy, copy.walletId.value, x, now, days);
      if threw && x.recovered { HandleRenewalFailure(id, inMemory); }
    }

    // -------------------------------------------------------------- checkout, administrator

    method CreateOrRenew(id: string, brand: string, plan: string, provider: Provider, wallet: Option<string>, now: Instant, days: int)
      modifies this
      ensures subscriptions == old(subscriptions)[id :=
                if id in old(subscriptions) then RenewedRow(old(subscriptions)[id], plan, provider, wallet, now, days)
                else BoughtRow(brand, plan, provider, wallet, now, days)]
      ensures events == old(events) + [Entry(id,
                if id in old(subscriptions) then
                  PlainEvent(if old(subscriptions)[id].planSlug != plan then PlanChanged else Renewed,
                             Some(old(subscriptions)[id].status), Some(Active))
                else PlainEvent(Created, None, Some(Active)), None)]
    {
      var periodEnd := now + days * MS_PER_DAY;
      if id in subscriptions {
        var sub := subscriptions[id];
        var fromPlan, fromStatus := sub.planSlug, sub.status;
        sub := sub.(planSlug := plan);
        sub := sub.(status := Active);
        sub := sub.(provider := provider);
        if wallet.Some? { sub := sub.(walletId := wallet); }
        sub := sub.(currentPeriodStart := Some(now));
        sub := sub.(currentPeriodEnd := Some(periodEnd));
        sub := sub.(nextBillingDate := Some(periodEnd));
        sub := sub.(retryCount := 0);
        sub := sub.(cancelledAt := None);
        sub := sub.(cancelReason := None);
        sub := sub.(accessEndsAt := None);
        sub := sub.(autoRenew := true);
        Save(id, sub);
        Record(id, PlainEvent(if fromPlan != plan then PlanChanged else Renewed, Some(fromStatus), Some(Active)));
      } else {
        Save(id, BoughtRow(brand, plan, provider, wallet, now, days));
        Record(id, PlainEvent(Created, None, Some(Active)));
      }
    }

    method ExtendByAdmin(id: string, days: int) returns (ok: bool)
      modifies this`subscriptions
      ensures ok <==> id in old(subscriptions)
      ensures subscriptions == if ok then old(subscriptions)[id := ExtendedRow(old(subscriptions)[id], days)] else old(subscriptions)
    {
      if id !in subscriptions { return false; }
      var sub := subscriptions[id];
      var newEnd := sub.currentPeriodEnd.UnwrapOr(0) + days * MS_PER_DAY;
      sub := sub.(currentPeriodEnd := Some(newEnd));
      sub := sub.(nextBillingDate := Some(newEnd));
      if sub.accessEndsAt.Some? { sub := sub.(accessEndsAt := Some(sub.accessEndsAt.value + days * MS_PER_DAY)); }
      if sub.status.PastDue? || sub.status.Expired? {
        sub := sub.(status := Active);
        sub := sub.(retryCount := 0);
      }
      Save(id, sub);
      ok := true;
    }

    // -------------------------------------------------------------- crons, a whole pass

    ghost function Snapshot(roles: RolesStore): Tables
      reads this, roles
    {
      Tables(subscriptions, events, roles.plans)
    }

    /** Whatever the others do while the pass waits. */
    method Await(roles: RolesStore, i: nat, point: Point, others: Others)
      modifies this, roles
      ensures Snapshot(roles) == others(i, point, old(Snapshot(roles)))
    {
      var t := others(i, point, Tables(subscriptions, events, roles.plans));
      subscriptions, events := t.rows, t.events;
      roles.plans := t.plans;
    }

    /** `expireSubscriptions` over the rows in arrears its query found, in the order it found them. */
    method ExpireSubscriptions(roles: RolesStore, found: seq<string>, x: Setting) returns (count: nat, rejected: nat)
      requires x.pass.Arrears?
      requires forall id :: id in found ==> id in subscriptions && subscriptions[id].status.PastDue?
      modifies this, roles
      ensures Tally(Snapshot(roles), count, rejected) == Rounds(old(Snapshot(roles)), found, old(subscriptions), x)
    {
      hide Rounds, L.Degrade;
      ghost var before := Snapshot(roles);
      var copies := subscriptions;
      count, rejected := 0, 0;
      NoRounds(before, found, copies, x);
      for i := 0 to |found|
        invariant Tally(Snapshot(roles), count, rejected) == Rounds(before, found[..i], copies, x)
      {
        var id := found[i];
        var sub := copies[id];
        NextRound(before, found, copies, x, i);
        if sub.retryCount < x.maxRetry { continue; }
        var moved := roles.Degrade(sub, x.answers(id).0, x.answers(id).1);
        Await(roles, i, AfterCalls, x.others);
        if !moved {
          if sub.autoRenew && id in subscriptions { Save(id, subscriptions[id].(autoRenew := false)); }
          rejected := rejected + 1;
          continue;
        }
        if id !in subscriptions || !subscriptions[id].status.PastDue? { continue; }
        Save(id, subscriptions[id].(status := Expired, autoRenew := false, accessEndsAt := None));
        Record(id, PlainEvent(ExpiredEvent, Some(PastDue), Some(Expired)));
        count := count + 1;
      }
      assert found[..|found|] == found;
    }

    /** `expireCancelledSubscriptions`, one instant for the query and for every compare-and-set. */
    method ExpireCancelledSubscriptions(roles: RolesStore, found: seq<string>, x: Setting) returns (closed: nat, rejected: nat)
      requires x.pass.Lapsed?
      requires forall id :: id in found ==> id in subscriptions && DueClosing(subscriptions[id], x.pass.at, x.maxRetry)
      modifies this, roles
      ensures Tally(Snapshot(roles), closed, rejected) == Rounds(old(Snapshot(roles)), found, old(subscriptions), x)
    {
      hide Rounds, L.Degrade, DueClosing;
      ghost var before := Snapshot(roles);
      var copies := subscriptions;
      closed, rejected := 0, 0;
      NoRounds(before, found, copies, x);
      for i := 0 to |found|
        invariant Tally(Snapshot(roles), closed, rejected) == Rounds(before, found[..i], copies, x)
      {
        var id := found[i];
        var sub := copies[id];
        NextRound(before, found, copies, x, i);
        if sub.status.PastDue? && sub.retryCount >= x.maxRetry { continue; }
        var moved := roles.Degrade(sub, x.answers(id).0, x.answers(id).1);
        Await(roles, i, AfterCalls, x.others);
        if !moved {
          rejected := rejected + 1;
          continue;
        }
        if id in subscriptions && CompareForClosing(sub, subscriptions[id], x.pass.at) {
          Save(id, subscriptions[id].(status := Cancelled, accessEndsAt := None));
          Record(id, PlainEvent(ExpiredEvent, Some(sub.status), Some(Cancelled)));
          closed := closed + 1;
        } else {
          RestorePlan(roles, id, sub, i, x);
        }
      }
      assert found[..|found|] == found;
    }

    method RestorePlan(roles: RolesStore, id: string, sub: Row, i: nat, x: Setting)
      requires x.pass.Lapsed?
      modifies this, roles
      ensures Snapshot(roles) == Repaired(old(Snapshot(roles)), id, sub, i, x)
    {
      if sub.brandId == "" || sub.planSlug == "" || sub.planSlug == FREE_PLAN { return; }
      Await(roles, i, AfterMiss, x.others);
      if id !in subscriptions { return; }
      var current := subscriptions[id];
      if !IsLive(current.status) { return; }
      if !current.autoRenew && (current.accessEndsAt.None? || current.accessEndsAt.value <= x.pass.at) { return; }
      Await(roles, i, AfterReread, x.others);
      var _ := roles.AssignPlanToBrand(current.brandId, current.planSlug, current.currentPeriodEnd, x.repair(id));
    }
  }

  /** The four conditions of the compare-and-set on the row as it is now. */
  predicate CompareForClosing(copy: Row, row: Row, at: Instant) {
    row.status == copy.status && !row.autoRenew && row.accessEndsAt.Some? && row.accessEndsAt.value < at
  }

  lemma NoRounds(t: Tables, ids: seq<string>, copies: map<string, Row>, x: Setting)
    requires forall id :: id in ids ==> id in copies
    ensures Rounds(t, ids[..0], copies, x) == Tally(t, 0, 0)
  {
  }

  lemma NextRound(t: Tables, ids: seq<string>, copies: map<string, Row>, x: Setting, i: nat)
    requires i < |ids| && forall id :: id in ids ==> id in copies
    ensures Rounds(t, ids[..i + 1], copies, x) == Round(Rounds(t, ids[..i], copies, x), ids[i], copies[ids[i]], i, x)
  {
    assert ids[..i + 1][..i] == ids[..i];
  }

  /** The row the loop is about to take is still as the query found it. */
  lemma NextOfPass(t: Tables, pass: Pass, ids: seq<string>, i: nat, now: Instant, maxRetry: int, answers: Answers)
    requires Distinct(ids) && i < |ids| && ids[i] in t.rows
    ensures var so := CloseAll(t, pass, ids[..i], now, maxRetry, answers);
            && ids[i] in so.rows && so.rows[ids[i]] == t.rows[ids[i]]
            && CloseAll(t, pass, ids[..i + 1], now, maxRetry, answers) == CloseOne(so, pass, ids[i], now, maxRetry, answers)
            && DueAmong(t, pass, ids[..i + 1], now, maxRetry)
               == DueAmong(t, pass, ids[..i], now, maxRetry) + (if Due(pass, t.rows[ids[i]], now, maxRetry) then 1 else 0)
  {
    hide CloseOne, Due, Outcome;
    assert ids[..i + 1][..i] == ids[..i];
    assert ids[i] !in ids[..i];
    PassMovesRowsApart(t, pass, ids[..i], now, maxRetry, answers, ids[i]);
  }
}
