/**
 What an interleaved worker that closes a row has done before, and when the closed row's brand has
 lost its plan: the guarantee the atomic handlers give outright, with its exact condition.
 */
module ClosingOrder {
  import opened Basics
  import opened Subscriptions
  import opened ConfioWebhook
  import opened RowMoves
  import opened Interleaving
  import opened InterleavingTheorems
  import LifecycleTheorems
  import Refinement
  import RepairTheorems

  // ---------------------------------------------------------------- the step that made a job

  lemma {:induction false} RunLast(s: World, steps: seq<Step>)
    requires steps != []
    ensures Run(s, steps) == Do(Run(s, steps[..|steps| - 1]), steps[|steps| - 1])
    decreases |steps|
  {
    hide Do;
    if |steps| > 1 {
      RunLast(Do(s, steps[0]), steps[1..]);
      assert steps[1..][..|steps| - 2] == steps[..|steps| - 1][1..];
    }
  }

  /** Step `n` is a step of `w` after which its job is this one, and before which it was not. */
  ghost predicate MadeAt(s: World, steps: seq<Step>, n: nat, w: nat, job: Job) {
    && n < |steps| && HasActor(steps[n]) && steps[n].w == w
    && JobOf(Run(s, steps[..n]), w) != job && JobOf(Do(Run(s, steps[..n]), steps[n]), w) == job
  }

  /** A job that is not the first one was made by a step of its worker. */
  lemma {:induction false} FindMaker(s: World, steps: seq<Step>, w: nat) returns (n: nat)
    requires Marking(s) && JobOf(s, w) != JobOf(Run(s, steps), w)
    ensures MadeAt(s, steps, n, w, JobOf(Run(s, steps), w))
    decreases |steps|
  {
    hide Do, Marking;
    var rest, last := steps[..|steps| - 1], steps[|steps| - 1];
    RunLast(s, steps);
    MarkingHolds(s, rest);
    var before := Run(s, rest);
    if JobOf(before, w) == JobOf(Run(s, steps), w) {
      n := FindMaker(s, rest, w);
      assert rest[..n] == steps[..n];
    } else {
      if !HasActor(last) || last.w != w { OtherStepKeepsJob(before, w, last); }
      n := |rest|;
    }
  }

  /** A job past the locked read of an effect, or of another kind of work. */
  predicate OtherWork(job: Job) { !job.Holding? && !job.Planned? && !job.Pushed? && !job.InApply? }

  lemma WritesMakeOtherWork(s: World, step: Step)
    requires step.ComputeEffect? || step.BeginOwn? || step.ComputeOwn? || step.Commit? || step.Abort?
    ensures OtherWork(JobOf(Do(s, step), step.w)) || JobOf(Do(s, step), step.w) == JobOf(s, step.w)
  {
    hide ApplyEffect, CancelRow, StartRow, SavedRow, SavedEvent, Marked, Traced, MayReactivate, TraceOf;
  }

  lemma SavesMakeOtherWork(s: World, step: Step)
    requires step.Save? || step.Falter? || step.Recover? || step.Log?
    ensures OtherWork(JobOf(Do(s, step), step.w)) || JobOf(Do(s, step), step.w) == JobOf(s, step.w)
  {
    hide SavedRow, SavedEvent, ChargedRow, MayReactivate;
  }

  lemma CallsMakeOtherWork(s: World, step: Step)
    requires step.Select? || step.WithdrawPaid? || step.GiveFree? || step.Repair?
    ensures OtherWork(JobOf(Do(s, step), step.w)) || JobOf(Do(s, step), step.w) == JobOf(s, step.w)
  {
    hide Due, MovesPlan, Assign, Remove;
  }

  lemma EndingsMakeOtherWork(s: World, step: Step)
    requires step.StopCharging? || step.CompareAndSet? || step.LogClosing? || step.Reread?
    ensures OtherWork(JobOf(Do(s, step), step.w)) || JobOf(Do(s, step), step.w) == JobOf(s, step.w)
  {
    hide MovesPlan, Entitled, StillDue, CloseBy, ClosingEvent;
  }

  lemma OthersMakeOtherWork(s: World, step: Step)
    requires HasActor(step) && !step.Read? && !step.PlanMessage? && !step.PlanQuestion? && !step.PushPlans? && !step.Begin?
    ensures OtherWork(JobOf(Do(s, step), step.w)) || JobOf(Do(s, step), step.w) == JobOf(s, step.w)
  {
    hide Do, JobOf, OtherWork;
    if step.Select? || step.WithdrawPaid? || step.GiveFree? || step.Repair? {
      CallsMakeOtherWork(s, step);
    } else if RepairTheorems.OfPass(step) {
      EndingsMakeOtherWork(s, step);
    } else if step.Save? || step.Falter? || step.Recover? || step.Log? {
      SavesMakeOtherWork(s, step);
    } else {
      WritesMakeOtherWork(s, step);
    }
  }

  /** The effect and its mark are what this step plans on that copy. */
  predicate Plans(step: Step, copy: Row, e: Effect, id: DeliveryId) {
    || (step.PlanMessage? && step.id == id && Plan(step.m, copy, step.reply, step.now) == Some(e))
    || (step.PlanQuestion? && Ask(copy, step.reply, step.now) == Settle(e, id))
  }

  /** The push went through: there was nothing to move, or the store accepted it. */
  predicate PushAccepted(s: World, e: Effect, step: Step) {
    step.PushPlans? && (e.roles.Some? ==> Push(s.plans, e.roles.value, step.first, step.second).1)
  }

  /** Each stage of a delivery is made from the one before it, by the one step that makes it. */
  predicate Follows(s: World, step: Step, job: Job)
    requires HasActor(step)
  {
    match job
    case Holding(sub, copy) => step == Read(step.w, sub) && sub in s.rows && s.rows[sub] == copy
    case Planned(sub, e, id) =>
      JobOf(s, step.w).Holding? && JobOf(s, step.w).sub == sub && Plans(step, JobOf(s, step.w).copy, e, id)
    case Pushed(sub, e, id) => PushAccepted(s, e, step) && JobOf(s, step.w) == Planned(sub, e, id)
    case InApply(sub, e, id) => step.Begin? && JobOf(s, step.w) == Pushed(sub, e, id)
    case _ => true
  }

  lemma PlanFollows(s: World, step: Step)
    requires step.PlanMessage? || step.PlanQuestion?
    ensures JobOf(DoPlan(s, step), step.w) == JobOf(s, step.w) || Follows(s, step, JobOf(DoPlan(s, step), step.w))
  {
    hide Plan, Ask, Marked;
  }

  lemma PushFollows(s: World, step: Step)
    requires step.PushPlans?
    ensures JobOf(Do(s, step), step.w) == JobOf(s, step.w) || Follows(s, step, JobOf(Do(s, step), step.w))
  {
    hide Push;
  }

  lemma BeginFollows(s: World, step: Step)
    requires step.Begin? || step.Read?
    ensures JobOf(Do(s, step), step.w) == JobOf(s, step.w) || Follows(s, step, JobOf(Do(s, step), step.w))
  {
  }

  lemma JobFollows(s: World, step: Step)
    requires HasActor(step)
    ensures JobOf(Do(s, step), step.w) == JobOf(s, step.w) || Follows(s, step, JobOf(Do(s, step), step.w))
  {
    hide DoPlan, DoPush, DoBegin, JobOf, Plans, PushAccepted;
    if step.PlanMessage? || step.PlanQuestion? {
      PlanFollows(s, step);
    } else if step.PushPlans? {
      PushFollows(s, step);
    } else if step.Begin? || step.Read? {
      BeginFollows(s, step);
    } else {
      hide Do;
      OthersMakeOtherWork(s, step);
    }
  }

  // ---------------------------------------------------------------- where an effect comes from

  ghost predicate ReadAt(s: World, steps: seq<Step>, n: nat, w: nat, sub: string, copy: Row) {
    n < |steps| && steps[n] == Read(w, sub) && sub in Run(s, steps[..n]).rows && Run(s, steps[..n]).rows[sub] == copy
  }

  ghost predicate PlannedAt(s: World, steps: seq<Step>, n: nat, w: nat, sub: string, copy: Row, e: Effect, id: DeliveryId) {
    n < |steps| && HasActor(steps[n]) && steps[n].w == w
    && JobOf(Run(s, steps[..n]), w) == Holding(sub, copy) && Plans(steps[n], copy, e, id)
  }

  ghost predicate PushedAt(s: World, steps: seq<Step>, n: nat, w: nat, sub: string, e: Effect, id: DeliveryId) {
    n < |steps| && HasActor(steps[n]) && steps[n].w == w
    && JobOf(Run(s, steps[..n]), w) == Planned(sub, e, id) && PushAccepted(Run(s, steps[..n]), e, steps[n])
  }

  /**
   In every run, a worker about to write an effect under the lock has read a copy of that row,
   planned that effect on it and had its movement accepted, in that order.
   */
  lemma Origin(s: World, steps: seq<Step>, w: nat) returns (r: nat, m: nat, n: nat, copy: Row)
    requires Initial(s) && JobOf(Run(s, steps), w).InApply?
    ensures var job := JobOf(Run(s, steps), w);
            && r < m < n < |steps| && ReadAt(s, steps, r, w, job.sub, copy)
            && PlannedAt(s, steps, m, w, job.sub, copy, job.effect, job.id)
            && PushedAt(s, steps, n, w, job.sub, job.effect, job.id)
  {
    hide Run, Do, Marking, Plans, PushAccepted;
    InitialIsMarking(s);
    var begun := FindMaker(s, steps, w);
    JobFollows(Run(s, steps[..begun]), steps[begun]);
    n := FindMaker(s, steps[..begun], w);
    Prefixes(steps, begun, n);
    JobFollows(Run(s, steps[..n]), steps[n]);
    m := FindMaker(s, steps[..n], w);
    Prefixes(steps, n, m);
    JobFollows(Run(s, steps[..m]), steps[m]);
    copy := JobOf(Run(s, steps[..m]), w).copy;
    r := FindMaker(s, steps[..m], w);
    Prefixes(steps, m, r);
    JobFollows(Run(s, steps[..r]), steps[r]);
  }

  lemma Prefixes(steps: seq<Step>, n: nat, m: nat)
    requires m < n <= |steps|
    ensures steps[..n][..m] == steps[..m] && steps[..n][m] == steps[m]
  {
  }

  predicate NamesPlan(r: Row) { r.brandId != "" && r.planSlug != "" }

  /**
   So a worker about to close a row has had the downgrade of the brand and plan of its copy
   accepted; unless the copy names none, or it asked about a copy still waiting for acceptance.
   */
  lemma ClosingFollowsDowngrade(s: World, steps: seq<Step>, w: nat) returns (m: nat, n: nat, copy: Row)
    requires Initial(s) && JobOf(Run(s, steps), w).InApply? && IsTerminal(JobOf(Run(s, steps), w).effect.toStatus)
    ensures var job := JobOf(Run(s, steps), w);
            && m < n < |steps| && PlannedAt(s, steps, m, w, job.sub, copy, job.effect, job.id)
            && PushedAt(s, steps, n, w, job.sub, job.effect, job.id)
            && !IsTerminal(copy.status)
            && (steps[m].PlanMessage? && NamesPlan(copy) ==>
                  job.effect.roles == Some(RolesMove(Downgrade, copy.brandId, copy.planSlug, None)))
            && (!(steps[m].PlanMessage? && NamesPlan(copy)) ==>
                  job.effect.roles.None? && (!NamesPlan(copy) || (steps[m].PlanQuestion? && copy.status.Pending?)))
  {
    hide Run, Do, Plan, Ask;
    var r;
    r, m, n, copy := Origin(s, steps, w);
    var e := JobOf(Run(s, steps), w).effect;
    match steps[m] {
      case PlanMessage(_, msg, _, reply, now) => LifecycleTheorems.ClosingEffectDowngrades(e, msg, copy, reply, now);
      case PlanQuestion(_, reply, now) => LifecycleTheorems.ClosingEffectDowngrades(e, Billing(true, ""), copy, reply, now);
    }
  }

  // ---------------------------------------------------------------- starting over a live row

  /** The write of a start: an unmarked trace of a row that will wait for acceptance. */
  predicate WritesStart(job: Job) {
    job.Writing? && job.trace.Some? && job.trace.value.delivery.None? && job.trace.value.to == Some(Pending)
  }

  lemma EffectsWriteNoStart(s: World, w: nat, now: Instant)
    ensures WritesStart(JobOf(DoComputeEffect(s, w, now), w)) ==> JobOf(DoComputeEffect(s, w, now), w) == JobOf(s, w)
  {
    hide ApplyEffect, Marked;
  }

  lemma OwnStartsFindNoLiveRow(s: World, w: nat, move: OwnMove, now: Instant)
    ensures var job := JobOf(DoComputeOwn(s, w, move, now), w);
            WritesStart(job) && job != JobOf(s, w) ==> !IsLive(job.base.status)
  {
    hide CancelRow, StartRow, Traced;
  }

  lemma NoOtherStepWrites(s: World, step: Step)
    requires HasActor(step) && !step.ComputeEffect? && !step.ComputeOwn?
    ensures JobOf(Do(s, step), step.w).Writing? ==> JobOf(Do(s, step), step.w) == JobOf(s, step.w)
  {
    hide Do, JobOf, JobOnly, RowsOk, JobRowsOk;
    if PlansOrReads(step) {
      PlansOrReadsMovesJob(s, step);
      JobOnlyJob(s, Do(s, step), step.w);
    } else {
      LocksAndSavesWriteNothing(s, step);
    }
  }

  lemma JobOnlyJob(s: World, t: World, w: nat)
    requires t == s || (JobOnly(s, t, w) && Unburdened(JobOf(t, w)))
    ensures JobOf(t, w).Writing? ==> JobOf(t, w) == JobOf(s, w)
  {
  }

  lemma LocksAndSavesWriteNothing(s: World, step: Step)
    requires HasActor(step) && !PlansOrReads(step) && !step.ComputeEffect? && !step.ComputeOwn?
    ensures JobOf(Do(s, step), step.w).Writing? ==> JobOf(Do(s, step), step.w) == JobOf(s, step.w)
  {
    hide SavedRow, SavedEvent, ChargedRow, MayReactivate, StillDue, CloseBy, ClosingEvent;
  }

  /**
   Two guards before ConfioPagos is called do not hold until the write; the one under the lock does:
   in every run, what a start is about to replace is the row as it is, and it is not live.
   */
  lemma StartsReplaceNoLiveRow(s: World, steps: seq<Step>, w: nat)
    requires Initial(s) && WritesStart(JobOf(Run(s, steps), w))
    ensures var t := Run(s, steps);
            var job := JobOf(t, w);
            job.sub in t.rows && t.rows[job.sub] == job.base && !IsLive(t.rows[job.sub].status)
  {
    hide Run, Do, Marking, DoComputeEffect, DoComputeOwn, IsLive;
    InitialIsMarking(s);
    MarkingHolds(s, steps);
    var t := Run(s, steps);
    WriterHoldsRow(t, w);
    var n := FindMaker(s, steps, w);
    var before := Run(s, steps[..n]);
    var step := steps[n];
    StepIsItsPart(before, step);
    if step.ComputeEffect? {
      EffectsWriteNoStart(before, step.w, step.now);
    } else if step.ComputeOwn? {
      OwnStartsFindNoLiveRow(before, step.w, step.move, step.now);
    } else {
      NoOtherStepWrites(before, step);
    }
  }

  lemma StepIsItsPart(s: World, step: Step)
    ensures step.ComputeEffect? ==> Do(s, step) == DoComputeEffect(s, step.w, step.now)
    ensures step.ComputeOwn? ==> Do(s, step) == DoComputeOwn(s, step.w, step.move, step.now)
  {
    hide DoComputeEffect, DoComputeOwn;
  }

  lemma WriterHoldsRow(s: World, w: nat)
    requires Marking(s) && JobOf(s, w).Writing?
    ensures JobOf(s, w).sub in s.rows && s.rows[JobOf(s, w).sub] == JobOf(s, w).base
  {
    assert JobHoldsRow(s, w);
  }

  /** A start that finds the row live under its lock gives up and leaves everything as it was. */
  lemma LiveRowStopsStart(s: World, w: nat, kind: EventKind, plan: string, name: string, now: Instant)
    requires JobOf(s, w).InTx? && JobOf(s, w).sub in s.rows && IsLive(s.rows[JobOf(s, w).sub].status)
    ensures var t := Do(s, ComputeOwn(w, Reopen(kind, plan, name), now));
            && t.rows == s.rows && t.history == s.history && t.plans == s.plans && JobOf(t, w).Idle? && Free(t, JobOf(s, w).sub)
  {
    hide StartRow;
  }

  // ---------------------------------------------------------------- who moves a plan

  /** The step puts the pair in the store. */
  predicate Assigns(s: World, step: Step, key: (string, string)) {
    match step
    case PushPlans(w, first, second) =>
      JobOf(s, w).Planned? && JobOf(s, w).effect.roles.Some? &&
      var move := JobOf(s, w).effect.roles.value;
      || (move.action.Restore? && key == (move.brandId, move.planSlug) && !first.Refused?)
      || (move.action.Downgrade? && move.planSlug != FREE_PLAN && first.Accepted? && !second.Refused?
          && key == (move.brandId, FREE_PLAN))
    case GiveFree(w, call) => JobOf(s, w).Withdrawn? && key == (JobOf(s, w).copy.brandId, FREE_PLAN) && !call.Refused?
    case Repair(w, call) =>
      JobOf(s, w).Repairing? && key == (JobOf(s, w).row.brandId, JobOf(s, w).row.planSlug) && !call.Refused?
    case PlansMove(plans) => key in plans
    case _ => false
  }

  /** The step takes the pair out of the store. */
  predicate Withdraws(s: World, step: Step, key: (string, string)) {
    match step
    case PushPlans(w, first, _) =>
      JobOf(s, w).Planned? && JobOf(s, w).effect.roles.Some? &&
      var move := JobOf(s, w).effect.roles.value;
      && key == (move.brandId, move.planSlug) && !first.Refused?
      && (move.action.Withdraw? || (move.action.Downgrade? && move.planSlug != FREE_PLAN))
    case WithdrawPaid(w, call) =>
      JobOf(s, w).Selected? && MovesPlan(JobOf(s, w).copy)
      && key == (JobOf(s, w).copy.brandId, JobOf(s, w).copy.planSlug) && !call.Refused?
    case PlansMove(plans) => key !in plans
    case _ => false
  }

  /** One movement, on the store alone. */
  lemma PushedPlan(plans: PlanStore, move: RolesMove, first: Call, second: Call, key: (string, string))
    ensures key in Push(plans, move, first, second).0 <==>
            || (move.action.Restore? && key == (move.brandId, move.planSlug) && !first.Refused?)
            || (move.action.Downgrade? && move.planSlug != FREE_PLAN && first.Accepted? && !second.Refused?
                && key == (move.brandId, FREE_PLAN))
            || (key in plans && !(key == (move.brandId, move.planSlug) && !first.Refused?
                                  && (move.action.Withdraw? || (move.action.Downgrade? && move.planSlug != FREE_PLAN))))
  {
  }

  lemma PushMovesPlan(s: World, w: nat, first: Call, second: Call, key: (string, string))
    ensures key in DoPush(s, w, first, second).plans <==>
            Assigns(s, PushPlans(w, first, second), key)
            || (key in s.plans && !Withdraws(s, PushPlans(w, first, second), key))
  {
    hide Push;
    if JobOf(s, w).Planned? && JobOf(s, w).effect.roles.Some? {
      PushedPlan(s.plans, JobOf(s, w).effect.roles.value, first, second, key);
    }
  }

  lemma WithdrawMovesPlan(s: World, w: nat, call: Call, key: (string, string))
    ensures key in DoWithdraw(s, w, call).plans <==>
            Assigns(s, WithdrawPaid(w, call), key) || (key in s.plans && !Withdraws(s, WithdrawPaid(w, call), key))
  {
    hide MovesPlan;
  }

  lemma GiveFreeMovesPlan(s: World, w: nat, call: Call, key: (string, string))
    ensures key in DoGiveFree(s, w, call).plans <==>
            Assigns(s, GiveFree(w, call), key) || (key in s.plans && !Withdraws(s, GiveFree(w, call), key))
  {
  }

  lemma RepairMovesPlan(s: World, w: nat, call: Call, key: (string, string))
    ensures key in DoRepair(s, w, call).plans <==>
            Assigns(s, Repair(w, call), key) || (key in s.plans && !Withdraws(s, Repair(w, call), key))
  {
  }

  predicate CallsStore(step: Step) {
    step.PushPlans? || step.WithdrawPaid? || step.GiveFree? || step.Repair? || step.PlansMove?
  }

  lemma OthersMoveNoPlan(s: World, step: Step)
    requires !CallsStore(step)
    ensures Do(s, step).plans == s.plans && forall key :: !Assigns(s, step, key) && !Withdraws(s, step, key)
  {
    hide ApplyEffect, CancelRow, StartRow, SavedRow, SavedEvent, Plan, Ask, Marked, Traced, MayReactivate, RowOk, TraceOf;
    hide DoSelect, DoStopCharging, DoCompareAndSet, DoLogClosing, DoReread;
    if RepairTheorems.OfPass(step) { RepairTheorems.OtherPassStepsMoveNoPlan(s, step); }
  }

  /** These are all the ways a plan moves. */
  lemma StepMovesPlan(s: World, step: Step, key: (string, string))
    ensures key in Do(s, step).plans <==> Assigns(s, step, key) || (key in s.plans && !Withdraws(s, step, key))
  {
    hide DoPush, DoWithdraw, DoGiveFree, DoRepair, MovesPlan, JobOf;
    if CallsStore(step) && !step.PlansMove? {
      hide Assigns, Withdraws;
      match step {
        case PushPlans(w, first, second) => PushMovesPlan(s, w, first, second, key);
        case WithdrawPaid(w, call) => WithdrawMovesPlan(s, w, call, key);
        case GiveFree(w, call) => GiveFreeMovesPlan(s, w, call, key);
        case Repair(w, call) => RepairMovesPlan(s, w, call, key);
      }
    } else if !CallsStore(step) {
      hide Do, Assigns, Withdraws;
      OthersMoveNoPlan(s, step);
    }
  }

  ghost predicate WithdrawnAt(s: World, steps: seq<Step>, i: nat, key: (string, string)) {
    i < |steps| && Withdraws(Run(s, steps[..i]), steps[i], key)
  }

  ghost predicate AssignedAt(s: World, steps: seq<Step>, i: nat, key: (string, string)) {
    i < |steps| && Assigns(Run(s, steps[..i]), steps[i], key)
  }

  ghost predicate NeverWithdrawn(s: World, steps: seq<Step>, key: (string, string), from: nat) {
    forall i :: from <= i < |steps| ==> !WithdrawnAt(s, steps, i, key)
  }

  /** Some step assigned the pair and no later one withdrew it. */
  ghost predicate LeftAssigned(s: World, steps: seq<Step>, key: (string, string)) {
    exists i :: 0 <= i < |steps| && AssignedAt(s, steps, i, key) && NeverWithdrawn(s, steps, key, i + 1)
  }

  lemma PrefixAgrees(s: World, steps: seq<Step>, i: nat, key: (string, string))
    requires steps != [] && i < |steps| - 1
    ensures WithdrawnAt(s, steps, i, key) == WithdrawnAt(s, steps[..|steps| - 1], i, key)
    ensures AssignedAt(s, steps, i, key) == AssignedAt(s, steps[..|steps| - 1], i, key)
  {
    hide Run, Assigns, Withdraws;
    Prefixes(steps, |steps| - 1, i);
  }

  /** A pair is in the store after a run exactly when it was left paid, or was there and never taken. */
  lemma {:induction false} PlanIsThereIff(s: World, steps: seq<Step>, key: (string, string))
    ensures key in Run(s, steps).plans <==>
            LeftAssigned(s, steps, key) || (key in s.plans && NeverWithdrawn(s, steps, key, 0))
    decreases |steps|
  {
    hide Do, Assigns, Withdraws;
    if steps != [] {
      var rest, last := steps[..|steps| - 1], |steps| - 1;
      PlanIsThereIff(s, rest, key);
      RunLast(s, steps);
      StepMovesPlan(Run(s, rest), steps[last], key);
      hide Run, WithdrawnAt, AssignedAt;
      LastStepDecides(s, steps, key);
    }
  }

  lemma LastStepDecides(s: World, steps: seq<Step>, key: (string, string))
    requires steps != []
    ensures var rest, last := steps[..|steps| - 1], |steps| - 1;
            && AssignedAt(s, steps, last, key) == Assigns(Run(s, rest), steps[last], key)
            && WithdrawnAt(s, steps, last, key) == Withdraws(Run(s, rest), steps[last], key)
            && (LeftAssigned(s, steps, key) <==>
                  AssignedAt(s, steps, last, key) || (LeftAssigned(s, rest, key) && !WithdrawnAt(s, steps, last, key)))
            && (NeverWithdrawn(s, steps, key, 0) <==> NeverWithdrawn(s, rest, key, 0) && !WithdrawnAt(s, steps, last, key))
  {
    hide Run, Assigns, Withdraws;
    var rest, last := steps[..|steps| - 1], |steps| - 1;
    forall i | 0 <= i < last
      ensures WithdrawnAt(s, steps, i, key) == WithdrawnAt(s, rest, i, key)
      ensures AssignedAt(s, steps, i, key) == AssignedAt(s, rest, i, key)
    {
      PrefixAgrees(s, steps, i, key);
    }
    hide WithdrawnAt, AssignedAt;
    if LeftAssigned(s, rest, key) && !WithdrawnAt(s, steps, last, key) {
      var i :| 0 <= i < |rest| && AssignedAt(s, rest, i, key) && NeverWithdrawn(s, rest, key, i + 1);
      assert AssignedAt(s, steps, i, key) && NeverWithdrawn(s, steps, key, i + 1);
    }
    if AssignedAt(s, steps, last, key) { assert NeverWithdrawn(s, steps, key, last + 1); }
    if LeftAssigned(s, steps, key) && !AssignedAt(s, steps, last, key) {
      var i :| 0 <= i < |steps| && AssignedAt(s, steps, i, key) && NeverWithdrawn(s, steps, key, i + 1);
      assert AssignedAt(s, rest, i, key) && NeverWithdrawn(s, rest, key, i + 1);
      assert !WithdrawnAt(s, steps, last, key);
    }
  }

  // ---------------------------------------------------------------- the closed row and its plan

  /** What a worker about to write an effect has done since its push went through, up to its commit. */
  function SincePush(steps: seq<Step>, n: nat, w: nat, now: Instant, between: seq<Step>): seq<Step>
    requires n < |steps|
  {
    steps[n + 1..] + ([ComputeEffect(w, now)] + between)
  }

  lemma {:induction false} RunInTwo(s: World, a: seq<Step>, b: seq<Step>)
    ensures Run(s, a + b) == Run(Run(s, a), b)
    decreases |a|
  {
    hide Do;
    if a == [] {
      assert a + b == b;
    } else {
      assert (a + b)[1..] == a[1..] + b;
      RunInTwo(Do(s, a[0]), a[1..], b);
    }
  }

  function PlanKey(r: Row): (string, string) { (r.brandId, r.planSlug) }

  lemma AcceptedDowngradeTakes(s: World, e: Effect, step: Step)
    requires PushAccepted(s, e, step) && e.roles.Some? && e.roles.value.action.Downgrade? && e.roles.value.planSlug != FREE_PLAN
    requires JobOf(s, step.w).Planned? && JobOf(s, step.w).effect == e
    ensures (e.roles.value.brandId, e.roles.value.planSlug) !in Do(s, step).plans
  {
    hide DowngradeToFree;
  }

  lemma ApplyKeepsPlanKey(r: Row, e: Effect, now: Instant)
    ensures PlanKey(ApplyEffect(r, e, now)) == PlanKey(r)
  {
    hide RowOk, EffectOk;
  }

  lemma CommitMovesNoPlan(s: World, w: nat)
    ensures Do(s, Commit(w)).plans == s.plans
  {
  }

  /** Where the world stands when a worker inside its transaction has committed. */
  function Committed(t: World, w: nat, now: Instant, between: seq<Step>): World {
    Do(Run(Do(t, ComputeEffect(w, now)), between), Commit(w))
  }

  /**
   After a worker closes a row, the plan that row names is gone exactly when no step since its push
   assigned that plan for good, and the store did not hold it then or has lost it since. If the
   push was a downgrade, the store does not hold the plan the push was of: so on a row that still
   names it, only a later assignment can bring it back, and on a row that meanwhile names another,
   that other one stays unless somebody takes it.
   */
  lemma ClosedRowKeepsPlanIff(s: World, steps: seq<Step>, w: nat, n: nat, now: Instant, between: seq<Step>)
    requires Initial(s) && JobOf(Run(s, steps), w).InApply?
    requires var t, job := Run(s, steps), JobOf(Run(s, steps), w);
             && job.sub in t.rows && !Marked(t.history, job.sub, job.id) && IsTerminal(job.effect.toStatus)
             && PushedAt(s, steps, n, w, job.sub, job.effect, job.id)
    requires RepairTheorems.OfOthers(between, w)
    ensures var t, job := Run(s, steps), JobOf(Run(s, steps), w);
            var pushed := Run(s, steps[..n + 1]);
            var done := Committed(t, w, now, between);
            var key := PlanKey(t.rows[job.sub]);
            var since := SincePush(steps, n, w, now, between);
            && job.sub in done.rows && IsTerminal(done.rows[job.sub].status) && PlanKey(done.rows[job.sub]) == key
            && (key in done.plans <==>
                  LeftAssigned(pushed, since, key) || (key in pushed.plans && NeverWithdrawn(pushed, since, key, 0)))
            && (job.effect.roles.Some? && job.effect.roles.value.action.Downgrade? && job.effect.roles.value.planSlug != FREE_PLAN ==>
                  (job.effect.roles.value.brandId, job.effect.roles.value.planSlug) !in pushed.plans)
  {
    hide Run, Do, Marking, Marked, LeftAssigned, NeverWithdrawn, PushAccepted, ApplyEffect, TraceOf;
    var t, job := Run(s, steps), JobOf(Run(s, steps), w);
    var pushed := Run(s, steps[..n + 1]);
    var since := SincePush(steps, n, w, now, between);
    InitialIsMarking(s);
    MarkingHolds(s, steps);
    LockedApplyIsAtomic(t, w, now, between);
    ApplyKeepsPlanKey(t.rows[job.sub], job.effect, now);
    AppliedStatus(t.rows[job.sub], job.effect, now);
    var end := Run(Do(t, ComputeEffect(w, now)), between);
    CommitMovesNoPlan(end, w);
    assert steps == steps[..n + 1] + steps[n + 1..];
    RunInTwo(s, steps[..n + 1], steps[n + 1..]);
    RunInTwo(pushed, steps[n + 1..], [ComputeEffect(w, now)] + between);
    Refinement.RunStep(t, ComputeEffect(w, now), between);
    PlanIsThereIff(pushed, since, PlanKey(t.rows[job.sub]));
    assert steps[..n + 1][..n] == steps[..n];
    RunLast(s, steps[..n + 1]);
    if job.effect.roles.Some? && job.effect.roles.value.action.Downgrade? && job.effect.roles.value.planSlug != FREE_PLAN {
      AcceptedDowngradeTakes(Run(s, steps[..n]), job.effect, steps[n]);
    }
  }

  lemma AppliedStatus(r: Row, e: Effect, now: Instant)
    ensures ApplyEffect(r, e, now).status == e.toStatus
  {
  }

  // ---------------------------------------------------------------- a plan bought meanwhile

  lemma PurchaseLands(s: World, w: nat, plan: string, provider: Provider, days: int, now: Instant)
    requires JobOf(s, w).Holding? && Free(s, JobOf(s, w).sub)
    ensures var job, t := JobOf(s, w), Do(s, Save(w, Repurchase(plan, provider, None, days), now));
            && t.rows == s.rows[job.sub := RenewedRow(job.copy, plan, provider, None, now, days)]
            && t.locks == s.locks && t.history == s.history
            && forall v :: v != w ==> JobOf(t, v) == JobOf(s, v)
  {
    hide RowOk, RenewedRow, SavedEvent;
  }

  /**
   The other way it happens: a purchase saved and assigned while the closing of the old cycle waits
   for the lock. The closing lands on the row just bought, and the bought plan stays.
   */
  lemma PurchaseLosesToClosing(s: World, w: nat, buyer: nat, plan: string, provider: Provider, days: int, now: Instant)
    requires JobOf(s, w).Pushed? && IsTerminal(JobOf(s, w).effect.toStatus) && buyer != w
    requires JobOf(s, buyer).Holding? && JobOf(s, buyer).sub == JobOf(s, w).sub && Free(s, JobOf(s, w).sub)
    requires !Marked(s.history, JobOf(s, w).sub, JobOf(s, w).id)
    ensures exists steps: seq<Step> ::
              var t, sub := Run(s, steps), JobOf(s, w).sub;
              && sub in t.rows && IsTerminal(t.rows[sub].status) && t.rows[sub].planSlug == plan
              && PlanKey(t.rows[sub]) in t.plans
  {
    hide Run, Do, Marked, ApplyEffect, TraceOf, RenewedRow;
    var sub, e, copy := JobOf(s, w).sub, JobOf(s, w).effect, JobOf(s, buyer).copy;
    var buy := Save(buyer, Repurchase(plan, provider, None, days), now);
    var assign := PlansMove(s.plans[(copy.brandId, plan) := Some(now + days * MS_PER_DAY)]);
    PurchaseLands(s, buyer, plan, provider, days, now);
    var bought := Do(s, buy);
    var paid := Do(bought, assign);
    StoreMoves(bought, assign);
    Refinement.ApplyingIsAtomic(paid, w, now);
    BoughtRowNames(copy, plan, provider, days, now);
    ApplyKeepsPlanKey(RenewedRow(copy, plan, provider, None, now, days), e, now);
    AppliedStatus(RenewedRow(copy, plan, provider, None, now, days), e, now);
    var rest := [Begin(w)] + ([ComputeEffect(w, now)] + ([Commit(w)] + []));
    Refinement.RunStep(s, buy, [assign] + rest);
    Refinement.RunStep(bought, assign, rest);
    Refinement.ThreeInOrder(paid, Begin(w), ComputeEffect(w, now), Commit(w), []);
    Refinement.RunNothing(Refinement.Three(paid, Begin(w), ComputeEffect(w, now), Commit(w)));
    assert Run(s, [buy] + ([assign] + rest)) == Refinement.Three(paid, Begin(w), ComputeEffect(w, now), Commit(w));
  }

  lemma CancellationIsPlanned(r: Row, now: Instant)
    requires IsLive(r.status) && r.cancelledAt.None?
    ensures var e := Plan(StatusChange(CANCELED, ""), r, Unreachable, now); e.Some? && IsTerminal(e.value.toStatus)
  {
  }

  function CancelSteps(w: nat, buyer: nat, sub: string, id: DeliveryId, now: Instant, rest: seq<Step>): seq<Step> {
    [Read(w, sub)] + ([PlanMessage(w, StatusChange(CANCELED, ""), id, Unreachable, now)]
      + ([PushPlans(w, Accepted, Accepted)] + ([Read(buyer, sub)] + rest)))
  }

  /** A cancellation pushed and waiting for the lock, and a buyer who has read the row. */
  lemma CancelWaits(s: World, w: nat, buyer: nat, sub: string, id: DeliveryId, now: Instant) returns (held: World)
    requires Initial(s) && sub in s.rows && IsLive(s.rows[sub].status) && s.rows[sub].cancelledAt.None? && buyer != w
    ensures JobOf(held, w).Pushed? && JobOf(held, w).sub == sub && JobOf(held, w).id == id && IsTerminal(JobOf(held, w).effect.toStatus)
    ensures JobOf(held, buyer) == Holding(sub, s.rows[sub]) && Free(held, sub) && !Marked(held.history, sub, id)
    ensures forall rest: seq<Step> :: Run(s, CancelSteps(w, buyer, sub, id, now, rest)) == Run(held, rest)
  {
    hide Run, Do, Plan, Push, Marking, Initial, Marked;
    InitialIsReady(s, w, sub, id);
    InitialIsReady(s, buyer, sub, id);
    CancellationIsPlanned(s.rows[sub], now);
    var e := Plan(StatusChange(CANCELED, ""), s.rows[sub], Unreachable, now).value;
    var read, planning, push := Read(w, sub), PlanMessage(w, StatusChange(CANCELED, ""), id, Unreachable, now), PushPlans(w, Accepted, Accepted);
    Refinement.PlanningIsAtomic(s, w, sub, StatusChange(CANCELED, ""), id, Unreachable, now);
    Refinement.PlannedAndPushed(s, w, sub, planning, e, id);
    Refinement.ThreeKeepOther(s, read, planning, push, buyer);
    var pushed := Refinement.Three(s, read, planning, push);
    hide Refinement.Three;
    Refinement.ReadKeepsWorld(pushed, buyer, sub);
    held := Do(pushed, Read(buyer, sub));
    forall rest: seq<Step> ensures Run(s, CancelSteps(w, buyer, sub, id, now, rest)) == Run(held, rest) {
      Refinement.ThreeInOrder(s, read, planning, push, [Read(buyer, sub)] + rest);
      Refinement.RunStep(pushed, Read(buyer, sub), rest);
    }
  }

  /** It is reached from the start: the cancellation of a live row is pushed, and its owner buys before it is written. */
  lemma PurchaseCanLose(s: World, w: nat, buyer: nat, sub: string, id: DeliveryId, plan: string, provider: Provider, days: int, now: Instant)
    requires Initial(s) && sub in s.rows && IsLive(s.rows[sub].status) && s.rows[sub].cancelledAt.None? && buyer != w
    ensures exists steps: seq<Step> ::
              var t := Run(s, steps);
              && sub in t.rows && IsTerminal(t.rows[sub].status) && t.rows[sub].planSlug == plan
              && PlanKey(t.rows[sub]) in t.plans
  {
    hide Run, CancelSteps, Initial, Marked;
    var held := CancelWaits(s, w, buyer, sub, id, now);
    PurchaseLosesToClosing(held, w, buyer, plan, provider, days, now);
    var steps: seq<Step> :| var t := Run(held, steps);
                            && sub in t.rows && IsTerminal(t.rows[sub].status) && t.rows[sub].planSlug == plan
                            && PlanKey(t.rows[sub]) in t.plans;
    assert Run(s, CancelSteps(w, buyer, sub, id, now, steps)) == Run(held, steps);
  }

  lemma InitialIsReady(s: World, w: nat, sub: string, id: DeliveryId)
    requires Initial(s) && sub in s.rows
    ensures Refinement.Ready(s, w, sub) && Marking(s) && !Marked(s.history, sub, id)
  {
  }

  lemma StoreMoves(s: World, step: Step)
    requires step.PlansMove?
    ensures Do(s, step) == s.(plans := step.plans)
  {
  }

  lemma BoughtRowNames(copy: Row, plan: string, provider: Provider, days: int, now: Instant)
    ensures PlanKey(RenewedRow(copy, plan, provider, None, now, days)) == (copy.brandId, plan)
  {
  }
}
