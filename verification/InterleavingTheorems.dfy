/** What every interleaving of the subscription's actors keeps. */
module InterleavingTheorems {
  import opened Basics
  import opened Subscriptions
  import opened ConfioWebhook
  import opened RowMoves
  import opened Interleaving

  // ---------------------------------------------------------------- steps that only move a job

  /** The worker reads, plans, calls the plan store or moves on; nothing it shares but the plans changes. */
  predicate JobOnly(s: World, t: World, w: nat) {
    && t.rows == s.rows && t.locks == s.locks && t.history == s.history && t.closings == s.closings
    && t.jobs == s.jobs[w := JobOf(t, w)]
  }

  predicate PlansOrReads(step: Step) {
    step.PlanMessage? || step.PlanQuestion? || step.PushPlans? || step.Read? || step.Select?
    || step.WithdrawPaid? || step.GiveFree? || step.Reread? || step.Repair?
  }

  /** A job that holds no row and will append nothing as it stands. */
  predicate Unburdened(job: Job) {
    !job.InApply? && !job.InTx? && !job.Writing? && !job.Logging? && !job.Closing?
  }

  lemma PlanningMovesJob(s: World, step: Step)
    requires step.PlanMessage? || step.PlanQuestion?
    ensures DoPlan(s, step) == s || (JobOnly(s, DoPlan(s, step), step.w) && Unburdened(JobOf(DoPlan(s, step), step.w)))
  {
    hide Plan, Ask, Marked, RowOk, EffectOk;
    match JobOf(s, step.w) {
      case Holding(sub, copy) =>
        assert DoPlan(s, step) == To(s, step.w, JobOf(DoPlan(s, step), step.w));
      case _ =>
    }
  }

  lemma PlanningIsFit(s: World, step: Step)
    requires step.PlanMessage? || step.PlanQuestion?
    ensures RowsOk(s) ==> JobRowsOk(JobOf(DoPlan(s, step), step.w))
  {
    hide Plan, Ask, Marked, RowOk, EffectOk;
  }

  lemma PushMovesJob(s: World, w: nat, first: Call, second: Call)
    ensures DoPush(s, w, first, second) == s
            || (JobOnly(s, DoPush(s, w, first, second), w) && Unburdened(JobOf(DoPush(s, w, first, second), w)))
    ensures RowsOk(s) ==> JobRowsOk(JobOf(DoPush(s, w, first, second), w))
  {
    hide Push, RowOk, EffectOk;
  }

  lemma ReadMovesJob(s: World, step: Step)
    requires step.Read? || step.Select?
    ensures Do(s, step) == s || (JobOnly(s, Do(s, step), step.w) && Unburdened(JobOf(Do(s, step), step.w)))
    ensures RowsOk(s) ==> JobRowsOk(JobOf(Do(s, step), step.w))
  {
    hide RowOk, EffectOk, Due;
  }

  lemma WithdrawMovesJob(s: World, w: nat, call: Call)
    ensures DoWithdraw(s, w, call) == s
            || (JobOnly(s, DoWithdraw(s, w, call), w) && Unburdened(JobOf(DoWithdraw(s, w, call), w)))
    ensures RowsOk(s) ==> JobRowsOk(JobOf(DoWithdraw(s, w, call), w))
  {
    hide RowOk, EffectOk, MovesPlan;
  }

  lemma GiveFreeMovesJob(s: World, w: nat, call: Call)
    ensures DoGiveFree(s, w, call) == s
            || (JobOnly(s, DoGiveFree(s, w, call), w) && Unburdened(JobOf(DoGiveFree(s, w, call), w)))
    ensures RowsOk(s) ==> JobRowsOk(JobOf(DoGiveFree(s, w, call), w))
  {
    hide RowOk, EffectOk, MovesPlan;
  }

  lemma RepairMovesJob(s: World, w: nat, call: Call)
    ensures DoReread(s, w) == s || (JobOnly(s, DoReread(s, w), w) && Unburdened(JobOf(DoReread(s, w), w)))
    ensures DoRepair(s, w, call) == s
            || (JobOnly(s, DoRepair(s, w, call), w) && Unburdened(JobOf(DoRepair(s, w, call), w)))
    ensures RowsOk(s) ==> JobRowsOk(JobOf(DoReread(s, w), w)) && JobRowsOk(JobOf(DoRepair(s, w, call), w))
  {
    hide RowOk, EffectOk, MovesPlan, Entitled;
  }

  lemma PlansOrReadsMovesJob(s: World, step: Step)
    requires PlansOrReads(step)
    ensures Do(s, step) == s || (JobOnly(s, Do(s, step), step.w) && Unburdened(JobOf(Do(s, step), step.w)))
    ensures RowsOk(s) ==> JobRowsOk(JobOf(Do(s, step), step.w))
  {
    hide DoPlan, DoPush, DoWithdraw, DoGiveFree, DoReread, DoRepair, JobOnly, Unburdened, JobRowsOk;
    match step {
      case PlanMessage(_, _, _, _, _) => PlanningMovesJob(s, step); PlanningIsFit(s, step);
      case PlanQuestion(_, _, _) => PlanningMovesJob(s, step); PlanningIsFit(s, step);
      case PushPlans(w, first, second) => PushMovesJob(s, w, first, second);
      case WithdrawPaid(w, call) => WithdrawMovesJob(s, w, call);
      case GiveFree(w, call) => GiveFreeMovesJob(s, w, call);
      case Reread(w) => RepairMovesJob(s, w, Refused);
      case Repair(w, call) => RepairMovesJob(s, w, call);
      case _ => ReadMovesJob(s, step);
    }
  }

  // ---------------------------------------------------------------- the row invariant

  /** The row a worker holds, and the effect it means to apply, are fit to be written. */
  predicate JobRowsOk(job: Job) {
    match job
    case Holding(_, copy) => RowOk(copy)
    case Failing(_, copy) => RowOk(copy)
    case Planned(_, e, _) => EffectOk(e)
    case Pushed(_, e, _) => EffectOk(e)
    case InApply(_, e, _) => EffectOk(e)
    case Writing(_, _, row, _) => RowOk(row)
    case _ => true
  }

  ghost predicate RowsOk(s: World) {
    && (forall sub :: sub in s.rows ==> RowOk(s.rows[sub]))
    && (forall w :: JobRowsOk(JobOf(s, w)))
  }

  lemma SavedRowOk(copy: Row, move: StaleMove, now: Instant)
    requires RowOk(copy) && (move.Reinstate? ==> MayReactivate(copy))
    ensures RowOk(SavedRow(copy, move, now))
  {
  }

  lemma ClosedRowOk(pass: Pass, copy: Row, r: Row)
    requires RowOk(r) && StillDue(pass, copy, r)
    ensures RowOk(CloseBy(pass, r))
  {
  }

  /** Every row is still fit, and only worker `w` changes its job, to a fit one. */
  ghost predicate WritesFitRow(s: World, t: World, w: nat) {
    && (forall sub :: sub in t.rows ==> RowOk(t.rows[sub]))
    && (forall v :: v != w ==> JobOf(t, v) == JobOf(s, v))
    && JobRowsOk(JobOf(t, w))
  }

  lemma SaveIsFit(s: World, w: nat, move: StaleMove, now: Instant)
    requires RowsOk(s)
    ensures WritesFitRow(s, DoSave(s, w, move, now), w)
  {
    hide RowOk, MayReactivate, SavedRow, SavedEvent;
    match JobOf(s, w) {
      case Holding(sub, copy) =>
        if !move.Reinstate? || MayReactivate(copy) { SavedRowOk(copy, move, now); }
      case _ =>
    }
  }

  lemma FalterIsFit(s: World, w: nat, move: Option<StaleMove>, landed: bool, now: Instant)
    requires RowsOk(s)
    ensures WritesFitRow(s, DoFalter(s, w, move, landed, now), w)
  {
    hide RowOk, SavedRow;
    match JobOf(s, w) {
      case Holding(sub, copy) =>
        if move.Some? && !move.value.Reinstate? { SavedRowOk(copy, move.value, now); }
      case _ =>
    }
  }

  lemma RecoverIsFit(s: World, w: nat)
    requires RowsOk(s)
    ensures WritesFitRow(s, DoRecover(s, w), w)
  {
    hide RowOk;
  }

  lemma CompareAndSetIsFit(s: World, w: nat)
    requires RowsOk(s)
    ensures WritesFitRow(s, DoCompareAndSet(s, w), w)
  {
    hide RowOk, StillDue, CloseBy, ClosingEvent;
    match JobOf(s, w) {
      case Degraded(pass, sub, copy) =>
        if sub in s.rows && StillDue(pass, copy, s.rows[sub]) { ClosedRowOk(pass, copy, s.rows[sub]); }
      case _ =>
    }
  }

  lemma StopChargingIsFit(s: World, w: nat)
    requires RowsOk(s)
    ensures WritesFitRow(s, DoStopCharging(s, w), w)
  {
    hide RowOk;
    match JobOf(s, w) {
      case Stuck(sub) => if sub in s.rows { TurnedOffRowOk(s.rows[sub]); }
      case _ =>
    }
  }

  lemma ComputeIsFit(s: World, w: nat, move: OwnMove, now: Instant)
    requires RowsOk(s)
    ensures WritesFitRow(s, DoComputeEffect(s, w, now), w)
    ensures WritesFitRow(s, DoComputeOwn(s, w, move, now), w)
  {
    hide RowOk, ApplyEffect, CancelRow, StartRow, EffectOk, TraceOf, Marked, Traced;
  }

  lemma TransactionIsFit(s: World, w: nat, sub: string)
    requires RowsOk(s)
    ensures WritesFitRow(s, DoCommit(s, w), w)
    ensures WritesFitRow(s, DoAbort(s, w), w)
    ensures WritesFitRow(s, DoBegin(s, w), w)
    ensures WritesFitRow(s, DoBeginOwn(s, w, sub), w)
  {
    hide RowOk, EffectOk;
  }

  lemma LoggingIsFit(s: World, w: nat)
    requires RowsOk(s)
    ensures WritesFitRow(s, DoLog(s, w), w) && WritesFitRow(s, DoLogClosing(s, w), w)
  {
    hide RowOk;
  }

  lemma InsertIsFit(s: World, sub: string, row: Row)
    requires RowsOk(s)
    ensures RowsOk(Do(s, Insert(sub, row)))
  {
    forall w ensures JobRowsOk(JobOf(Do(s, Insert(sub, row)), w)) { assert JobRowsOk(JobOf(s, w)); }
  }

  lemma FitStepKeepsRowsOk(s: World, t: World, w: nat)
    requires RowsOk(s) && WritesFitRow(s, t, w)
    ensures RowsOk(t)
  {
    hide RowOk, JobRowsOk;
    forall v ensures JobRowsOk(JobOf(t, v)) { assert JobRowsOk(JobOf(s, v)); }
  }

  lemma StepKeepsRowsOk(s: World, step: Step)
    requires RowsOk(s)
    ensures RowsOk(Do(s, step))
  {
    hide RowsOk, WritesFitRow, DoPlan, DoPush, DoBegin, DoBeginOwn, DoSelect, DoWithdraw, DoGiveFree, DoLogClosing, DoReread, DoRepair;
    hide DoSave, DoCompareAndSet, DoStopCharging, DoComputeEffect, DoComputeOwn, DoCommit, DoAbort, DoLog, DoFalter, DoRecover;
    match step {
      case Insert(sub, row) => InsertIsFit(s, sub, row); return;
      case PlansMove(plans) => PlansMoveIsFit(s, plans); return;
      case Save(w, move, now) => SaveIsFit(s, w, move, now);
      case CompareAndSet(w) => CompareAndSetIsFit(s, w);
      case StopCharging(w) => StopChargingIsFit(s, w);
      case ComputeEffect(w, now) => ComputeIsFit(s, w, Seal("", None), now);
      case ComputeOwn(w, move, now) => ComputeIsFit(s, w, move, now);
      case Commit(w) => TransactionIsFit(s, w, "");
      case Abort(w) => TransactionIsFit(s, w, "");
      case Begin(w) => TransactionIsFit(s, w, "");
      case BeginOwn(w, sub) => TransactionIsFit(s, w, sub);
      case Falter(w, move, landed, now) => FalterIsFit(s, w, move, landed, now);
      case Recover(w) => RecoverIsFit(s, w);
      case Log(w) => LoggingIsFit(s, w);
      case LogClosing(w) => LoggingIsFit(s, w);
      case _ => PlansOrReadsIsFit(s, step);
    }
    FitStepKeepsRowsOk(s, Do(s, step), step.w);
  }

  lemma PlansMoveIsFit(s: World, plans: PlanStore)
    requires RowsOk(s)
    ensures RowsOk(Do(s, PlansMove(plans)))
  {
    forall w ensures JobRowsOk(JobOf(Do(s, PlansMove(plans)), w)) { assert JobRowsOk(JobOf(s, w)); }
  }

  lemma PlansOrReadsIsFit(s: World, step: Step)
    requires RowsOk(s) && PlansOrReads(step)
    ensures WritesFitRow(s, Do(s, step), step.w)
  {
    hide Do, JobRowsOk, RowOk;
    PlansOrReadsMovesJob(s, step);
    if Do(s, step) == s { assert JobRowsOk(JobOf(s, step.w)); }
  }

  lemma TurnedOffRowOk(r: Row)
    requires RowOk(r)
    ensures RowOk(r.(autoRenew := false))
  {
  }

  /** Stale whole-row saves included, no interleaving ever leaves a row that breaks the invariant. */
  lemma {:induction false} RowInvariantHolds(s: World, steps: seq<Step>)
    requires RowsOk(s)
    ensures RowsOk(Run(s, steps))
    decreases |steps|
  {
    hide Do;
    if steps != [] {
      StepKeepsRowsOk(s, steps[0]);
      RowInvariantHolds(Do(s, steps[0]), steps[1..]);
    }
  }

  /** Whether some cron that charges would select the row. */
  predicate SelectedForCharge(r: Row, now: Instant) {
    DueTrial(r, now) || DueRenewal(r, now) || DueRetry(r) || DueBatchCharge(r, now)
  }

  /** So no charging query ever selects a row that is closed, waiting, or given up by its owner. */
  lemma ChargesOnlyRenewingRows(s: World, steps: seq<Step>, sub: string, now: Instant)
    requires Initial(s) && sub in Run(s, steps).rows
    requires SelectedForCharge(Run(s, steps).rows[sub], now)
    ensures var r := Run(s, steps).rows[sub];
            IsLive(r.status) && r.cancelledAt.None? && r.accessEndsAt.None? && r.autoRenew
  {
    hide Run;
    RowInvariantHolds(s, steps);
  }

  // ---------------------------------------------------------------- exactly once

  /** Inside a transaction the worker holds the row, the row has not moved, and a mark is new. */
  ghost predicate JobHoldsRow(s: World, w: nat) {
    match JobOf(s, w)
    case InApply(sub, _, _) => sub in s.locks && s.locks[sub] == w
    case InTx(sub) => sub in s.locks && s.locks[sub] == w
    case Writing(sub, base, _, trace) =>
      && sub in s.locks && s.locks[sub] == w
      && sub in s.rows && s.rows[sub] == base
      && (trace.Some? && trace.value.delivery.Some? ==> !Marked(s.history, sub, trace.value.delivery.value))
    case Logging(_, event) => event.delivery.None?
    case Closing(_, event, _) => event.delivery.None?
    case _ => true
  }

  predicate MarksUnique(history: seq<Entry>) {
    forall i, j :: 0 <= i < j < |history| && history[i].sub == history[j].sub && history[i].event.delivery.Some?
                   ==> history[i].event.delivery != history[j].event.delivery
  }

  ghost predicate Marking(s: World) {
    MarksUnique(s.history) && forall w :: JobHoldsRow(s, w)
  }

  /**
   What worker `w` can reach of the others': nothing. Their jobs, their locks and the rows they
   hold stay, and a marked entry is only appended for a row `w` itself holds.
   */
  ghost predicate Local(s: World, t: World, w: nat) {
    && (forall v :: v != w ==> JobOf(t, v) == JobOf(s, v))
    && (forall sub :: sub in s.locks && s.locks[sub] != w ==> sub in t.locks && t.locks[sub] == s.locks[sub])
    && (forall sub :: sub in s.locks && s.locks[sub] != w && sub in s.rows ==> sub in t.rows && t.rows[sub] == s.rows[sub])
    && Appends(s.history, t.history)
    && (|s.history| < |t.history| ==> AppendedUnderLock(s, t.history[|s.history|], w))
  }

  /** At most one more entry, at the end. */
  predicate Appends(before: seq<Entry>, after: seq<Entry>) {
    |before| <= |after| <= |before| + 1 && after[..|before|] == before
  }

  predicate AppendedUnderLock(s: World, e: Entry, w: nat) {
    e.event.delivery.Some? ==>
      e.sub in s.locks && s.locks[e.sub] == w && !Marked(s.history, e.sub, e.event.delivery.value)
  }

  lemma LocalKeepsOthers(s: World, t: World, w: nat, v: nat)
    requires Local(s, t, w) && v != w && JobHoldsRow(s, v)
    ensures JobHoldsRow(t, v)
  {
    match JobOf(s, v) {
      case Writing(sub, base, _, trace) =>
        if trace.Some? && trace.value.delivery.Some? { AppendKeepsUnmarked(s, t, w, sub, trace.value.delivery.value); }
      case _ =>
    }
  }

  lemma AppendKeepsUnmarked(s: World, t: World, w: nat, sub: string, id: DeliveryId)
    requires Local(s, t, w) && sub in s.locks && s.locks[sub] != w && !Marked(s.history, sub, id)
    ensures !Marked(t.history, sub, id)
  {
    forall e | e in t.history ensures !(e.sub == sub && e.event.delivery == Some(id)) {
      var i :| 0 <= i < |t.history| && t.history[i] == e;
      if i < |s.history| {
        assert e == t.history[..|s.history|][i];
        assert e in s.history;
      }
    }
  }

  lemma LocalKeepsMarksUnique(s: World, t: World, w: nat)
    requires Local(s, t, w) && MarksUnique(s.history)
    ensures MarksUnique(t.history)
  {
    var n := |s.history|;
    forall i, j | 0 <= i < j < |t.history| && t.history[i].sub == t.history[j].sub && t.history[i].event.delivery.Some?
      ensures t.history[i].event.delivery != t.history[j].event.delivery
    {
      assert t.history[i] == t.history[..n][i] == s.history[i];
      if j < n {
        assert t.history[j] == t.history[..n][j] == s.history[j];
      } else {
        assert s.history[i] in s.history;
      }
    }
  }

  lemma CommitIsLocal(s: World, w: nat)
    requires JobHoldsRow(s, w)
    ensures Local(s, DoCommit(s, w), w) && JobHoldsRow(DoCommit(s, w), w)
  {
    hide Marked;
  }

  lemma BeginIsLocal(s: World, w: nat, sub: string)
    requires JobHoldsRow(s, w)
    ensures Local(s, DoBegin(s, w), w) && JobHoldsRow(DoBegin(s, w), w)
    ensures Local(s, DoBeginOwn(s, w, sub), w) && JobHoldsRow(DoBeginOwn(s, w, sub), w)
  {
    hide Marked;
  }

  lemma ComputeIsLocal(s: World, w: nat, now: Instant)
    requires JobHoldsRow(s, w)
    ensures Local(s, DoComputeEffect(s, w, now), w) && JobHoldsRow(DoComputeEffect(s, w, now), w)
  {
    hide Marked, ApplyEffect;
  }

  lemma ComputeOwnIsLocal(s: World, w: nat, move: OwnMove, now: Instant)
    requires JobHoldsRow(s, w)
    ensures Local(s, DoComputeOwn(s, w, move, now), w) && JobHoldsRow(DoComputeOwn(s, w, move, now), w)
  {
    hide Marked, Traced, CancelRow, StartRow;
  }

  lemma AbortIsLocal(s: World, w: nat)
    requires JobHoldsRow(s, w)
    ensures Local(s, DoAbort(s, w), w) && JobHoldsRow(DoAbort(s, w), w)
  {
    hide Marked;
  }

  lemma SaveIsLocal(s: World, w: nat, move: StaleMove, now: Instant)
    requires JobHoldsRow(s, w)
    ensures Local(s, DoSave(s, w, move, now), w) && JobHoldsRow(DoSave(s, w, move, now), w)
  {
    hide Marked, SavedRow, MayReactivate;
  }

  lemma FalterIsLocal(s: World, w: nat, move: Option<StaleMove>, landed: bool, now: Instant)
    requires JobHoldsRow(s, w)
    ensures Local(s, DoFalter(s, w, move, landed, now), w) && JobHoldsRow(DoFalter(s, w, move, landed, now), w)
  {
    hide Marked, SavedRow;
  }

  lemma RecoverIsLocal(s: World, w: nat)
    requires JobHoldsRow(s, w)
    ensures Local(s, DoRecover(s, w), w) && JobHoldsRow(DoRecover(s, w), w)
  {
    hide Marked, ChargedRow;
  }

  lemma CompareAndSetIsLocal(s: World, w: nat)
    requires JobHoldsRow(s, w)
    ensures Local(s, DoCompareAndSet(s, w), w) && JobHoldsRow(DoCompareAndSet(s, w), w)
  {
    hide Marked, StillDue, CloseBy;
  }

  lemma StopChargingIsLocal(s: World, w: nat)
    requires JobHoldsRow(s, w)
    ensures Local(s, DoStopCharging(s, w), w) && JobHoldsRow(DoStopCharging(s, w), w)
  {
    hide Marked;
  }

  lemma LogIsLocal(s: World, w: nat)
    requires JobHoldsRow(s, w)
    ensures Local(s, DoLog(s, w), w) && JobHoldsRow(DoLog(s, w), w)
    ensures Local(s, DoLogClosing(s, w), w) && JobHoldsRow(DoLogClosing(s, w), w)
  {
    hide Marked;
  }

  lemma JobOnlyIsLocal(s: World, t: World, w: nat)
    requires JobHoldsRow(s, w) && (t == s || (JobOnly(s, t, w) && Unburdened(JobOf(t, w))))
    ensures Local(s, t, w) && JobHoldsRow(t, w)
  {
    hide Marked;
  }

  lemma PlansOrReadsIsLocal(s: World, step: Step)
    requires PlansOrReads(step) && JobHoldsRow(s, step.w)
    ensures Local(s, Do(s, step), step.w) && JobHoldsRow(Do(s, step), step.w)
  {
    hide Do, RowsOk, JobHoldsRow, Local, JobOnly, Unburdened, JobRowsOk;
    PlansOrReadsMovesJob(s, step);
    JobOnlyIsLocal(s, Do(s, step), step.w);
  }

  predicate HasActor(step: Step) { !step.Insert? && !step.PlansMove? }

  lemma StepIsLocal(s: World, step: Step)
    requires HasActor(step) && JobHoldsRow(s, step.w)
    ensures Local(s, Do(s, step), step.w) && JobHoldsRow(Do(s, step), step.w)
  {
    hide Local, JobHoldsRow, DoPlan, DoPush, DoBegin, DoBeginOwn, DoSelect, DoWithdraw, DoGiveFree, DoLogClosing, DoReread;
    hide DoRepair, DoSave, DoCompareAndSet, DoStopCharging, DoComputeEffect, DoComputeOwn, DoCommit, DoAbort, DoLog, DoFalter, DoRecover;
    match step {
      case Begin(w) => BeginIsLocal(s, w, "");
      case BeginOwn(w, sub) => BeginIsLocal(s, w, sub);
      case ComputeEffect(w, now) => ComputeIsLocal(s, w, now);
      case ComputeOwn(w, move, now) => ComputeOwnIsLocal(s, w, move, now);
      case Commit(w) => CommitIsLocal(s, w);
      case Abort(w) => AbortIsLocal(s, w);
      case Save(w, move, now) => SaveIsLocal(s, w, move, now);
      case CompareAndSet(w) => CompareAndSetIsLocal(s, w);
      case StopCharging(w) => StopChargingIsLocal(s, w);
      case Falter(w, move, landed, now) => FalterIsLocal(s, w, move, landed, now);
      case Recover(w) => RecoverIsLocal(s, w);
      case Log(w) => LogIsLocal(s, w);
      case LogClosing(w) => LogIsLocal(s, w);
      case _ => PlansOrReadsIsLocal(s, step);
    }
  }

  lemma EnvironmentKeepsMarking(s: World, step: Step)
    requires Marking(s) && !HasActor(step)
    ensures Marking(Do(s, step))
  {
    hide Marked;
    forall v ensures JobHoldsRow(Do(s, step), v) { assert JobHoldsRow(s, v); }
  }

  lemma StepKeepsMarking(s: World, step: Step)
    requires Marking(s)
    ensures Marking(Do(s, step))
  {
    hide Do, Marking;
    if HasActor(step) { ActorStepKeepsMarking(s, step); } else { EnvironmentKeepsMarking(s, step); }
  }

  lemma ActorStepKeepsMarking(s: World, step: Step)
    requires Marking(s) && HasActor(step)
    ensures Marking(Do(s, step))
  {
    hide Do, Local, JobHoldsRow, MarksUnique;
    assert JobHoldsRow(s, step.w);
    StepIsLocal(s, step);
    LocalKeepsMarksUnique(s, Do(s, step), step.w);
    forall v ensures JobHoldsRow(Do(s, step), v) {
      if v != step.w { LocalKeepsOthers(s, Do(s, step), step.w, v); }
    }
  }

  lemma {:induction false} MarkingHolds(s: World, steps: seq<Step>)
    requires Marking(s)
    ensures Marking(Run(s, steps))
    decreases |steps|
  {
    hide Do, Marking;
    if steps != [] {
      StepKeepsMarking(s, steps[0]);
      MarkingHolds(Do(s, steps[0]), steps[1..]);
    }
  }

  /** Deliveries, redeliveries and confirmations in any interleaving leave one entry per mark and row. */
  lemma ExactlyOnce(s: World, steps: seq<Step>)
    requires Initial(s)
    ensures MarksUnique(Run(s, steps).history)
  {
    hide Run;
    MarkingHolds(s, steps);
  }

  lemma StepOnlyAppends(s: World, step: Step)
    requires Marking(s)
    ensures s.history <= Do(s, step).history
  {
    hide Do, JobHoldsRow;
    if HasActor(step) {
      assert JobHoldsRow(s, step.w);
      StepIsLocal(s, step);
    } else {
      EnvironmentKeepsHistory(s, step);
    }
  }

  lemma EnvironmentKeepsHistory(s: World, step: Step)
    requires !HasActor(step)
    ensures Do(s, step).history == s.history
  {
    hide RowOk;
  }

  /** The history is append-only, whoever writes. */
  lemma {:induction false} HistoryOnlyGrows(s: World, steps: seq<Step>)
    requires Marking(s)
    ensures s.history <= Run(s, steps).history
    decreases |steps|
  {
    hide Do, Marking;
    if steps != [] {
      StepOnlyAppends(s, steps[0]);
      StepKeepsMarking(s, steps[0]);
      HistoryOnlyGrows(Do(s, steps[0]), steps[1..]);
    }
  }

  /** A mark once written is never written again: every later redelivery and confirmation leaves no other entry. */
  lemma MarkedOnceForGood(s: World, steps: seq<Step>, more: seq<Step>, i: nat, j: nat)
    requires Initial(s) && i < |Run(s, steps).history| && Run(s, steps).history[i].event.delivery.Some?
    requires j < |Run(Run(s, steps), more).history|
    ensures var before, after := Run(s, steps).history, Run(Run(s, steps), more).history;
            && i < |after| && after[i] == before[i]
            && (after[j].sub == before[i].sub && after[j].event.delivery == before[i].event.delivery ==> j == i)
  {
    hide Run, Marking;
    var t := Run(s, steps);
    InitialIsMarking(s);
    MarkingHolds(s, steps);
    MarkingHolds(t, more);
    HistoryOnlyGrows(t, more);
    var before, after := t.history, Run(t, more).history;
    if after[j].sub == before[i].sub && after[j].event.delivery == before[i].event.delivery { UniqueMark(Run(t, more), i, j); }
  }

  lemma InitialIsMarking(s: World)
    requires Initial(s)
    ensures Marking(s)
  {
  }

  lemma UniqueMark(s: World, i: nat, j: nat)
    requires Marking(s) && i < |s.history| && j < |s.history| && s.history[i].event.delivery.Some?
    requires s.history[i].sub == s.history[j].sub && s.history[i].event.delivery == s.history[j].event.delivery
    ensures i == j
  {
    hide JobHoldsRow;
  }

  /** An `aplicar` that finds its marker writes nothing at all. */
  lemma MarkedApplyChangesNothing(s: World, w: nat, now: Instant)
    requires JobOf(s, w).InApply? && Marked(s.history, JobOf(s, w).sub, JobOf(s, w).id)
    ensures var t := Do(s, ComputeEffect(w, now));
            t.rows == s.rows && t.history == s.history && t.plans == s.plans && JobOf(t, w).Idle?
            && Free(t, JobOf(s, w).sub)
  {
  }

  /** Others' steps never move the job of `w`, nor what it holds under its lock. */
  lemma {:induction false} OthersWait(s: World, w: nat, between: seq<Step>)
    requires Marking(s)
    requires forall i :: 0 <= i < |between| ==> HasActor(between[i]) ==> between[i].w != w
    ensures Marking(Run(s, between)) && JobOf(Run(s, between), w) == JobOf(s, w)
    decreases |between|
  {
    hide Do, Marking, Local;
    if between != [] {
      StepKeepsMarking(s, between[0]);
      OtherStepKeepsJob(s, w, between[0]);
      OthersWait(Do(s, between[0]), w, between[1..]);
    }
  }

  lemma OtherStepKeepsJob(s: World, w: nat, step: Step)
    requires Marking(s) && (HasActor(step) ==> step.w != w)
    ensures JobOf(Do(s, step), w) == JobOf(s, w)
  {
    if HasActor(step) {
      hide Do, JobHoldsRow;
      assert JobHoldsRow(s, step.w);
      StepIsLocal(s, step);
    }
  }

  /**
   The patch is the patch of the row it replaces: between computing it under the lock and
   publishing it, whatever the other workers do, the row does not move and the mark stays new.
   */
  lemma LockedApplyIsAtomic(s: World, w: nat, now: Instant, between: seq<Step>)
    requires Marking(s) && JobOf(s, w).InApply? && JobOf(s, w).sub in s.rows
    requires !Marked(s.history, JobOf(s, w).sub, JobOf(s, w).id)
    requires forall i :: 0 <= i < |between| ==> HasActor(between[i]) ==> between[i].w != w
    ensures var job := JobOf(s, w);
            var t := Run(Do(s, ComputeEffect(w, now)), between);
            var done := Do(t, Commit(w));
            && job.sub in t.rows && t.rows[job.sub] == s.rows[job.sub]
            && done.rows == t.rows[job.sub := ApplyEffect(s.rows[job.sub], job.effect, now)]
            && done.history == t.history + [Entry(job.sub, TraceOf(s.rows[job.sub], job.effect, job.id), None)]
            && !Marked(t.history, job.sub, job.id)
  {
    hide Run, Marked, Do, JobHoldsRow, ApplyEffect, TraceOf;
    var job := JobOf(s, w);
    var computed := Do(s, ComputeEffect(w, now));
    StepKeepsMarking(s, ComputeEffect(w, now));
    ComputeEffectWrites(s, w, now);
    OthersWait(computed, w, between);
    var t := Run(computed, between);
    assert JobHoldsRow(t, w);
    CommitPublishes(t, w, job.id);
  }

  lemma ComputeEffectWrites(s: World, w: nat, now: Instant)
    requires JobOf(s, w).InApply? && JobOf(s, w).sub in s.rows && !Marked(s.history, JobOf(s, w).sub, JobOf(s, w).id)
    ensures var job := JobOf(s, w);
            var r := s.rows[job.sub];
            JobOf(Do(s, ComputeEffect(w, now)), w)
            == Writing(job.sub, r, ApplyEffect(r, job.effect, now), Some(TraceOf(r, job.effect, job.id)))
    ensures JobOf(Do(s, ComputeEffect(w, now)), w).trace.value.delivery == Some(JobOf(s, w).id)
  {
    hide ApplyEffect, Marked;
  }

  lemma CommitPublishes(t: World, w: nat, id: DeliveryId)
    requires JobHoldsRow(t, w) && JobOf(t, w).Writing? && JobOf(t, w).trace.Some?
    requires JobOf(t, w).trace.value.delivery == Some(id)
    ensures var job := JobOf(t, w);
            && job.sub in t.rows && t.rows[job.sub] == job.base && !Marked(t.history, job.sub, id)
            && Do(t, Commit(w)).rows == t.rows[job.sub := job.row]
            && Do(t, Commit(w)).history == t.history + [Entry(job.sub, job.trace.value, None)]
  {
    hide Marked;
  }
}
