/** What the passes that close rows keep when they overlap each other and everyone else. */
module ClosingTheorems {
  import opened Basics
  import opened Subscriptions
  import opened ConfioWebhook
  import opened RowMoves
  import opened Interleaving
  import opened InterleavingTheorems

  // ---------------------------------------------------------------- what a job may be carrying

  /** The event tells of a row that was open and is now closed. */
  predicate Closes(e: Event) {
    e.to.Some? && IsTerminal(e.to.value) && (e.from.None? || !IsTerminal(e.from.value))
  }

  predicate ReportsOpenRow(pass: Pass, copy: Row) { pass.Lapsed? ==> IsLive(copy.status) }

  predicate JobSane(job: Job) {
    match job
    case Selected(pass, _, copy) => ReportsOpenRow(pass, copy)
    case Withdrawn(pass, _, copy) => ReportsOpenRow(pass, copy)
    case Degraded(pass, _, copy) => ReportsOpenRow(pass, copy)
    case Repairing(r, at) => Entitled(r, at)
    case Logging(_, event) => !Closes(event)
    case Writing(_, _, _, trace) => trace.Some? && Closes(trace.value) ==> trace.value.delivery.Some?
    case _ => true
  }

  /** Only worker `w` changes its job, to a sane one. */
  ghost predicate SaneChange(s: World, t: World, w: nat) {
    (forall v :: v != w ==> JobOf(t, v) == JobOf(s, v)) && (JobOf(t, w) == JobOf(s, w) || JobSane(JobOf(t, w)))
  }

  lemma SelectStaysSane(s: World, w: nat, sub: string, pass: Pass, now: Instant)
    ensures SaneChange(s, DoSelect(s, w, sub, pass, now), w)
  {
  }

  lemma WithdrawStaysSane(s: World, w: nat, call: Call)
    requires JobSane(JobOf(s, w))
    ensures SaneChange(s, DoWithdraw(s, w, call), w)
  {
    hide MovesPlan, IsLive, Remove;
  }

  lemma GiveFreeStaysSane(s: World, w: nat, call: Call)
    requires JobSane(JobOf(s, w))
    ensures SaneChange(s, DoGiveFree(s, w, call), w)
  {
    hide IsLive, Assign;
  }

  lemma RereadStaysSane(s: World, w: nat)
    ensures SaneChange(s, DoReread(s, w), w)
  {
    hide MovesPlan, Entitled;
  }

  lemma CompareAndSetStaysSane(s: World, w: nat)
    ensures SaneChange(s, DoCompareAndSet(s, w), w)
  {
    hide StillDue, CloseBy, ClosingEvent;
  }

  lemma SavedEventOpens(copy: Row, move: StaleMove)
    requires move.Reinstate? ==> MayReactivate(copy)
    ensures !Closes(SavedEvent(copy, move))
  {
  }

  lemma SaveStaysSane(s: World, w: nat, move: StaleMove, now: Instant)
    ensures SaneChange(s, DoSave(s, w, move, now), w)
  {
    hide SavedRow, SavedEvent, MayReactivate;
    match JobOf(s, w) {
      case Holding(_, copy) => if !move.Reinstate? || MayReactivate(copy) { SavedEventOpens(copy, move); }
      case _ =>
    }
  }

  lemma FalterStaysSane(s: World, w: nat, move: Option<StaleMove>, landed: bool, now: Instant)
    ensures SaneChange(s, DoFalter(s, w, move, landed, now), w)
    ensures SaneChange(s, DoRecover(s, w), w)
  {
    hide SavedRow, ChargedRow;
  }

  lemma ComputeStaysSane(s: World, w: nat, move: OwnMove, now: Instant)
    ensures SaneChange(s, DoComputeEffect(s, w, now), w)
    ensures SaneChange(s, DoComputeOwn(s, w, move, now), w)
  {
    hide ApplyEffect, CancelRow, StartRow, Marked, Traced;
  }

  lemma TransactionStaysSane(s: World, w: nat, sub: string)
    ensures SaneChange(s, DoBegin(s, w), w)
    ensures SaneChange(s, DoBeginOwn(s, w, sub), w)
    ensures SaneChange(s, DoCommit(s, w), w)
    ensures SaneChange(s, DoAbort(s, w), w)
  {
  }

  lemma EndingsStaySane(s: World, w: nat, call: Call)
    ensures SaneChange(s, DoLog(s, w), w)
    ensures SaneChange(s, DoLogClosing(s, w), w)
    ensures SaneChange(s, DoStopCharging(s, w), w)
    ensures SaneChange(s, DoRepair(s, w, call), w)
  {
    hide Assign;
  }

  lemma PushStaysSane(s: World, w: nat, first: Call, second: Call)
    ensures SaneChange(s, DoPush(s, w, first, second), w)
  {
    hide Push;
  }

  lemma PlanStaysSane(s: World, step: Step)
    requires step.PlanMessage? || step.PlanQuestion?
    ensures SaneChange(s, DoPlan(s, step), step.w)
  {
    hide Plan, Ask, Marked;
  }

  lemma ReadStaysSane(s: World, w: nat, sub: string)
    ensures SaneChange(s, Do(s, Read(w, sub)), w)
  {
  }

  ghost predicate Sane(s: World) { forall w :: JobSane(JobOf(s, w)) }

  lemma StepStaysSane(s: World, step: Step)
    requires Sane(s)
    ensures Sane(Do(s, step))
  {
    hide JobSane;
    if HasActor(step) {
      assert JobSane(JobOf(s, step.w));
      ActorStepIsSane(s, step);
      forall v ensures JobSane(JobOf(Do(s, step), v)) { assert JobSane(JobOf(s, v)); }
    } else {
      forall v ensures JobSane(JobOf(Do(s, step), v)) { assert JobSane(JobOf(s, v)); }
    }
  }

  lemma ActorStepIsSane(s: World, step: Step)
    requires HasActor(step) && JobSane(JobOf(s, step.w))
    ensures SaneChange(s, Do(s, step), step.w)
  {
    hide SaneChange, JobSane, DoPlan, DoPush, DoBegin, DoBeginOwn, DoSelect, DoWithdraw, DoGiveFree, DoLogClosing, DoReread;
    hide DoRepair, DoSave, DoCompareAndSet, DoStopCharging, DoComputeEffect, DoComputeOwn, DoCommit, DoAbort, DoLog, DoFalter, DoRecover;
    match step {
      case Read(w, sub) => ReadStaysSane(s, w, sub);
      case PlanMessage(_, _, _, _, _) => PlanStaysSane(s, step);
      case PlanQuestion(_, _, _) => PlanStaysSane(s, step);
      case PushPlans(w, first, second) => PushStaysSane(s, w, first, second);
      case Begin(w) => TransactionStaysSane(s, w, "");
      case ComputeEffect(w, now) => ComputeStaysSane(s, w, Seal("", None), now);
      case BeginOwn(w, sub) => TransactionStaysSane(s, w, sub);
      case ComputeOwn(w, move, now) => ComputeStaysSane(s, w, move, now);
      case Commit(w) => TransactionStaysSane(s, w, "");
      case Abort(w) => TransactionStaysSane(s, w, "");
      case Save(w, move, now) => SaveStaysSane(s, w, move, now);
      case Falter(w, move, landed, now) => FalterStaysSane(s, w, move, landed, now);
      case Recover(w) => FalterStaysSane(s, w, None, false, 0);
      case Log(w) => EndingsStaySane(s, w, Refused);
      case Select(w, sub, pass, now) => SelectStaysSane(s, w, sub, pass, now);
      case WithdrawPaid(w, call) => WithdrawStaysSane(s, w, call);
      case GiveFree(w, call) => GiveFreeStaysSane(s, w, call);
      case StopCharging(w) => EndingsStaySane(s, w, Refused);
      case CompareAndSet(w) => CompareAndSetStaysSane(s, w);
      case LogClosing(w) => EndingsStaySane(s, w, Refused);
      case Reread(w) => RereadStaysSane(s, w);
      case Repair(w, call) => EndingsStaySane(s, w, call);
    }
  }

  lemma {:induction false} SanityHolds(s: World, steps: seq<Step>)
    requires Sane(s)
    ensures Sane(Run(s, steps))
    decreases |steps|
  {
    hide Do, Sane;
    if steps != [] {
      StepStaysSane(s, steps[0]);
      SanityHolds(Do(s, steps[0]), steps[1..]);
    }
  }

  // ---------------------------------------------------------------- the compare-and-set

  /**
   Whatever landed since the row was read and its brand degraded, the pass closes the row exactly
   when it is still the cancellation that was read: not renewing, not moved to another status,
   and due strictly before the pass. Otherwise no row changes and the pass goes to repair. That is
   what the query of the pass would find again in the same status; and besides it, a row in arrears
   whose retries ran out meanwhile, which by then is due in the other pass.
   */
  lemma ClosesExactlyWhatLapsed(s: World, steps: seq<Step>, w: nat)
    requires Initial(s)
    requires var t := Run(s, steps);
             var job := JobOf(t, w);
             job.Degraded? && job.pass.Lapsed? && Free(t, job.sub) && job.sub in t.rows
    ensures var t := Run(s, steps);
            var job := JobOf(t, w);
            var r, at := t.rows[job.sub], job.pass.at;
            var done := Do(t, CompareAndSet(w));
            var lapsed := !r.autoRenew && r.accessEndsAt.Some? && r.accessEndsAt.value < at && r.status == job.copy.status;
            && (done.closings != t.closings <==> lapsed)
            && (lapsed ==> IsLive(r.status) && done.rows == t.rows[job.sub := ClosedRow(r)])
            && (!lapsed ==> done.rows == t.rows && JobOf(done, w) == Missed(job.sub, job.copy, at))
            && (r.status == job.copy.status && DueClosing(r, at, t.maxRetry) <==> lapsed && !DueExpiry(r, t.maxRetry))
  {
    hide Run, ClosedRow;
    SanityHolds(s, steps);
    var t := Run(s, steps);
    assert JobSane(JobOf(t, w));
    assert |(t.closings + [JobOf(t, w).sub])| == |t.closings| + 1;
  }

  lemma CompareAndSetClosesOpen(s: World, w: nat)
    requires JobSane(JobOf(s, w)) && Do(s, CompareAndSet(w)).closings != s.closings
    ensures var sub, done := JobOf(s, w).sub, Do(s, CompareAndSet(w));
            && (JobOf(s, w).Degraded? && done.closings == s.closings + [sub])
            && sub in s.rows && !IsTerminal(s.rows[sub].status) && IsTerminal(done.rows[sub].status)
  {
    hide RowOk;
  }

  /** A closing is always of a row that was open, and closes it. */
  lemma ClosingsAreReal(s: World, steps: seq<Step>, step: Step)
    requires Initial(s)
    requires |Do(Run(s, steps), step).closings| > |Run(s, steps).closings|
    ensures var t, done := Run(s, steps), Do(Run(s, steps), step);
            && step.CompareAndSet? && done.closings == t.closings + [JobOf(t, step.w).sub]
            && JobOf(t, step.w).sub in t.rows && !IsTerminal(t.rows[JobOf(t, step.w).sub].status)
            && IsTerminal(done.rows[JobOf(t, step.w).sub].status)
  {
    hide Run, Do, IsTerminal;
    SanityHolds(s, steps);
    var t := Run(s, steps);
    if step.CompareAndSet? {
      assert JobSane(JobOf(t, step.w));
      CompareAndSetClosesOpen(t, step.w);
    } else {
      OnlyCompareAndSetCloses(t, step);
    }
  }

  lemma WritesCloseNothing(s: World, step: Step)
    requires step.Begin? || step.ComputeEffect? || step.BeginOwn? || step.ComputeOwn? || step.Commit? || step.Abort?
             || step.Save? || step.Log?
    ensures Do(s, step).closings == s.closings
  {
    hide ApplyEffect, CancelRow, StartRow, SavedRow, SavedEvent, Marked, Traced, MayReactivate, TraceOf;
  }

  lemma FalteringClosesNothing(s: World, step: Step)
    requires step.Falter? || step.Recover?
    ensures Do(s, step).closings == s.closings
  {
    hide SavedRow, ChargedRow;
  }

  lemma OnlyCompareAndSetCloses(s: World, step: Step)
    requires !step.CompareAndSet?
    ensures Do(s, step).closings == s.closings
  {
    if PlansOrReads(step) {
      hide Do, RowsOk, Unburdened, JobRowsOk;
      PlansOrReadsMovesJob(s, step);
    } else if step.StopCharging? || step.LogClosing? || !HasActor(step) {
      hide RowOk;
    } else if step.Falter? || step.Recover? {
      FalteringClosesNothing(s, step);
    } else {
      hide Do;
      WritesCloseNothing(s, step);
    }
  }

  // ---------------------------------------------------------------- one event per closing

  /** What worker `w` may do to closings, history and its own closing number. */
  ghost predicate NumbersFairly(s: World, t: World, w: nat) {
    && (forall v :: v != w ==> JobOf(t, v) == JobOf(s, v))
    && |s.closings| <= |t.closings| && t.closings[..|s.closings|] == s.closings
    && Appends(s.history, t.history)
    && (|s.history| < |t.history| ==> EntryFairly(JobOf(s, w), JobOf(t, w), t.history[|s.history|]))
    && (JobOf(t, w).Closing? ==>
          t.history == s.history
          && (JobOf(t, w) == JobOf(s, w)
              || (JobOf(t, w).number == |s.closings| && |t.closings| == |s.closings| + 1
                  && t.closings[|s.closings|] == JobOf(t, w).sub)))
  }

  /** A numbered entry is the one its worker was about to log; an unnumbered one does not close by itself. */
  predicate EntryFairly(before: Job, after: Job, e: Entry) {
    if e.closing.Some? then before == Closing(e.sub, e.event, e.closing.value) && after.Idle?
    else Closes(e.event) ==> e.event.delivery.Some?
  }

  lemma JobOnlyIsFair(s: World, t: World, w: nat)
    requires t == s || (JobOnly(s, t, w) && Unburdened(JobOf(t, w)))
    ensures NumbersFairly(s, t, w)
  {
  }

  lemma CompareAndSetIsFair(s: World, w: nat)
    ensures NumbersFairly(s, DoCompareAndSet(s, w), w)
  {
    hide StillDue, CloseBy, ClosingEvent;
  }

  lemma LogIsFair(s: World, w: nat)
    requires JobSane(JobOf(s, w))
    ensures NumbersFairly(s, DoLog(s, w), w)
    ensures NumbersFairly(s, DoLogClosing(s, w), w)
  {
    hide Closes;
  }

  lemma CommitIsFair(s: World, w: nat)
    requires JobSane(JobOf(s, w))
    ensures NumbersFairly(s, DoCommit(s, w), w)
  {
    hide Closes;
  }

  lemma BeginIsFair(s: World, w: nat, sub: string)
    ensures NumbersFairly(s, DoBegin(s, w), w)
    ensures NumbersFairly(s, DoBeginOwn(s, w, sub), w)
  {
  }

  lemma AbortIsFair(s: World, w: nat)
    ensures NumbersFairly(s, DoAbort(s, w), w)
    ensures NumbersFairly(s, DoStopCharging(s, w), w)
  {
  }

  lemma ComputeIsFair(s: World, w: nat, now: Instant)
    ensures NumbersFairly(s, DoComputeEffect(s, w, now), w)
  {
    hide ApplyEffect, TraceOf, Marked;
  }

  lemma ComputeOwnIsFair(s: World, w: nat, move: OwnMove, now: Instant)
    ensures NumbersFairly(s, DoComputeOwn(s, w, move, now), w)
  {
    hide CancelRow, StartRow, Traced;
  }

  lemma SaveIsFair(s: World, w: nat, move: StaleMove, now: Instant)
    ensures NumbersFairly(s, DoSave(s, w, move, now), w)
  {
    hide SavedRow, SavedEvent, MayReactivate;
  }

  lemma FalterIsFair(s: World, w: nat, move: Option<StaleMove>, landed: bool, now: Instant)
    ensures NumbersFairly(s, DoFalter(s, w, move, landed, now), w)
    ensures NumbersFairly(s, DoRecover(s, w), w)
  {
    hide SavedRow, ChargedRow;
  }

  lemma PlansOrReadsIsFair(s: World, step: Step)
    requires PlansOrReads(step)
    ensures NumbersFairly(s, Do(s, step), step.w)
  {
    hide Do, RowsOk, NumbersFairly, JobOnly, Unburdened, JobRowsOk;
    PlansOrReadsMovesJob(s, step);
    JobOnlyIsFair(s, Do(s, step), step.w);
  }

  lemma StepIsFair(s: World, step: Step)
    requires HasActor(step) && JobSane(JobOf(s, step.w))
    ensures NumbersFairly(s, Do(s, step), step.w)
  {
    hide NumbersFairly, JobSane, DoPlan, DoPush, DoBegin, DoBeginOwn, DoSelect, DoWithdraw, DoGiveFree, DoLogClosing, DoReread;
    hide DoRepair, DoSave, DoCompareAndSet, DoStopCharging, DoComputeEffect, DoComputeOwn, DoCommit, DoAbort, DoLog, DoFalter, DoRecover;
    match step {
      case Begin(w) => BeginIsFair(s, w, "");
      case BeginOwn(w, sub) => BeginIsFair(s, w, sub);
      case Abort(w) => AbortIsFair(s, w);
      case StopCharging(w) => AbortIsFair(s, w);
      case ComputeEffect(w, now) => ComputeIsFair(s, w, now);
      case ComputeOwn(w, move, now) => ComputeOwnIsFair(s, w, move, now);
      case Commit(w) => CommitIsFair(s, w);
      case Save(w, move, now) => SaveIsFair(s, w, move, now);
      case Falter(w, move, landed, now) => FalterIsFair(s, w, move, landed, now);
      case Recover(w) => FalterIsFair(s, w, None, false, 0);
      case Log(w) => LogIsFair(s, w);
      case LogClosing(w) => LogIsFair(s, w);
      case CompareAndSet(w) => CompareAndSetIsFair(s, w);
      case _ => PlansOrReadsIsFair(s, step);
    }
  }

  predicate Numbered(history: seq<Entry>, number: nat) {
    exists e :: e in history && e.closing == Some(number)
  }

  /** Every entry that closes a row carries the provider's mark or the number of a closing of that row. */
  predicate EntryAccounted(closings: seq<string>, e: Entry) {
    && (Closes(e.event) ==> e.event.delivery.Some? || e.closing.Some?)
    && (e.closing.Some? ==> e.closing.value < |closings| && closings[e.closing.value] == e.sub)
  }

  predicate NumbersUnique(history: seq<Entry>) {
    forall i, j :: 0 <= i < j < |history| && history[i].closing.Some? ==> history[i].closing != history[j].closing
  }

  /** A closing still to be logged owns its number. */
  ghost predicate OwnsNumber(s: World, w: nat) {
    JobOf(s, w).Closing? ==>
      var job := JobOf(s, w);
      && job.number < |s.closings| && s.closings[job.number] == job.sub
      && !Numbered(s.history, job.number)
      && forall v :: v != w && JobOf(s, v).Closing? ==> JobOf(s, v).number != job.number
  }

  ghost predicate Accounted(s: World) {
    && NumbersUnique(s.history)
    && (forall e :: e in s.history ==> EntryAccounted(s.closings, e))
    && (forall w :: OwnsNumber(s, w))
  }

  lemma FairStepKeepsEntries(s: World, t: World, w: nat)
    requires Accounted(s) && NumbersFairly(s, t, w)
    ensures NumbersUnique(t.history)
    ensures forall e :: e in t.history ==> EntryAccounted(t.closings, e)
  {
    hide Closes;
    var n := |s.history|;
    assert OwnsNumber(s, w);
    forall e | e in t.history ensures EntryAccounted(t.closings, e) {
      var i :| 0 <= i < |t.history| && t.history[i] == e;
      if i < n {
        assert e == t.history[..n][i] && e in s.history;
        assert EntryAccounted(s.closings, e);
        if e.closing.Some? { assert t.closings[..|s.closings|][e.closing.value] == s.closings[e.closing.value]; }
      } else if e.closing.Some? {
        assert t.closings[..|s.closings|][e.closing.value] == s.closings[e.closing.value];
      }
    }
    forall i, j | 0 <= i < j < |t.history| && t.history[i].closing.Some?
      ensures t.history[i].closing != t.history[j].closing
    {
      assert t.history[i] == t.history[..n][i] == s.history[i];
      if j < n {
        assert t.history[j] == t.history[..n][j] == s.history[j];
      } else {
        assert s.history[i] in s.history;
      }
    }
  }

  lemma FairStepKeepsNumber(s: World, t: World, w: nat, v: nat)
    requires Accounted(s) && NumbersFairly(s, t, w) && JobOf(t, v).Closing?
    ensures var job := JobOf(t, v);
            && job.number < |t.closings| && t.closings[job.number] == job.sub
            && !Numbered(t.history, job.number)
  {
    assert OwnsNumber(s, v) && OwnsNumber(s, w);
    var job := JobOf(t, v);
    if JobOf(s, v) == job {
      assert t.closings[..|s.closings|][job.number] == s.closings[job.number];
    }
    forall e | e in t.history ensures e.closing != Some(job.number) {
      var i :| 0 <= i < |t.history| && t.history[i] == e;
      if i < |s.history| {
        assert e == t.history[..|s.history|][i] && e in s.history;
        assert EntryAccounted(s.closings, e);
      }
    }
  }

  lemma FairStepKeepsApart(s: World, t: World, w: nat, v: nat, u: nat)
    requires Accounted(s) && NumbersFairly(s, t, w) && JobOf(t, v).Closing? && JobOf(t, u).Closing? && u != v
    ensures JobOf(t, v).number != JobOf(t, u).number
  {
    assert OwnsNumber(s, v) && OwnsNumber(s, u);
  }

  lemma StepKeepsAccounts(s: World, step: Step)
    requires Sane(s) && Accounted(s)
    ensures Accounted(Do(s, step))
  {
    hide Do, NumbersFairly, JobSane, NumbersUnique, EntryAccounted;
    var t := Do(s, step);
    if HasActor(step) {
      assert JobSane(JobOf(s, step.w));
      StepIsFair(s, step);
      FairStepKeepsEntries(s, t, step.w);
      forall v ensures OwnsNumber(t, v) {
        if JobOf(t, v).Closing? {
          FairStepKeepsNumber(s, t, step.w, v);
          forall u | u != v && JobOf(t, u).Closing? ensures JobOf(t, u).number != JobOf(t, v).number {
            FairStepKeepsApart(s, t, step.w, v, u);
          }
        }
      }
    } else {
      EnvironmentKeepsAccounts(s, step);
    }
  }

  lemma EnvironmentKeepsAccounts(s: World, step: Step)
    requires Accounted(s) && !HasActor(step)
    ensures Accounted(Do(s, step))
  {
    hide NumbersUnique, EntryAccounted, Numbered;
    var t := Do(s, step);
    assert t.jobs == s.jobs && t.closings == s.closings && t.history == s.history;
    forall v ensures OwnsNumber(t, v) {
      assert OwnsNumber(s, v);
      forall u | u != v && JobOf(t, v).Closing? && JobOf(t, u).Closing? ensures JobOf(t, u).number != JobOf(t, v).number {
        assert JobOf(s, u) == JobOf(t, u);
      }
    }
  }

  lemma {:induction false} AccountsHold(s: World, steps: seq<Step>)
    requires Sane(s) && Accounted(s)
    ensures Accounted(Run(s, steps))
    decreases |steps|
  {
    hide Do, Sane, Accounted;
    if steps != [] {
      StepStaysSane(s, steps[0]);
      StepKeepsAccounts(s, steps[0]);
      AccountsHold(Do(s, steps[0]), steps[1..]);
    }
  }

  /**
   Overlapping passes of all three kinds, crashing anywhere: every entry that closes a row without
   a provider's mark carries a number, no two carry the same, and the number is a closing of that
   very row. So no closing is ever told twice.
   */
  lemma OneEventPerClosing(s: World, steps: seq<Step>)
    requires Initial(s)
    ensures var t := Run(s, steps);
            && NumbersUnique(t.history)
            && forall e :: e in t.history && Closes(e.event) && e.event.delivery.None? ==>
                 e.closing.Some? && e.closing.value < |t.closings| && t.closings[e.closing.value] == e.sub
  {
    hide Run, Closes;
    AccountsHold(s, steps);
    forall e | e in Run(s, steps).history && Closes(e.event) && e.event.delivery.None?
      ensures e.closing.Some? && e.closing.value < |Run(s, steps).closings| && Run(s, steps).closings[e.closing.value] == e.sub
    {
      assert EntryAccounted(Run(s, steps).closings, e);
    }
  }
}
