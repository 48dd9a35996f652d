/** What a closing pass does to the plan store when its close misses, and what nobody repairs. */
module RepairTheorems {
  import opened Basics
  import opened Subscriptions
  import opened ConfioWebhook
  import opened RowMoves
  import opened Interleaving
  import opened InterleavingTheorems
  import opened ClosingTheorems

  predicate OfOthers(steps: seq<Step>, w: nat) {
    forall i :: 0 <= i < |steps| ==> HasActor(steps[i]) ==> steps[i].w != w
  }

  // ---------------------------------------------------------------- the repair

  lemma CompareAndSetDecides(s: World, w: nat)
    requires JobOf(s, w).Degraded? && Free(s, JobOf(s, w).sub)
    ensures var job := JobOf(s, w);
            var done := JobOf(Do(s, CompareAndSet(w)), w);
            if job.sub in s.rows && StillDue(job.pass, job.copy, s.rows[job.sub]) then done.Closing?
            else done == (if job.pass.Lapsed? then Missed(job.sub, job.copy, job.pass.at) else Idle)
  {
    hide StillDue, CloseBy, ClosingEvent;
  }

  lemma NothingToReread(s: World, w: nat)
    requires !JobOf(s, w).Missed?
    ensures Do(s, Reread(w)) == s
  {
  }

  /**
   Whatever lands before the compare-and-set and before the row is read again, a pass repairs
   exactly one kind of miss: of a lapsed cancellation whose row is then entitled. The passes of
   arrears and of unpaid trials, which degrade before they compare just the same, never do.
   */
  lemma RepairsExactlyEntitled(s: World, steps: seq<Step>, w: nat, between: seq<Step>)
    requires Initial(s) && OfOthers(between, w)
    requires JobOf(Run(s, steps), w).Degraded? && Free(Run(s, steps), JobOf(Run(s, steps), w).sub)
    ensures var t := Run(s, steps);
            var job := JobOf(t, w);
            var read := Run(Do(t, CompareAndSet(w)), between);
            JobOf(Do(read, Reread(w)), w).Repairing? <==>
              && job.pass.Lapsed? && MovesPlan(job.copy)
              && !(job.sub in t.rows && StillDue(job.pass, job.copy, t.rows[job.sub]))
              && job.sub in read.rows && Entitled(read.rows[job.sub], job.pass.at)
  {
    hide Run, Do, Marking, StillDue, Entitled, MovesPlan;
    var t := Run(s, steps);
    InitialIsMarking(s);
    MarkingHolds(s, steps);
    CompareAndSetDecides(t, w);
    StepKeepsMarking(t, CompareAndSet(w));
    OthersWait(Do(t, CompareAndSet(w)), w, between);
    var read := Run(Do(t, CompareAndSet(w)), between);
    if JobOf(read, w).Missed? { RereadDecides(read, w); } else { NothingToReread(read, w); }
  }

  lemma RereadDecides(s: World, w: nat)
    requires JobOf(s, w).Missed?
    ensures var job, done := JobOf(s, w), Do(s, Reread(w));
            && done.plans == s.plans
            && JobOf(done, w) == (if MovesPlan(job.copy) && job.sub in s.rows && Entitled(s.rows[job.sub], job.at)
                                  then Repairing(s.rows[job.sub], job.at) else Idle)
  {
    hide MovesPlan, Entitled;
  }

  lemma RepairAssigns(s: World, w: nat, call: Call)
    ensures var job, done := JobOf(s, w), Do(s, Repair(w, call));
            done.plans == if job.Repairing? then Assign(s.plans, job.row.brandId, job.row.planSlug, job.row.currentPeriodEnd, call)
                          else s.plans
  {
  }

  /**
   An aborted close, whatever the others do before the row is read again and before the plan store
   is called: an entitled row ends with its own plan until its own period end, if the store
   accepts; on any other row the pass leaves the store as the others left it.
   */
  lemma AbortedCloseIsRepaired(s: World, steps: seq<Step>, w: nat, before: seq<Step>, between: seq<Step>, call: Call)
    requires Initial(s) && JobOf(Run(s, steps), w).Missed?
    requires OfOthers(before, w) && OfOthers(between, w)
    ensures var job := JobOf(Run(s, steps), w);
            var read := Run(Run(s, steps), before);
            var called := Run(Do(read, Reread(w)), between);
            var done := Do(called, Repair(w, call));
            if MovesPlan(job.copy) && job.sub in read.rows && Entitled(read.rows[job.sub], job.at) then
              var r := read.rows[job.sub];
              && done.plans == Assign(called.plans, r.brandId, r.planSlug, r.currentPeriodEnd, call)
              && (call.Accepted? ==>
                    (r.brandId, r.planSlug) in done.plans && done.plans[(r.brandId, r.planSlug)] == r.currentPeriodEnd)
            else done.plans == called.plans
  {
    hide Run, Do, Marking, MovesPlan, Entitled;
    InitialIsMarking(s);
    MarkingHolds(s, steps);
    var t := Run(s, steps);
    OthersWait(t, w, before);
    var read := Run(t, before);
    StepKeepsMarking(read, Reread(w));
    OthersWait(Do(read, Reread(w)), w, between);
    RereadDecides(read, w);
    RepairAssigns(Run(Do(read, Reread(w)), between), w, call);
  }

  predicate OfPass(step: Step) {
    step.Select? || step.WithdrawPaid? || step.GiveFree? || step.StopCharging? || step.CompareAndSet? || step.LogClosing?
    || step.Reread? || step.Repair?
  }

  /** No paid plan is there after the step that was not there before, until the same date. */
  predicate AddsNoPaidPlan(before: PlanStore, after: PlanStore) {
    forall k :: k in after && k.1 != FREE_PLAN ==> k in before && before[k] == after[k]
  }

  lemma WithdrawAddsNoPaidPlan(s: World, w: nat, call: Call)
    ensures AddsNoPaidPlan(s.plans, Do(s, WithdrawPaid(w, call)).plans)
  {
    hide MovesPlan;
  }

  lemma GiveFreeAddsNoPaidPlan(s: World, w: nat, call: Call)
    ensures AddsNoPaidPlan(s.plans, Do(s, GiveFree(w, call)).plans)
  {
  }

  lemma ClosingMovesNoPlan(s: World, w: nat)
    ensures DoCompareAndSet(s, w).plans == s.plans && DoLogClosing(s, w).plans == s.plans && DoStopCharging(s, w).plans == s.plans
  {
    hide StillDue, CloseBy, ClosingEvent;
  }

  lemma OtherPassStepsMoveNoPlan(s: World, step: Step)
    requires OfPass(step) && !step.Repair? && !step.WithdrawPaid? && !step.GiveFree?
    ensures Do(s, step).plans == s.plans
  {
    hide DoCompareAndSet, DoLogClosing, DoStopCharging, Due, MovesPlan, Entitled;
    if step.CompareAndSet? || step.LogClosing? || step.StopCharging? { ClosingMovesNoPlan(s, step.w); }
  }

  lemma OnlyRepairAddsPaidPlan(s: World, step: Step)
    requires OfPass(step) && !step.Repair?
    ensures AddsNoPaidPlan(s.plans, Do(s, step).plans)
  {
    hide Do;
    match step {
      case WithdrawPaid(w, call) => WithdrawAddsNoPaidPlan(s, w, call);
      case GiveFree(w, call) => GiveFreeAddsNoPaidPlan(s, w, call);
      case _ => OtherPassStepsMoveNoPlan(s, step);
    }
  }

  /**
   In any interleaving, the only paid plan a closing pass ever puts in the store is that of a row
   it has just read as entitled, until that row's period end.
   */
  lemma PassAssignsOnlyEntitledPlans(s: World, steps: seq<Step>, step: Step, brand: string, plan: string)
    requires Initial(s) && OfPass(step) && plan != FREE_PLAN
    requires var t, done := Run(s, steps), Do(Run(s, steps), step);
             (brand, plan) in done.plans && ((brand, plan) !in t.plans || t.plans[(brand, plan)] != done.plans[(brand, plan)])
    ensures var t, done := Run(s, steps), Do(Run(s, steps), step);
            && step.Repair? && JobOf(t, step.w).Repairing?
            && var r := JobOf(t, step.w).row;
               && Entitled(r, JobOf(t, step.w).at) && r.brandId == brand && r.planSlug == plan
               && done.plans[(brand, plan)] == r.currentPeriodEnd
  {
    hide Run, Do, Entitled;
    SanityHolds(s, steps);
    var t := Run(s, steps);
    assert JobSane(JobOf(t, step.w));
    if step.Repair? { RepairAssigns(t, step.w, step.call); } else { OnlyRepairAddsPaidPlan(t, step); }
  }
}
