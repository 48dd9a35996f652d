/**
 A mass scoring run that may die anywhere and be executed again (`src/credit/credit-run.service.ts`).

 The list of brands is stable and without repeats, and an execution reads what earlier ones wrote.
 A failed save of a run's counters is a crash; an execution that crashes is simply run again.
 */
module CreditRuns {
  import opened Basics

  datatype ScoreStatus = Scored | VetoedRoas | InsufficientData | FxUnavailable

  datatype Snapshot = Snapshot(brand: string, status: ScoreStatus)

  /**
   What scoring one brand comes to. `Raced`: another executor's snapshot was already there and the
   unique index rejected ours. `SavedThenThrew`: the snapshot was written and its answer lost.
   */
  datatype Outcome =
    | NoInputs
    | Saved(status: ScoreStatus)
    | Raced(status: ScoreStatus)
    | Failed
    | SavedThenThrew(status: ScoreStatus)

  type Outcomes = string -> Outcome

  const PAGE_SIZE: nat := 100

  predicate Distinct(brands: seq<string>) { forall i, j :: 0 <= i < j < |brands| ==> brands[i] != brands[j] }

  /** At most one snapshot a brand: the unique index on (brand, run). */
  predicate OnePerBrand(snapshots: seq<Snapshot>) {
    forall i, j :: 0 <= i < j < |snapshots| ==> snapshots[i].brand != snapshots[j].brand
  }

  function BrandsOf(snapshots: seq<Snapshot>): set<string> { set i | 0 <= i < |snapshots| :: snapshots[i].brand }

  /** The brands of a list that are not done yet, in order. */
  function Fresh(brands: seq<string>, done: set<string>): seq<string> {
    if brands == [] then []
    else
      var rest, last := Fresh(brands[..|brands| - 1], done), brands[|brands| - 1];
      if last in done then rest else rest + [last]
  }

  predicate Writes(o: Outcome) { o.Saved? || o.Raced? || o.SavedThenThrew? }

  predicate Settles(o: Outcome) { o.Saved? || o.Raced? }

  /** The snapshots scoring these brands leaves behind. */
  function Written(brands: seq<string>, outcomes: Outcomes): seq<Snapshot> {
    if brands == [] then []
    else
      var rest, last := Written(brands[..|brands| - 1], outcomes), brands[|brands| - 1];
      if Writes(outcomes(last)) then rest + [Snapshot(last, outcomes(last).status)] else rest
  }

  function DoneAmong(brands: seq<string>, outcomes: Outcomes): set<string> { set b | b in brands && Settles(outcomes(b)) }

  function ErrorsAmong(brands: seq<string>, outcomes: Outcomes): nat {
    if brands == [] then 0
    else ErrorsAmong(brands[..|brands| - 1], outcomes) + (if Settles(outcomes(brands[|brands| - 1])) then 0 else 1)
  }

  function LostAmong(brands: seq<string>, outcomes: Outcomes): nat {
    if brands == [] then 0
    else LostAmong(brands[..|brands| - 1], outcomes) + (if outcomes(brands[|brands| - 1]).SavedThenThrew? then 1 else 0)
  }

  function CountOf(snapshots: seq<Snapshot>, status: ScoreStatus): nat {
    if snapshots == [] then 0
    else CountOf(snapshots[..|snapshots| - 1], status) + (if snapshots[|snapshots| - 1].status == status then 1 else 0)
  }

  lemma {:induction false} FreshAppends(a: seq<string>, b: seq<string>, done: set<string>)
    ensures Fresh(a + b, done) == Fresh(a, done) + Fresh(b, done)
  {
    if b == [] {
      assert a + b == a;
    } else {
      FreshAppends(a, b[..|b| - 1], done);
      assert (a + b)[..|a + b| - 1] == a + b[..|b| - 1];
    }
  }

  lemma {:induction false} OutcomesAppend(a: seq<string>, b: seq<string>, outcomes: Outcomes)
    ensures Written(a + b, outcomes) == Written(a, outcomes) + Written(b, outcomes)
    ensures ErrorsAmong(a + b, outcomes) == ErrorsAmong(a, outcomes) + ErrorsAmong(b, outcomes)
    ensures DoneAmong(a + b, outcomes) == DoneAmong(a, outcomes) + DoneAmong(b, outcomes)
  {
    if b == [] {
      assert a + b == a;
    } else {
      OutcomesAppend(a, b[..|b| - 1], outcomes);
      assert (a + b)[..|a + b| - 1] == a + b[..|b| - 1];
    }
  }

  lemma {:induction false} FreshIsAmong(brands: seq<string>, done: set<string>, brand: string)
    ensures brand in Fresh(brands, done) <==> brand in brands && brand !in done
  {
    if brands != [] {
      FreshIsAmong(brands[..|brands| - 1], done, brand);
      assert brands == brands[..|brands| - 1] + [brands[|brands| - 1]];
    }
  }

  /** A brand elsewhere being done changes nothing for these. */
  lemma {:induction false} FreshIgnoresOthers(brands: seq<string>, done: set<string>, others: set<string>)
    requires forall b :: b in brands ==> b !in others
    ensures Fresh(brands, done + others) == Fresh(brands, done)
  {
    if brands != [] { FreshIgnoresOthers(brands[..|brands| - 1], done, others); }
  }

  /** The pending brands of a page are the same whether the earlier pages are taken as done or not. */
  lemma PageIsFresh(brands: seq<string>, from: nat, to: nat, done: set<string>, outcomes: Outcomes)
    requires Distinct(brands) && from <= to <= |brands|
    ensures Fresh(brands[from..to], done + DoneAmong(Fresh(brands[..from], done), outcomes)) == Fresh(brands[from..to], done)
    ensures Fresh(brands[..to], done) == Fresh(brands[..from], done) + Fresh(brands[from..to], done)
  {
    assert brands[..to] == brands[..from] + brands[from..to];
    FreshAppends(brands[..from], brands[from..to], done);
    var others := DoneAmong(Fresh(brands[..from], done), outcomes);
    forall b | b in brands[from..to] ensures b !in others {
      FreshIsAmong(brands[..from], done, b);
    }
    FreshIgnoresOthers(brands[from..to], done, others);
  }

  lemma PrefixIsWritten(brands: seq<string>, n: nat, outcomes: Outcomes)
    requires n <= |brands|
    ensures Written(brands[..n], outcomes) <= Written(brands, outcomes)
  {
    assert brands == brands[..n] + brands[n..];
    OutcomesAppend(brands[..n], brands[n..], outcomes);
  }

  // ---------------------------------------------------------------- the run

  datatype RunStatus = Pending | Running | Completed | FailedRun

  class ScoreRun {
    var status: RunStatus
    var totalBrands: nat
    var processed: nat
    var eligible: nat
    var vetoed: nat
    var insufficient: nat
    var errors: nat
    var snapshots: seq<Snapshot>

    constructor ()
      ensures status.Pending? && snapshots == []
      ensures totalBrands == 0 && processed == 0 && eligible == 0 && vetoed == 0 && insufficient == 0 && errors == 0
    {
      status := Pending;
      totalBrands, processed, eligible, vetoed, insufficient, errors := 0, 0, 0, 0, 0, 0;
      snapshots := [];
    }

    /** What the counters say of the snapshots: all of them, by status. */
    predicate CountersHold()
      reads this
    {
      && processed == |snapshots| && processed == eligible + vetoed + insufficient
      && eligible == CountOf(snapshots, Scored) && vetoed == CountOf(snapshots, VetoedRoas)
    }

    /** The counters are derived from the snapshots; only `errors` comes from outside. */
    method ComputeAndSave(errors: nat, totalBrands: Option<nat>, status: Option<RunStatus>)
      modifies this
      ensures snapshots == old(snapshots) && this.errors == errors
      ensures this.totalBrands == totalBrands.UnwrapOr(old(this.totalBrands)) && this.status == status.UnwrapOr(old(this.status))
      ensures CountersHold()
    {
      var p, e, v, n := 0, 0, 0, 0;
      for i := 0 to |snapshots|
        invariant p == i && p == e + v + n
        invariant e == CountOf(snapshots[..i], Scored) && v == CountOf(snapshots[..i], VetoedRoas)
      {
        assert snapshots[..i + 1][..i] == snapshots[..i];
        p := p + 1;
        match snapshots[i].status {
          case Scored => e := e + 1;
          case VetoedRoas => v := v + 1;
          case InsufficientData => n := n + 1;
          case FxUnavailable => n := n + 1;
        }
      }
      assert snapshots[..|snapshots|] == snapshots;
      processed, eligible, vetoed, insufficient := p, e, v, n;
      this.errors := errors;
      if totalBrands.Some? { this.totalBrands := totalBrands.value; }
      if status.Some? { this.status := status.value; }
    }

    /** One page's brands, in order, as far as `fuel` lets the execution live. */
    method ScorePending(pending: seq<string>, outcomes: Outcomes, done: set<string>, errors: nat, fuel: nat)
      returns (scored: nat, nowDone: set<string>, nowErrors: nat, left: nat)
      modifies this`snapshots
      ensures scored == Min(fuel, |pending|) && left == fuel - scored
      ensures snapshots == old(snapshots) + Written(pending[..scored], outcomes)
      ensures nowDone == done + DoneAmong(pending[..scored], outcomes)
      ensures nowErrors == errors + ErrorsAmong(pending[..scored], outcomes)
    {
      nowDone, nowErrors, left := done, errors, fuel;
      scored := 0;
      while scored < |pending|
        invariant scored <= |pending| && left == fuel - scored
        invariant snapshots == old(snapshots) + Written(pending[..scored], outcomes)
        invariant nowDone == done + DoneAmong(pending[..scored], outcomes)
        invariant nowErrors == errors + ErrorsAmong(pending[..scored], outcomes)
      {
        if left == 0 { return; }
        left := left - 1;
        var brand := pending[scored];
        assert pending[..scored + 1][..scored] == pending[..scored];
        match outcomes(brand) {
          case NoInputs =>
            nowErrors := nowErrors + 1;
          case Saved(s) =>
            snapshots := snapshots + [Snapshot(brand, s)];
            nowDone := nowDone + {brand};
          case Raced(s) =>
            snapshots := snapshots + [Snapshot(brand, s)];
            nowDone := nowDone + {brand};
          case Failed =>
            nowErrors := nowErrors + 1;
          case SavedThenThrew(s) =>
            snapshots := snapshots + [Snapshot(brand, s)];
            nowErrors := nowErrors + 1;
        }
        scored := scored + 1;
      }
    }

    /** The counters as the save of page `p` left them: of the snapshots and errors of the pages so far. */
    ghost predicate StandsAtPage(before: seq<Snapshot>, brands: seq<string>, outcomes: Outcomes, p: nat)
      reads this`totalBrands, this`errors, this`processed, this`eligible, this`vetoed, this`insufficient
    {
      p > 0 ==>
        var due := Fresh(brands[..Min(p * PAGE_SIZE, |brands|)], BrandsOf(before));
        && totalBrands == |brands| && errors == ErrorsAmong(due, outcomes)
        && processed == |before + Written(due, outcomes)| && processed == eligible + vetoed + insufficient
    }

    /**
     The body of the worker. It may stop at any step, when `fuel` runs out: one unit for each brand
     it scores, for each save of the counters, and for the last save. It completes exactly when that
     is enough; otherwise all the fuel went into saved pages and into the first brands still missing. A
     run already completed is left alone, and one of an invalid period fails at once.
     */
    method ExecuteRun(brands: seq<string>, outcomes: Outcomes, periodIsValid: bool, fuel: nat) returns (completed: bool)
      requires Distinct(brands)
      modifies this
      ensures var missing := Fresh(brands, BrandsOf(old(snapshots)));
              && (completed <==> !old(status).Completed? && periodIsValid && fuel > |missing| + Pages(|brands|))
              && (completed ==>
                    && snapshots == old(snapshots) + Written(missing, outcomes)
                    && status.Completed? && totalBrands == |brands| && errors == ErrorsAmong(missing, outcomes)
                    && CountersHold())
              && (!completed && !old(status).Completed? && periodIsValid ==>
                    && status.Running?
                    && exists k: nat, p: nat ::
                         && k + p == fuel && k <= |missing| && p <= Pages(|brands|)
                         && snapshots == old(snapshots) + Written(missing[..k], outcomes)
                         && StandsAtPage(old(snapshots), brands, outcomes, p)
                         && (p == 0 ==> totalBrands == old(totalBrands) && processed == old(processed) && errors == old(errors)))
      ensures old(status).Completed? ==> unchanged(this)
      ensures !periodIsValid && !old(status).Completed? ==>
                status.FailedRun? && snapshots == old(snapshots) && errors == 0 && totalBrands == old(totalBrands) && CountersHold()
    {
      hide Fresh, Written, DoneAmong, ErrorsAmong, BrandsOf, CountOf, Distinct, Pages;
      completed := false;
      if status.Completed? { return; }
      if !periodIsValid {
        ComputeAndSave(0, None, Some(FailedRun));
        return;
      }
      status := Running;
      ghost var before := snapshots;
      var already := BrandsOf(snapshots);
      var done, page, total, errorCount, left := already, 1, 0, 0, fuel;
      var seen := 0;
      StartOfRun(brands, already, outcomes);
      while true
        invariant status.Running? && page >= 1 && seen == Min((page - 1) * PAGE_SIZE, |brands|)
        invariant snapshots == before + Written(Fresh(brands[..seen], already), outcomes)
        invariant done == already + DoneAmong(Fresh(brands[..seen], already), outcomes)
        invariant errorCount == ErrorsAmong(Fresh(brands[..seen], already), outcomes)
        invariant left == fuel - |Fresh(brands[..seen], already)| - (page - 1)
        invariant StandsAtPage(before, brands, outcomes, page - 1)
        invariant page == 1 ==> totalBrands == old(totalBrands) && processed == old(processed) && errors == old(errors)
        invariant page > 1 ==> (page - 1) * PAGE_SIZE < |brands|
        decreases |brands| + PAGE_SIZE - page * PAGE_SIZE
      {
        var until := Min(page * PAGE_SIZE, |brands|);
        total := |brands|;
        var pending := Fresh(brands[seen..until], done);
        PageIsFresh(brands, seen, until, already, outcomes);
        var scored;
        scored, done, errorCount, left := ScorePending(pending, outcomes, done, errorCount, left);
        PrefixOfRun(brands, seen, until, already, outcomes, scored);
        EnoughPages(|brands|, page);
        ghost var k := |Fresh(brands[..seen], already)| + scored;
        assert snapshots == before + Written(Fresh(brands, already)[..k], outcomes) && StandsAtPage(before, brands, outcomes, page - 1);
        if left == 0 { return; }
        left := left - 1;
        OutcomesAppend(Fresh(brands[..seen], already), pending, outcomes);
        assert pending[..scored] == pending;
        ComputeAndSave(errorCount, Some(total), None);
        seen := until;
        page := page + 1;
        if !((page - 1) * PAGE_SIZE < total) { break; }
      }
      assert brands[..seen] == brands;
      LastPage(|brands|, page - 1);
      ghost var missing := Fresh(brands, already);
      assert missing[..|missing|] == missing;
      assert snapshots == before + Written(missing[..|missing|], outcomes) && StandsAtPage(before, brands, outcomes, page - 1);
      if left == 0 { return; }
      ComputeAndSave(errorCount, Some(total), Some(Completed));
      completed := true;
    }
  }

  /** The pages a run asks for: one even of no brands. */
  function Pages(n: nat): nat { if n <= PAGE_SIZE then 1 else 1 + Pages(n - PAGE_SIZE) }

  /** A page for each hundred brands begun. */
  lemma {:induction false} PagesAre(n: nat)
    ensures Pages(n) == if n == 0 then 1 else (n + 99) / 100
  {
    if n > 100 { PagesAre(n - 100); }
  }

  lemma {:induction false} EnoughPages(n: nat, page: nat)
    requires page == 1 || (page > 1 && (page - 1) * PAGE_SIZE < n)
    ensures page <= Pages(n)
    decreases page
  {
    if page > 1 { EnoughPages(n - PAGE_SIZE, page - 1); }
  }

  lemma {:induction false} LastPage(n: nat, page: nat)
    requires page >= 1 && page * PAGE_SIZE >= n && (page == 1 || (page - 1) * PAGE_SIZE < n)
    ensures page == Pages(n)
    decreases page
  {
    if page > 1 { LastPage(n - PAGE_SIZE, page - 1); }
  }

  lemma StartOfRun(brands: seq<string>, already: set<string>, outcomes: Outcomes)
    ensures Fresh(brands[..0], already) == []
    ensures Written(Fresh(brands[..0], already), outcomes) == []
    ensures DoneAmong(Fresh(brands[..0], already), outcomes) == {}
    ensures ErrorsAmong(Fresh(brands[..0], already), outcomes) == 0
  {
  }

  /** What is written when a page stops half way is a prefix of what the whole run would write. */
  lemma PrefixOfRun(brands: seq<string>, from: nat, to: nat, already: set<string>, outcomes: Outcomes, scored: nat)
    requires Distinct(brands) && from <= to <= |brands|
    requires scored <= |Fresh(brands[from..to], already)|
    ensures var k := |Fresh(brands[..from], already)| + scored;
            && k <= |Fresh(brands, already)|
            && Written(Fresh(brands[..from], already), outcomes) + Written(Fresh(brands[from..to], already)[..scored], outcomes)
               == Written(Fresh(brands, already)[..k], outcomes)
            && (scored < |Fresh(brands[from..to], already)| ==> k < |Fresh(brands, already)|)
  {
    hide Fresh, Written;
    var first, second, third := Fresh(brands[..from], already), Fresh(brands[from..to], already), Fresh(brands[to..], already);
    assert brands == brands[..from] + brands[from..to] + brands[to..];
    FreshAppends(brands[..from] + brands[from..to], brands[to..], already);
    FreshAppends(brands[..from], brands[from..to], already);
    assert Fresh(brands, already) == first + second + third;
    var upTo := first + second[..scored];
    assert (first + second + third)[..|upTo|] == upTo;
    OutcomesAppend(first, second[..scored], outcomes);
  }

  // ---------------------------------------------------------------- over crashes

  lemma {:induction false} WrittenIsOfBrands(brands: seq<string>, outcomes: Outcomes, i: nat)
    requires i < |Written(brands, outcomes)|
    ensures Written(brands, outcomes)[i].brand in brands
  {
    var rest := brands[..|brands| - 1];
    if i < |Written(rest, outcomes)| { WrittenIsOfBrands(rest, outcomes, i); }
  }

  lemma {:induction false} FreshIsDistinct(brands: seq<string>, done: set<string>)
    requires Distinct(brands)
    ensures Distinct(Fresh(brands, done))
  {
    if brands != [] {
      var rest := brands[..|brands| - 1];
      FreshIsDistinct(rest, done);
      FreshIsAmong(rest, done, brands[|brands| - 1]);
    }
  }

  lemma {:induction false} WrittenIsOnePerBrand(brands: seq<string>, outcomes: Outcomes)
    requires Distinct(brands)
    ensures OnePerBrand(Written(brands, outcomes))
  {
    if brands != [] {
      var rest := brands[..|brands| - 1];
      WrittenIsOnePerBrand(rest, outcomes);
      forall i | 0 <= i < |Written(rest, outcomes)| ensures Written(rest, outcomes)[i].brand != brands[|brands| - 1] {
        WrittenIsOfBrands(rest, outcomes, i);
      }
    }
  }

  /** The snapshots are one a brand and of brands on the list. */
  predicate RunOk(snapshots: seq<Snapshot>, brands: seq<string>) {
    OnePerBrand(snapshots) && forall i :: 0 <= i < |snapshots| ==> snapshots[i].brand in brands
  }

  /** However far an execution gets, no brand is ever scored twice. */
  lemma ExecutionKeepsRunOk(before: seq<Snapshot>, after: seq<Snapshot>, brands: seq<string>, outcomes: Outcomes)
    requires Distinct(brands) && RunOk(before, brands)
    requires after <= before + Written(Fresh(brands, BrandsOf(before)), outcomes)
    ensures RunOk(after, brands)
  {
    var due := Fresh(brands, BrandsOf(before));
    var whole := before + Written(due, outcomes);
    FreshIsDistinct(brands, BrandsOf(before));
    WrittenIsOnePerBrand(due, outcomes);
    forall i | |before| <= i < |whole| ensures whole[i].brand in brands && whole[i].brand !in BrandsOf(before) {
      WrittenIsOfBrands(due, outcomes, i - |before|);
      FreshIsAmong(brands, BrandsOf(before), whole[i].brand);
    }
    forall i, j | 0 <= i < j < |whole| ensures whole[i].brand != whole[j].brand {
      if i < |before| { assert whole[i].brand in BrandsOf(before); }
    }
    assert OnePerBrand(whole);
  }

  lemma {:induction false} EveryBrandIsCounted(brands: seq<string>, outcomes: Outcomes)
    ensures |Written(brands, outcomes)| + ErrorsAmong(brands, outcomes) == |brands| + LostAmong(brands, outcomes)
  {
    if brands != [] { EveryBrandIsCounted(brands[..|brands| - 1], outcomes); }
  }

  lemma {:induction false} FreshAndDone(brands: seq<string>, done: set<string>)
    requires Distinct(brands)
    ensures |Fresh(brands, done)| + |(set b | b in brands && b in done)| == |brands|
  {
    if brands == [] {
      assert (set b | b in brands && b in done) == {};
    } else {
      var rest, last := brands[..|brands| - 1], brands[|brands| - 1];
      FreshAndDone(rest, done);
      assert brands == rest + [last];
      var there := set b | b in rest && b in done;
      assert (set b | b in brands && b in done) == if last in done then there + {last} else there;
    }
  }

  lemma {:induction false} AsManyBrandsAsSnapshots(snapshots: seq<Snapshot>)
    requires OnePerBrand(snapshots)
    ensures |BrandsOf(snapshots)| == |snapshots|
  {
    if snapshots != [] {
      var rest, last := snapshots[..|snapshots| - 1], snapshots[|snapshots| - 1].brand;
      AsManyBrandsAsSnapshots(rest);
      assert BrandsOf(snapshots) == BrandsOf(rest) + {last} by {
        forall b | b in BrandsOf(snapshots) ensures b in BrandsOf(rest) + {last} {
          var i :| 0 <= i < |snapshots| && snapshots[i].brand == b;
          if i < |rest| { assert rest[i].brand == b; }
        }
        forall i | 0 <= i < |rest| ensures rest[i].brand in BrandsOf(snapshots) { assert snapshots[i].brand == rest[i].brand; }
        assert snapshots[|snapshots| - 1].brand in BrandsOf(snapshots);
      }
      assert last !in BrandsOf(rest);
    } else {
      assert BrandsOf(snapshots) == {};
    }
  }

  /**
   The books of a completed execution: snapshots and errors account for every brand once, but for
   those whose snapshot was written and reported as an error, which count twice.
   */
  lemma CountersAddUp(before: seq<Snapshot>, brands: seq<string>, outcomes: Outcomes)
    requires Distinct(brands) && RunOk(before, brands)
    ensures var due := Fresh(brands, BrandsOf(before));
            |before + Written(due, outcomes)| + ErrorsAmong(due, outcomes) == |brands| + LostAmong(due, outcomes)
  {
    var due := Fresh(brands, BrandsOf(before));
    EveryBrandIsCounted(due, outcomes);
    FreshAndDone(brands, BrandsOf(before));
    AsManyBrandsAsSnapshots(before);
    assert (set b | b in brands && b in BrandsOf(before)) == BrandsOf(before);
  }

  /** One more execution after that settles them: nothing it finds written is scored again. */
  lemma CompletedBrandsAreNotDue(before: seq<Snapshot>, brands: seq<string>, outcomes: Outcomes, brand: string)
    requires brand in brands && brand !in BrandsOf(before) && Writes(outcomes(brand))
    ensures brand !in Fresh(brands, BrandsOf(before + Written(Fresh(brands, BrandsOf(before)), outcomes)))
  {
    var due := Fresh(brands, BrandsOf(before));
    FreshIsAmong(brands, BrandsOf(before), brand);
    WrittenOf(due, outcomes, brand);
    var i :| 0 <= i < |Written(due, outcomes)| && Written(due, outcomes)[i].brand == brand;
    var whole := before + Written(due, outcomes);
    assert whole[|before| + i].brand == brand;
    FreshIsAmong(brands, BrandsOf(whole), brand);
  }

  lemma {:induction false} WrittenOf(brands: seq<string>, outcomes: Outcomes, brand: string)
    requires brand in brands && Writes(outcomes(brand))
    ensures exists i :: 0 <= i < |Written(brands, outcomes)| && Written(brands, outcomes)[i].brand == brand
  {
    var rest, last := brands[..|brands| - 1], brands[|brands| - 1];
    assert brands == rest + [last];
    if last == brand {
      assert Written(brands, outcomes)[|Written(rest, outcomes)|].brand == brand;
    } else {
      WrittenOf(rest, outcomes, brand);
      var i :| 0 <= i < |Written(rest, outcomes)| && Written(rest, outcomes)[i].brand == brand;
      assert Written(brands, outcomes)[i].brand == brand;
    }
  }

  /** How one execution turns out, and how long it lives. */
  datatype Attempt = Attempt(outcomes: Outcomes, fuel: nat)

  predicate LosesNoAnswer(attempts: seq<Attempt>, brands: seq<string>) {
    forall i, b :: 0 <= i < |attempts| && b in brands ==> !attempts[i].outcomes(b).SavedThenThrew?
  }

  /** Scoring the brand leaves a snapshot whenever it is tried. */
  predicate AlwaysWritten(attempts: seq<Attempt>, brand: string) {
    forall i :: 0 <= i < |attempts| ==> Writes(attempts[i].outcomes(brand))
  }

  lemma WrittenInTheEnd(before: seq<Snapshot>, brands: seq<string>, outcomes: Outcomes, brand: string)
    requires brand in brands && Writes(outcomes(brand))
    ensures brand in BrandsOf(before + Written(Fresh(brands, BrandsOf(before)), outcomes))
  {
    var due := Fresh(brands, BrandsOf(before));
    var whole := before + Written(due, outcomes);
    FreshIsAmong(brands, BrandsOf(before), brand);
    if brand in due {
      WrittenOf(due, outcomes, brand);
      var i :| 0 <= i < |Written(due, outcomes)| && Written(due, outcomes)[i].brand == brand;
      assert whole[|before| + i].brand == brand;
    } else {
      var i :| 0 <= i < |before| && before[i].brand == brand;
      assert whole[i].brand == brand;
    }
  }

  lemma FewerAreFresh(brands: seq<string>, done: set<string>)
    requires Distinct(brands)
    ensures |Fresh(brands, done)| <= |brands|
  {
    FreshAndDone(brands, done);
  }

  lemma SomePrefix(before: seq<Snapshot>, after: seq<Snapshot>, due: seq<string>, outcomes: Outcomes, k: nat)
    requires k <= |due| && after == before + Written(due[..k], outcomes)
    ensures after <= before + Written(due, outcomes)
  {
    PrefixIsWritten(due, k, outcomes);
  }

  /** Executions one after another, as the queue retries them, until one completes. */
  method ExecuteUntilCompleted(run: ScoreRun, brands: seq<string>, attempts: seq<Attempt>) returns (completed: bool)
    requires Distinct(brands) && RunOk(run.snapshots, brands) && !run.status.Completed?
    modifies run
    ensures RunOk(run.snapshots, brands) && old(run.snapshots) <= run.snapshots
    ensures run.status.Completed? <==> completed
    ensures (exists i :: 0 <= i < |attempts| && attempts[i].fuel > |brands| + Pages(|brands|)) ==> completed
    ensures completed ==>
              && run.totalBrands == |brands| && run.CountersHold()
              && (forall b :: b in brands && AlwaysWritten(attempts, b) ==> b in BrandsOf(run.snapshots))
              && run.processed + run.errors >= run.totalBrands
              && (LosesNoAnswer(attempts, brands) ==> run.processed + run.errors == run.totalBrands)
  {
    hide RunOk, Written, ErrorsAmong, LostAmong, Fresh, BrandsOf, Pages, CountOf, Writes;
    completed := false;
    var i := 0;
    while i < |attempts|
      invariant 0 <= i <= |attempts| && !run.status.Completed? && !completed
      invariant forall j :: 0 <= j < i ==> attempts[j].fuel <= |brands| + Pages(|brands|)
      invariant RunOk(run.snapshots, brands) && old(run.snapshots) <= run.snapshots
    {
      ghost var before := run.snapshots;
      completed := run.ExecuteRun(brands, attempts[i].outcomes, true, attempts[i].fuel);
      ghost var due := Fresh(brands, BrandsOf(before));
      FewerAreFresh(brands, BrandsOf(before));
      if !completed {
        ghost var k :| 0 <= k <= |due| && run.snapshots == before + Written(due[..k], attempts[i].outcomes);
        SomePrefix(before, run.snapshots, due, attempts[i].outcomes, k);
      }
      ExecutionKeepsRunOk(before, run.snapshots, brands, attempts[i].outcomes);
      if completed {
        forall b | b in brands && AlwaysWritten(attempts, b) ensures b in BrandsOf(run.snapshots) {
          WrittenInTheEnd(before, brands, attempts[i].outcomes, b);
        }
        CountersAddUp(before, brands, attempts[i].outcomes);
        if LosesNoAnswer(attempts, brands) { NothingLost(brands, BrandsOf(before), attempts[i].outcomes); }
        return;
      }
      i := i + 1;
    }
  }

  lemma {:induction false} NothingLost(brands: seq<string>, done: set<string>, outcomes: Outcomes)
    requires forall b :: b in brands ==> !outcomes(b).SavedThenThrew?
    ensures LostAmong(Fresh(brands, done), outcomes) == 0
  {
    forall b | b in Fresh(brands, done) ensures !outcomes(b).SavedThenThrew? { FreshIsAmong(brands, done, b); }
    NoneLost(Fresh(brands, done), outcomes);
  }

  lemma {:induction false} NoneLost(brands: seq<string>, outcomes: Outcomes)
    requires forall b :: b in brands ==> !outcomes(b).SavedThenThrew?
    ensures LostAmong(brands, outcomes) == 0
  {
    if brands != [] { NoneLost(brands[..|brands| - 1], outcomes); }
  }
}
