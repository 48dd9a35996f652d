/**
 How many payment links a subscription in arrears can receive, across every cron that issues one
 (`src/tasks/tasks.service.ts`).
 */
module Dunning {
  import opened Basics
  import opened Subscriptions
  import opened RowMoves
  import opened Lifecycle
  import Text

  predicate InGoodStanding(r: Row) { r.status.Trial? || r.status.Active? }

  /** The links a row may still receive: one to fall into arrears, and the retries not yet spent. */
  function BudgetOf(r: Row, maxRetry: int): nat {
    (if InGoodStanding(r) then 1 else 0) + Max(0, maxRetry - r.retryCount)
  }

  function Budget(w: World, cfg: Config): nat {
    match w.row
    case None => 0
    case Some(r) => BudgetOf(r, cfg.maxRetry)
  }

  /** A step that opens the row, takes it out of arrears or gives retries back. */
  predicate Reactivating(before: World, after: World) {
    after.row.Some? &&
    (before.row.None?
     || (InGoodStanding(after.row.value) && !InGoodStanding(before.row.value))
     || after.row.value.retryCount < before.row.value.retryCount)
  }

  predicate NeverReactivates(w: World, cfg: Config, run: seq<Action>)
    decreases |run|
  {
    run == [] || (!Reactivating(w, Step(w, cfg, run[0])) && NeverReactivates(Step(w, cfg, run[0]), cfg, run[1..]))
  }

  /** A link went out and the row does not know: it is due again as if nothing had been issued. */
  predicate ForgetsLink(w: World, cfg: Config, a: Action) {
    Step(w, cfg, a).links > w.links && Step(w, cfg, a).row == w.row
  }

  function Forgotten(w: World, cfg: Config, run: seq<Action>): nat
    decreases |run|
  {
    if run == [] then 0 else (if ForgetsLink(w, cfg, run[0]) then 1 else 0) + Forgotten(Step(w, cfg, run[0]), cfg, run[1..])
  }

  /** What became of the charge when no save of the row landed after the link. */
  predicate LosesEverySave(a: Action) {
    || (a.ConvertTrial? && a.charge.SavesLost? && a.charge.linked && !a.charge.saved)
    || ((a.Renew? || a.Retry?) && a.charge.SavesLost? && a.charge.linked && !a.charge.saved && !a.charge.recovered)
  }

  /** A link is forgotten exactly when it was issued and every save after it was lost. */
  lemma ForgottenIffSavesLost(w: World, cfg: Config, a: Action)
    ensures ForgetsLink(w, cfg, a) <==> Step(w, cfg, a).links > w.links && LosesEverySave(a)
  {
    hide Delivered, Asking, AskingThrows, IsRecurring, Cancelling, Starting, CheckedOut, RowOk;
    match a {
      case Deliver(m, id, reply, first, second, at) => DeliveryIssuesNothing(w, cfg, a);
      case Confirm(reply, first, second, at) => AskingIssuesNothing(w, reply, first, second, at);
      case Renew(reply, charge, wallet, first, second, at) => AskingIssuesNothing(w, reply, first, second, at);
      case Cancel(reason, triggeredBy, gateway, stored, at) => CancellingIssuesNothing(w, cfg, a);
      case StartTrial(brand, plan, phoneChanged, start, at) => StartingIssuesNothing(w, cfg, a);
      case StartPaid(brand, plan, start, at) => StartingIssuesNothing(w, cfg, a);
      case Checkout(brand, plan, provider, wallet, first, at) => CheckoutIssuesNothing(w, cfg, a);
      case _ =>
    }
  }

  /** What a step spends: each link from the budget, but for a forgotten one. */
  predicate SpendsBudget(before: World, after: World, cfg: Config) {
    Reactivating(before, after)
    || after.links + Budget(after, cfg)
       <= before.links + Budget(before, cfg) + (if after.links > before.links && after.row == before.row then 1 else 0)
  }

  lemma ChargeSpends(w: World, cfg: Config, r: Row, isRetry: bool, handled: bool, charge: ChargeReply)
    requires w.row == Some(r) && (if isRetry then r.retryCount < cfg.maxRetry else InGoodStanding(r))
    ensures SpendsBudget(w, Charged(w, r, isRetry, handled, charge), cfg)
  {
    hide RowOk;
  }

  lemma WalletRenewalSpends(w: World, cfg: Config, r: Row, wallet: WalletReply, first: Call, now: Instant)
    requires w.row == Some(r)
    ensures SpendsBudget(w, WalletRenewed(w, r, wallet, first, now, cfg.billingDays), cfg)
  {
    hide RowOk;
  }

  lemma FailureSpends(w: World, asked: World, cfg: Config, r: Row)
    requires w.row == Some(r) && asked.links == w.links
    ensures SpendsBudget(w, RenewalFailed(asked, r), cfg)
  {
    hide RowOk;
  }

  lemma NothingSpends(w: World, cfg: Config)
    ensures SpendsBudget(w, w, cfg)
  {
  }

  lemma TrialConversionSpends(w: World, cfg: Config, a: Action)
    requires a.ConvertTrial?
    ensures SpendsBudget(w, Step(w, cfg, a), cfg)
  {
    hide Degrade, RowOk, Charged, WalletRenewed;
    if w.row.Some? && DueTrial(w.row.value, a.at) {
      ChargeSpends(w, cfg, w.row.value, false, false, a.charge);
      WalletRenewalSpends(w, cfg, w.row.value, a.wallet, a.first, a.at);
    }
  }

  lemma RenewalSpends(w: World, cfg: Config, a: Action)
    requires a.Renew?
    ensures SpendsBudget(w, Step(w, cfg, a), cfg)
  {
    hide Asking, AskingThrows, IsRecurring, RowOk, Charged, WalletRenewed, RenewalFailed, SpendsBudget;
    NothingSpends(w, cfg);
    if w.row.Some? && DueRenewal(w.row.value, a.at) {
      var asked := Asking(w, a.reply, a.first, a.second, a.at);
      AskingIssuesNothing(w, a.reply, a.first, a.second, a.at);
      AskingSpends(w, asked, cfg);
      FailureSpends(w, asked, cfg, w.row.value);
      WalletRenewalSpends(w, cfg, w.row.value, a.wallet, a.first, a.at);
      if w.row.value.status.Active? { ChargeSpends(w, cfg, w.row.value, false, true, a.charge); }
    }
  }

  lemma AskingSpends(w: World, after: World, cfg: Config)
    requires Spends(w, after)
    ensures SpendsBudget(w, after, cfg)
  {
  }

  lemma RetrySpends(w: World, cfg: Config, a: Action)
    requires a.Retry?
    ensures SpendsBudget(w, Step(w, cfg, a), cfg)
  {
    hide RowOk, Charged, WalletRenewed, SpendsBudget;
    NothingSpends(w, cfg);
    if w.row.Some? && w.row.value.retryCount < cfg.maxRetry {
      ChargeSpends(w, cfg, w.row.value, true, true, a.charge);
      WalletRenewalSpends(w, cfg, w.row.value, a.wallet, a.first, a.at);
    }
  }

  lemma OtherStepSpends(w: World, cfg: Config, a: Action)
    requires !a.ConvertTrial? && !a.Renew? && !a.Retry?
    ensures SpendsBudget(w, Step(w, cfg, a), cfg)
  {
    hide Delivered, Asking, Cancelling, Starting, CheckedOut, RowOk, Degrade;
    match a {
      case Deliver(m, id, reply, first, second, at) => DeliveryIssuesNothing(w, cfg, a);
      case Confirm(reply, first, second, at) => AskingIssuesNothing(w, reply, first, second, at);
      case Cancel(reason, triggeredBy, gateway, stored, at) => CancellingIssuesNothing(w, cfg, a);
      case StartTrial(brand, plan, phoneChanged, start, at) => StartingIssuesNothing(w, cfg, a);
      case StartPaid(brand, plan, start, at) => StartingIssuesNothing(w, cfg, a);
      case Checkout(brand, plan, provider, wallet, first, at) => CheckoutIssuesNothing(w, cfg, a);
      case _ =>
    }
  }

  /** Every link is paid out of the budget, whichever cron issues it, but for the forgotten ones. */
  lemma LinksSpendBudget(w: World, cfg: Config, a: Action)
    requires !Reactivating(w, Step(w, cfg, a))
    ensures Step(w, cfg, a).links + Budget(Step(w, cfg, a), cfg)
            <= w.links + Budget(w, cfg) + (if ForgetsLink(w, cfg, a) then 1 else 0)
  {
    hide Step, Budget, Reactivating;
    match a {
      case ConvertTrial(charge, wallet, first, second, at) => TrialConversionSpends(w, cfg, a);
      case Renew(reply, charge, wallet, first, second, at) => RenewalSpends(w, cfg, a);
      case Retry(last, charge, wallet, first, at) => RetrySpends(w, cfg, a);
      case _ => OtherStepSpends(w, cfg, a);
    }
  }

  /** Without a reactivating step, good standing never comes back and retries only grow. */
  predicate Spends(before: World, after: World) {
    after.links == before.links &&
    (after.row == before.row || Reactivating(before, after)
     || (before.row.Some? && after.row.Some?
         && (InGoodStanding(after.row.value) ==> InGoodStanding(before.row.value))
         && after.row.value.retryCount >= before.row.value.retryCount))
  }

  lemma DeliveryIssuesNothing(w: World, cfg: Config, a: Action)
    requires a.Deliver?
    ensures Spends(w, Delivered(w, a.m, a.id, a.reply, a.first, a.second, a.at))
  {
    hide ConfioWebhook.Plan;
  }

  lemma AskingIssuesNothing(w: World, reply: ConfioWebhook.ProviderReply, first: Call, second: Call, now: Instant)
    ensures Spends(w, Asking(w, reply, first, second, now))
    ensures AskingThrows(w, reply, first, second, now) ==> Asking(w, reply, first, second, now).row == w.row
  {
    hide ConfioWebhook.Ask;
  }

  lemma CancellingIssuesNothing(w: World, cfg: Config, a: Action)
    requires a.Cancel?
    ensures Spends(w, Cancelling(w, a.reason, a.triggeredBy, a.gateway, a.stored, a.at).0)
  {
    hide UsableText, HasCancelTrace, CancelName, AccessEnd, RowOk, Text.Trim;
  }

  lemma StartingIssuesNothing(w: World, cfg: Config, a: Action)
    requires a.StartTrial? || a.StartPaid?
    ensures Spends(w, Step(w, cfg, a))
  {
  }

  lemma CheckoutIssuesNothing(w: World, cfg: Config, a: Action)
    requires a.Checkout?
    ensures Spends(w, CheckedOut(w, cfg, a.brand, a.plan, a.provider, a.walletId, a.first, a.at))
  {
  }

  /**
   Between two reactivations a row with `k` retries receives at most 1 + max(0, MAX_RETRY - k)
   links, and one more for each that was forgotten.
   */
  lemma {:induction false} LinksAreBounded(w: World, cfg: Config, run: seq<Action>)
    requires NeverReactivates(w, cfg, run)
    ensures After(w, cfg, run).links + Budget(After(w, cfg, run), cfg) <= w.links + Budget(w, cfg) + Forgotten(w, cfg, run)
    ensures w.row.Some? ==>
              After(w, cfg, run).links <= w.links + 1 + Max(0, cfg.maxRetry - w.row.value.retryCount) + Forgotten(w, cfg, run)
    decreases |run|
  {
    hide Step, ForgetsLink;
    if run != [] {
      LinksSpendBudget(w, cfg, run[0]);
      LinksAreBounded(Step(w, cfg, run[0]), cfg, run[1..]);
    }
  }

  // ---------------------------------------------------------------- the bound is reached

  /** A row of the old one-link-per-period model, renewing. */
  predicate Chargeable(r: Row) { r.provider.Confio? && !IsRecurring(r) && r.autoRenew }

  function RetryAll(k: nat, cfg: Config): seq<Action>
    decreases cfg.maxRetry - k
  {
    if k >= cfg.maxRetry then []
    else [Retry(0, Emitted, NO_FAILURE, Accepted, (k + 1) * MS_PER_DAY)] + RetryAll(k + 1, cfg)
  }

  /** A retry that goes out, a day more after the last than the one before. */
  lemma RetrySendsLink(w: World, cfg: Config, k: nat)
    requires w.row.Some? && Chargeable(w.row.value) && w.row.value.status.PastDue? && w.row.value.retryCount == k < cfg.maxRetry
    ensures var next := Step(w, cfg, Retry(0, Emitted, NO_FAILURE, Accepted, (k + 1) * MS_PER_DAY));
            && next.row.Some? && Chargeable(next.row.value) && next.row.value.status.PastDue? && next.row.value.retryCount == k + 1
            && next.links == w.links + 1 && !Reactivating(w, next)
  {
    hide IsRecurring, RowOk;
    var next := Step(w, cfg, Retry(0, Emitted, NO_FAILURE, Accepted, (k + 1) * MS_PER_DAY));
    assert AskedName(next.row.value) == AskedName(w.row.value);
    SameName(w.row.value, next.row.value);
  }

  lemma {:induction false} RetriesReachBudget(w: World, cfg: Config, k: nat)
    requires w.row.Some? && Chargeable(w.row.value) && w.row.value.status.PastDue? && w.row.value.retryCount == k
    ensures NeverReactivates(w, cfg, RetryAll(k, cfg))
    ensures After(w, cfg, RetryAll(k, cfg)).links == w.links + Budget(w, cfg)
    decreases cfg.maxRetry - k
  {
    var run := RetryAll(k, cfg);
    if k < cfg.maxRetry {
      hide Step, Chargeable, Reactivating;
      assert run[1..] == RetryAll(k + 1, cfg);
      RetrySendsLink(w, cfg, k);
      RetriesReachBudget(Step(w, cfg, run[0]), cfg, k + 1);
    }
  }

  function LostRenewals(n: nat, now: Instant): seq<Action> {
    if n == 0 then []
    else [Renew(ConfioWebhook.Unreachable, SavesLost(true, false, false), NO_FAILURE, Accepted, Accepted, now)] + LostRenewals(n - 1, now)
  }

  /** While every save is lost there is no bound at all: each pass issues the link again. */
  lemma {:induction false} LostSavesAreUnbounded(w: World, cfg: Config, n: nat, now: Instant)
    requires w.row.Some? && Chargeable(w.row.value) && w.row.value.status.Active? && DueRenewal(w.row.value, now)
    ensures var run := LostRenewals(n, now);
            && NeverReactivates(w, cfg, run) && After(w, cfg, run).row == w.row
            && After(w, cfg, run).links == w.links + n && Forgotten(w, cfg, run) == n
    decreases n
  {
    hide IsRecurring;
    if n > 0 {
      var run := LostRenewals(n, now);
      assert run[1..] == LostRenewals(n - 1, now);
      LostSavesAreUnbounded(Step(w, cfg, run[0]), cfg, n - 1, now);
    }
  }

  /** No smaller bound holds: an active row whose every charge goes out spends the whole budget. */
  lemma BoundIsTight(w: World, cfg: Config, now: Instant)
    requires w.row.Some? && Chargeable(w.row.value) && w.row.value.status.Active? && DueRenewal(w.row.value, now)
    ensures exists run :: NeverReactivates(w, cfg, run) && After(w, cfg, run).links == w.links + Budget(w, cfg)
  {
    hide IsRecurring;
    var first := Renew(ConfioWebhook.Unreachable, Emitted, NO_FAILURE, Accepted, Accepted, now);
    var run := [first] + RetryAll(w.row.value.retryCount, cfg);
    assert run[1..] == RetryAll(w.row.value.retryCount, cfg);
    var next := Step(w, cfg, first);
    assert AskedName(next.row.value) == AskedName(w.row.value);
    SameName(w.row.value, next.row.value);
    RetriesReachBudget(next, cfg, w.row.value.retryCount);
    assert NeverReactivates(w, cfg, run) && After(w, cfg, run).links == w.links + Budget(w, cfg);
  }

  lemma SameName(a: Row, b: Row)
    requires AskedName(a) == AskedName(b) && a.provider == b.provider
    ensures IsRecurring(a) == IsRecurring(b)
  {
  }

  // ---------------------------------------------------------------- passes that overlap

  /** One row, the links issued for it, and the copies that passes under way have read of it. */
  datatype Overlap = Overlap(row: Row, links: nat, held: map<nat, Row>)

  datatype Move = Take(pass: nat, lastAttempt: Instant, now: Instant) | Issue(pass: nat)

  /** A renewal of the old one-link-per-period model, or a retry, is due. */
  predicate ChargeDue(r: Row, maxRetry: int, lastAttempt: Instant, now: Instant) {
    && r.provider.Confio?
    && ((DueRetry(r) && r.retryCount < maxRetry && BackoffElapsed(r, lastAttempt, now))
        || (DueRenewal(r, now) && r.status.Active? && !IsRecurring(r)))
  }

  /** What a pass saves over the row, from the copy it read. */
  function Issued(copy: Row): Row { ChargedRow(copy, if copy.status.PastDue? then 1 else 0) }

  function Overlapping(o: Overlap, maxRetry: int, m: Move): Overlap {
    match m
    case Take(pass, lastAttempt, now) =>
      if pass !in o.held && ChargeDue(o.row, maxRetry, lastAttempt, now) then o.(held := o.held[pass := o.row]) else o
    case Issue(pass) =>
      if pass in o.held then Overlap(Issued(o.held[pass]), o.links + 1, o.held - {pass}) else o
  }

  function AfterMoves(o: Overlap, maxRetry: int, moves: seq<Move>): Overlap
    decreases |moves|
  {
    if moves == [] then o else AfterMoves(Overlapping(o, maxRetry, moves[0]), maxRetry, moves[1..])
  }

  /** How much budget the copy being charged still shows that the row itself has already spent. */
  function Stale(o: Overlap, maxRetry: int, m: Move): int {
    if m.Issue? && m.pass in o.held then BudgetOf(o.held[m.pass], maxRetry) - BudgetOf(o.row, maxRetry) else 0
  }

  function Staleness(o: Overlap, maxRetry: int, moves: seq<Move>): int
    decreases |moves|
  {
    if moves == [] then 0
    else Stale(o, maxRetry, moves[0]) + Staleness(Overlapping(o, maxRetry, moves[0]), maxRetry, moves[1..])
  }

  predicate Payable(r: Row, maxRetry: int) { r.status.Active? || (r.status.PastDue? && r.retryCount < maxRetry) }

  predicate HoldsPayable(o: Overlap, maxRetry: int) { forall p :: p in o.held ==> Payable(o.held[p], maxRetry) }

  lemma MoveConserves(o: Overlap, maxRetry: int, m: Move)
    requires HoldsPayable(o, maxRetry)
    ensures var after := Overlapping(o, maxRetry, m);
            && HoldsPayable(after, maxRetry)
            && after.links + BudgetOf(after.row, maxRetry) == o.links + BudgetOf(o.row, maxRetry) + Stale(o, maxRetry, m)
  {
    hide IsRecurring, RowOk;
  }

  /** Links and budget together change by exactly the budget that stale copies spend twice. */
  lemma {:induction false} OverlapConserves(o: Overlap, maxRetry: int, moves: seq<Move>)
    requires HoldsPayable(o, maxRetry)
    ensures var after := AfterMoves(o, maxRetry, moves);
            after.links + BudgetOf(after.row, maxRetry) == o.links + BudgetOf(o.row, maxRetry) + Staleness(o, maxRetry, moves)
    decreases |moves|
  {
    hide Overlapping, BudgetOf, Stale, HoldsPayable;
    if moves != [] {
      MoveConserves(o, maxRetry, moves[0]);
      OverlapConserves(Overlapping(o, maxRetry, moves[0]), maxRetry, moves[1..]);
    }
  }

  /** Every pass charges the row as it read it. */
  predicate NeverStale(o: Overlap, maxRetry: int, moves: seq<Move>)
    decreases |moves|
  {
    moves == [] ||
    (&& (moves[0].Issue? && moves[0].pass in o.held ==> o.held[moves[0].pass] == o.row)
     && NeverStale(Overlapping(o, maxRetry, moves[0]), maxRetry, moves[1..]))
  }

  lemma {:induction false} FreshPassesAreBounded(o: Overlap, maxRetry: int, moves: seq<Move>)
    requires HoldsPayable(o, maxRetry) && NeverStale(o, maxRetry, moves)
    ensures AfterMoves(o, maxRetry, moves).links <= o.links + BudgetOf(o.row, maxRetry)
    decreases |moves|
  {
    hide Overlapping, BudgetOf, HoldsPayable;
    if moves != [] {
      MoveConserves(o, maxRetry, moves[0]);
      FreshPassesAreBounded(Overlapping(o, maxRetry, moves[0]), maxRetry, moves[1..]);
    }
  }

  /** Never more than `n` passes hold a copy of the row at once. */
  predicate AtMostAtOnce(o: Overlap, maxRetry: int, n: nat, moves: seq<Move>)
    decreases |moves|
  {
    |o.held| <= n && (moves == [] || AtMostAtOnce(Overlapping(o, maxRetry, moves[0]), maxRetry, n, moves[1..]))
  }

  /** Some cron charges the row at some time. */
  predicate EverCharged(r: Row, maxRetry: int) {
    && r.provider.Confio? && r.autoRenew
    && ((r.status.PastDue? && r.retryCount < maxRetry)
        || (r.status.Active? && r.nextBillingDate.Some? && !IsRecurring(r)))
  }

  lemma DueIsEverCharged(r: Row, maxRetry: int, lastAttempt: Instant, now: Instant)
    requires ChargeDue(r, maxRetry, lastAttempt, now)
    ensures EverCharged(r, maxRetry)
  {
    hide IsRecurring;
  }

  /** When an `EverCharged` row is due, counting from the epoch. */
  function DueAt(r: Row): Instant {
    if r.status.PastDue? then (r.retryCount + 1) * MS_PER_DAY else r.nextBillingDate.UnwrapOr(0) + 1
  }

  lemma EverChargedIsDue(r: Row, maxRetry: int)
    requires EverCharged(r, maxRetry)
    ensures ChargeDue(r, maxRetry, 0, DueAt(r))
  {
    hide IsRecurring;
  }

  /** Passes one at a time down to the last link, and then two at once. */
  function SpendThenOverlap(r: Row, maxRetry: int): seq<Move>
    decreases BudgetOf(r, maxRetry)
  {
    var take := Take(0, 0, DueAt(r));
    if BudgetOf(r, maxRetry) <= 1 || !Payable(r, maxRetry) then [take, Take(1, 0, DueAt(r)), Issue(0), Issue(1)]
    else [take, Issue(0)] + SpendThenOverlap(Issued(r), maxRetry)
  }

  lemma IssuedIsEverCharged(r: Row, maxRetry: int)
    requires EverCharged(r, maxRetry) && BudgetOf(r, maxRetry) > 1
    ensures EverCharged(Issued(r), maxRetry)
  {
    hide IsRecurring, RowOk;
  }

  /** Two passes that read a row on its last link both issue it. */
  lemma LastLinkTwice(r: Row, maxRetry: int, links: nat, now: Instant)
    requires ChargeDue(r, maxRetry, 0, now)
    ensures var o, moves := Overlap(r, links, map[]), [Take(0, 0, now), Take(1, 0, now), Issue(0), Issue(1)];
            AtMostAtOnce(o, maxRetry, 2, moves) && AfterMoves(o, maxRetry, moves).links == links + 2
  {
    hide ChargeDue, Issued, AtMostAtOnce, AfterMoves;
    var o0, o2 := Overlap(r, links, map[]), Overlap(r, links, map[0 := r, 1 := r]);
    var o1 := Overlap(r, links, map[0 := r]);
    assert Overlapping(o0, maxRetry, Take(0, 0, now)) == o1;
    assert Overlapping(o1, maxRetry, Take(1, 0, now)) == o2;
    var o3 := Overlap(Issued(r), links + 1, map[1 := r]);
    assert Overlapping(o2, maxRetry, Issue(0)) == o3;
    assert Overlapping(o3, maxRetry, Issue(1)) == Overlap(Issued(r), links + 2, map[]);
    FourMoves(o0, maxRetry, Take(0, 0, now), Take(1, 0, now), Issue(0), Issue(1), 2);
  }

  /** A pass alone issues one link. */
  lemma OneLink(r: Row, maxRetry: int, links: nat, now: Instant, rest: seq<Move>)
    requires ChargeDue(r, maxRetry, 0, now)
    ensures var o, next := Overlap(r, links, map[]), Overlap(Issued(r), links + 1, map[]);
            && AfterMoves(o, maxRetry, [Take(0, 0, now), Issue(0)] + rest) == AfterMoves(next, maxRetry, rest)
            && (AtMostAtOnce(next, maxRetry, 2, rest) ==> AtMostAtOnce(o, maxRetry, 2, [Take(0, 0, now), Issue(0)] + rest))
  {
    hide ChargeDue, Issued, AtMostAtOnce, AfterMoves;
    var o0, o1 := Overlap(r, links, map[]), Overlap(r, links, map[0 := r]);
    assert Overlapping(o0, maxRetry, Take(0, 0, now)) == o1;
    assert Overlapping(o1, maxRetry, Issue(0)) == Overlap(Issued(r), links + 1, map[]);
    TwoMoves(o0, maxRetry, Take(0, 0, now), Issue(0), rest, 2);
  }

  lemma {:induction false} SpendThenOverlapExceeds(r: Row, maxRetry: int, links: nat)
    requires EverCharged(r, maxRetry)
    ensures var o, moves := Overlap(r, links, map[]), SpendThenOverlap(r, maxRetry);
            && AtMostAtOnce(o, maxRetry, 2, moves)
            && AfterMoves(o, maxRetry, moves).links == links + BudgetOf(r, maxRetry) + 1
    decreases BudgetOf(r, maxRetry)
  {
    hide EverCharged, ChargeDue, Issued, BudgetOf, Payable, AtMostAtOnce, AfterMoves, DueAt;
    EverChargedIsDue(r, maxRetry);
    EverChargedIsPayable(r, maxRetry);
    if BudgetOf(r, maxRetry) <= 1 {
      LastLinkTwice(r, maxRetry, links, DueAt(r));
    } else {
      OneLink(r, maxRetry, links, DueAt(r), SpendThenOverlap(Issued(r), maxRetry));
      IssuedIsEverCharged(r, maxRetry);
      IssuedSpendsOne(r, maxRetry);
      SpendThenOverlapExceeds(Issued(r), maxRetry, links + 1);
    }
  }

  lemma EverChargedIsPayable(r: Row, maxRetry: int)
    requires EverCharged(r, maxRetry)
    ensures Payable(r, maxRetry) && BudgetOf(r, maxRetry) >= 1
  {
    hide IsRecurring;
  }

  lemma IssuedSpendsOne(r: Row, maxRetry: int)
    requires Payable(r, maxRetry)
    ensures BudgetOf(Issued(r), maxRetry) == BudgetOf(r, maxRetry) - 1
  {
    hide RowOk;
  }

  /** The one copy that is held is the row itself. */
  predicate OneFreshCopy(o: Overlap) { |o.held| <= 1 && forall p :: p in o.held ==> o.held[p] == o.row }

  lemma OneAtATimeStaysFresh(o: Overlap, maxRetry: int, m: Move)
    requires OneFreshCopy(o) && |Overlapping(o, maxRetry, m).held| <= 1
    ensures OneFreshCopy(Overlapping(o, maxRetry, m))
  {
    hide ChargeDue, Issued;
    var after := Overlapping(o, maxRetry, m);
    forall p | p in after.held ensures after.held[p] == after.row {
      if m.Issue? && m.pass in o.held && p != m.pass { TwoMembers(o.held.Keys, m.pass, p); }
    }
  }

  lemma TwoMembers(s: set<nat>, a: nat, b: nat)
    requires a in s && b in s && a != b
    ensures |s| >= 2
  {
    assert |s - {a}| == |s| - 1;
    assert b in s - {a};
  }

  lemma {:induction false} OneAtATimeIsNeverStale(o: Overlap, maxRetry: int, n: nat, moves: seq<Move>)
    requires n <= 1 && OneFreshCopy(o) && AtMostAtOnce(o, maxRetry, n, moves)
    ensures NeverStale(o, maxRetry, moves)
    decreases |moves|
  {
    hide Overlapping;
    if moves != [] {
      OneAtATimeStaysFresh(o, maxRetry, moves[0]);
      OneAtATimeIsNeverStale(Overlapping(o, maxRetry, moves[0]), maxRetry, n, moves[1..]);
    }
  }

  lemma {:induction false} NeverChargedIssuesNothing(row: Row, maxRetry: int, moves: seq<Move>)
    requires !EverCharged(row, maxRetry)
    ensures AfterMoves(Overlap(row, 0, map[]), maxRetry, moves) == Overlap(row, 0, map[])
    decreases |moves|
  {
    hide EverCharged, ChargeDue;
    if moves != [] {
      var m := moves[0];
      if m.Take? && ChargeDue(row, maxRetry, m.lastAttempt, m.now) { DueIsEverCharged(row, maxRetry, m.lastAttempt, m.now); }
      NeverChargedIssuesNothing(row, maxRetry, moves[1..]);
    }
  }

  lemma {:induction false} FewerIsFewer(o: Overlap, maxRetry: int, n: nat, moves: seq<Move>)
    requires AtMostAtOnce(o, maxRetry, 2, moves) && n >= 2
    ensures AtMostAtOnce(o, maxRetry, n, moves)
    decreases |moves|
  {
    hide Overlapping;
    if moves != [] { FewerIsFewer(Overlapping(o, maxRetry, moves[0]), maxRetry, n, moves[1..]); }
  }

  /**
   Of a row that is ever charged, no schedule of passes issues more links than its budget exactly
   when no two of them hold the row at once.
   */
  lemma OverlapIsBoundedIff(row: Row, maxRetry: int, n: nat)
    ensures (forall moves :: AtMostAtOnce(Overlap(row, 0, map[]), maxRetry, n, moves) ==>
                             AfterMoves(Overlap(row, 0, map[]), maxRetry, moves).links <= BudgetOf(row, maxRetry))
            <==> n <= 1 || !EverCharged(row, maxRetry)
  {
    hide EverCharged, BudgetOf, AfterMoves, AtMostAtOnce, SpendThenOverlap, NeverStale;
    var start := Overlap(row, 0, map[]);
    if !EverCharged(row, maxRetry) {
      forall moves ensures AfterMoves(start, maxRetry, moves).links == 0 { NeverChargedIssuesNothing(row, maxRetry, moves); }
    } else if n <= 1 {
      forall moves | AtMostAtOnce(start, maxRetry, n, moves) ensures AfterMoves(start, maxRetry, moves).links <= BudgetOf(row, maxRetry) {
        OneAtATimeIsNeverStale(start, maxRetry, n, moves);
        FreshPassesAreBounded(start, maxRetry, moves);
      }
    } else {
      SpendThenOverlapExceeds(row, maxRetry, 0);
      FewerIsFewer(start, maxRetry, n, SpendThenOverlap(row, maxRetry));
    }
  }

  lemma TwoMoves(o: Overlap, maxRetry: int, a: Move, b: Move, rest: seq<Move>, n: nat)
    ensures var o1 := Overlapping(o, maxRetry, a);
            var o2 := Overlapping(o1, maxRetry, b);
            && AfterMoves(o, maxRetry, [a, b] + rest) == AfterMoves(o2, maxRetry, rest)
            && (AtMostAtOnce(o, maxRetry, n, [a, b] + rest)
                <==> |o.held| <= n && |o1.held| <= n && AtMostAtOnce(o2, maxRetry, n, rest))
  {
    hide Overlapping;
    var o1 := Overlapping(o, maxRetry, a);
    assert ([a, b] + rest)[1..] == [b] + rest;
    assert ([b] + rest)[1..] == rest;
    assert AfterMoves(o1, maxRetry, [b] + rest) == AfterMoves(Overlapping(o1, maxRetry, b), maxRetry, rest);
    assert AtMostAtOnce(o1, maxRetry, n, [b] + rest)
           <==> |o1.held| <= n && AtMostAtOnce(Overlapping(o1, maxRetry, b), maxRetry, n, rest);
  }

  lemma FourMoves(o: Overlap, maxRetry: int, a: Move, b: Move, c: Move, d: Move, n: nat)
    ensures var o1 := Overlapping(o, maxRetry, a);
            var o2 := Overlapping(o1, maxRetry, b);
            var o3 := Overlapping(o2, maxRetry, c);
            var o4 := Overlapping(o3, maxRetry, d);
            && AfterMoves(o, maxRetry, [a, b, c, d]) == o4
            && (AtMostAtOnce(o, maxRetry, n, [a, b, c, d])
                <==> |o.held| <= n && |o1.held| <= n && |o2.held| <= n && |o3.held| <= n && |o4.held| <= n)
  {
    hide Overlapping;
    var o2 := Overlapping(Overlapping(o, maxRetry, a), maxRetry, b);
    assert [a, b, c, d] == [a, b] + [c, d];
    assert [c, d] == [c, d] + [];
    TwoMoves(o, maxRetry, a, b, [c, d], n);
    TwoMoves(o2, maxRetry, c, d, [], n);
  }
}
