/**
 Renewing a subscription out of an internal wallet: `renewFromWallet` of `src/tasks/tasks.service.ts`
 over the `debit` of `src/wallet/wallet.service.ts` and the price of
 `src/client/client-roles.service.ts`, the row and the ledger side by side.
 */
module WalletRenewals {
  import opened Basics
  import opened Subscriptions
  import opened RowMoves
  import opened Lifecycle
  import ConfioWebhook
  import LifecycleTheorems
  import Wallets

  datatype Both = Both(world: World, book: Wallets.Book)

  // ---------------------------------------------------------------- the price

  /** The prices in COP last read from `backend-roles`, and when. */
  datatype Cache = Cache(prices: map<string, nat>, fetchedAt: Instant)

  const CACHE_TTL_MS: int := 5 * MS_PER_MINUTE

  /** A cache too old is refreshed, and serves all the same when `backend-roles` does not answer. */
  function PlanRows(cache: Option<Cache>, fetched: Option<map<string, nat>>, now: Instant): map<string, nat> {
    if cache.Some? && now - cache.value.fetchedAt < CACHE_TTL_MS then cache.value.prices
    else if fetched.Some? then fetched.value
    else if cache.Some? then cache.value.prices
    else map[]
  }

  function GetPlanPrice(cache: Option<Cache>, fetched: Option<map<string, nat>>, plan: string, now: Instant): Option<nat> {
    var rows := PlanRows(cache, fetched, now);
    if plan in rows then Some(rows[plan]) else None
  }

  /** Under five minutes old the cache is served; older, what `backend-roles` answers; and if it does not, the cache again. */
  lemma PriceServed(prices: map<string, nat>, fetched: Option<map<string, nat>>, plan: string, age: int, now: Instant)
    requires plan in prices && (fetched.Some? ==> plan in fetched.value)
    ensures GetPlanPrice(Some(Cache(prices, now - age)), fetched, plan, now)
            == Some(if age < 300_000 || fetched.None? then prices[plan] else fetched.value[plan])
    ensures fetched.Some? ==> GetPlanPrice(None, fetched, plan, now) == Some(fetched.value[plan])
  {
  }

  /** With no cache and no answer every plan looks free; a cache of any age keeps its price. */
  lemma OutagePriceIff(cache: Option<Cache>, plan: string, now: Instant)
    ensures GetPlanPrice(cache, None, plan, now).UnwrapOr(0) == 0
            <==> cache.None? || plan !in cache.value.prices || cache.value.prices[plan] == 0
  {
  }

  // ---------------------------------------------------------------- the debit

  /**
   How storage behaves under one debit. `Unreachable`: connecting or opening the transaction fails,
   outside the `try`. `Broke`: an error inside it; the commit may have landed all the same, and the
   rollback in the catch may fail in its turn.
   */
  datatype Storage = Held | Unreachable | Broke(committed: bool, rolledBack: bool)

  /** Everything a renewal meets: price, storage, the plan store, and the saves that follow. */
  datatype Attempt = Attempt(price: Option<nat>, storage: Storage, first: Call, row: Call, eventSaved: bool, recovered: bool)

  function Amount(x: Attempt): nat { x.price.UnwrapOr(0) }

  predicate CanPay(book: Wallets.Book, wallet: string, x: Attempt) {
    Wallets.Check(book, Wallets.DebitOf(wallet, Amount(x), None)).Done?
  }

  /** Refusals are thrown; a storage error is returned as a value, if its rollback goes through. */
  function Debit(book: Wallets.Book, wallet: string, x: Attempt): DebitReply {
    if Amount(x) == 0 then FreeOfCharge
    else match x.storage
      case Held => if CanPay(book, wallet, x) then Debited else DebitThrew
      case Unreachable => DebitThrew
      case Broke(_, rolledBack) => if rolledBack then DebitReturnedError else DebitThrew
  }

  function BookAfter(book: Wallets.Book, wallet: string, x: Attempt): Wallets.Book {
    if Amount(x) == 0 || x.storage.Unreachable? || (x.storage.Broke? && !x.storage.committed) then book
    else Wallets.Perform(book, Wallets.DebitOf(wallet, Amount(x), None))
  }

  function Reply(book: Wallets.Book, wallet: string, x: Attempt): WalletReply {
    WalletReply(Debit(book, wallet, x), x.row, x.eventSaved, x.recovered)
  }

  function Renewing(both: Both, r: Row, wallet: string, x: Attempt, now: Instant, days: int): Both {
    Both(WalletRenewed(both.world, r, Reply(both.book, wallet, x), x.first, now, days), BookAfter(both.book, wallet, x))
  }

  /** The wallet holds less by this amount, and has one more movement that says so. */
  predicate Took(before: Wallets.Book, after: Wallets.Book, wallet: string, amount: nat) {
    && wallet in before.wallets && wallet in after.wallets
    && after.wallets[wallet].balance == before.wallets[wallet].balance - amount
    && after.txs == before.txs + [Wallets.Tx(wallet, Wallets.Debit, amount, before.wallets[wallet].balance, after.wallets[wallet].balance)]
  }

  /** Something is due, the wallet can pay it, and the transaction commits. */
  predicate Pays(book: Wallets.Book, wallet: string, x: Attempt) {
    Amount(x) > 0 && CanPay(book, wallet, x) && (x.storage.Held? || (x.storage.Broke? && x.storage.committed))
  }

  lemma TakenIff(book: Wallets.Book, wallet: string, x: Attempt)
    ensures Took(book, BookAfter(book, wallet, x), wallet, Amount(x)) <==> Pays(book, wallet, x)
    ensures !Pays(book, wallet, x) ==> BookAfter(book, wallet, x) == book
    ensures |BookAfter(book, wallet, x).txs| == |book.txs| + (if Pays(book, wallet, x) then 1 else 0)
  {
    if BookAfter(book, wallet, x) == book { assert |BookAfter(book, wallet, x).txs| == |book.txs|; }
  }

  // ---------------------------------------------------------------- how a renewal ends

  /** The debit did not throw, and neither did anything after it. */
  predicate Clean(book: Wallets.Book, wallet: string, x: Attempt) {
    var debit := Debit(book, wallet, x);
    !debit.DebitThrew? && x.row.Accepted? && (debit.FreeOfCharge? || x.eventSaved)
  }

  /** One more failed payment is on the history. */
  predicate FailureCounted(before: World, after: World) {
    after.history == before.history + [PlainEvent(PaymentFailed, Some(PastDue), Some(PastDue))]
  }

  /**
   The row ends renewed exactly when the debit did not throw, the renewed row was written, and
   nothing after it failed, or the save of the catch was lost too. A failed payment is counted
   exactly when something threw and the catch could save it.
   */
  lemma RenewedIff(both: Both, r: Row, wallet: string, x: Attempt, now: Instant, days: int)
    requires both.world.row == Some(r) != Some(WalletRenewedRow(r, now, days))
    ensures var after := Renewing(both, r, wallet, x, now, days).world;
            var debit := Debit(both.book, wallet, x);
            && (after.row == Some(WalletRenewedRow(r, now, days)) <==>
                  !debit.DebitThrew? && !x.row.Refused? && (Clean(both.book, wallet, x) || !x.recovered))
            && (FailureCounted(both.world, after) <==> !Clean(both.book, wallet, x) && x.recovered)
            && (FailureCounted(both.world, after) ==>
                  after.row == Some(ChargedRow(if debit.DebitThrew? then r else WalletRenewedRow(r, now, days), 1)))
            && (Clean(both.book, wallet, x) && !debit.FreeOfCharge? <==>
                  after.history == both.world.history + [PlainEvent(Renewed, Some(Active), Some(Active))])
  {
    hide RowOk, CanPay;
    var after := Renewing(both, r, wallet, x, now, days).world;
    var n := |both.world.history|;
    if |after.history| == n + 1 { assert after.history[n].kind.PaymentFailed? <==> !Clean(both.book, wallet, x); }
  }

  /**
   The brand has paid and its row counts a failed payment exactly when the debit committed and
   anything after the commit failed: its answer, the save of the row, or that of the event.
   */
  lemma PaidIntoArrearsIff(both: Both, r: Row, wallet: string, x: Attempt, now: Instant, days: int)
    requires both.world.row == Some(r) != Some(WalletRenewedRow(r, now, days))
    ensures var after := Renewing(both, r, wallet, x, now, days);
            Took(both.book, after.book, wallet, Amount(x)) && FailureCounted(both.world, after.world)
            <==> Pays(both.book, wallet, x) && x.recovered
                 && ((x.storage.Broke? && !x.storage.rolledBack) || !x.row.Accepted? || !x.eventSaved)
  {
    hide Renewing, RowOk, CanPay;
    RenewedIff(both, r, wallet, x, now, days);
    TakenIff(both.book, wallet, x);
    assert Renewing(both, r, wallet, x, now, days).book == BookAfter(both.book, wallet, x) by { RenewingMovesBook(both, r, wallet, x, now, days); }
  }

  lemma RenewingMovesBook(both: Both, r: Row, wallet: string, x: Attempt, now: Instant, days: int)
    ensures Renewing(both, r, wallet, x, now, days).book == BookAfter(both.book, wallet, x)
  {
  }

  /**
   The row is renewed with no money taken exactly when it is renewed and either the price looked up
   was 0 or missing, or an error of the debit was returned and the debit had not gone through.
   */
  lemma RenewedForNothingIff(both: Both, r: Row, wallet: string, x: Attempt, now: Instant, days: int)
    requires both.world.row == Some(r) != Some(WalletRenewedRow(r, now, days))
    ensures var after := Renewing(both, r, wallet, x, now, days);
            after.world.row == Some(WalletRenewedRow(r, now, days)) && after.book == both.book
            <==> !x.row.Refused? && (Clean(both.book, wallet, x) || !x.recovered)
                 && (x.price.UnwrapOr(0) == 0
                     || (x.storage.Broke? && x.storage.rolledBack && !(x.storage.committed && CanPay(both.book, wallet, x))))
  {
    hide Renewing, RowOk, CanPay;
    RenewedIff(both, r, wallet, x, now, days);
    TakenIff(both.book, wallet, x);
    RenewingMovesBook(both, r, wallet, x, now, days);
    if Pays(both.book, wallet, x) { assert |BookAfter(both.book, wallet, x).txs| != |both.book.txs|; }
  }

  // ---------------------------------------------------------------- the crons

  /** The pass of a cron takes this row and renews it from its wallet. */
  predicate TakesWalletRow(w: World, cfg: Config, a: Action) {
    && w.row.Some? && LifecycleTheorems.PaidByWallet(w.row.value)
    && var r := w.row.value;
       || (a.ConvertTrial? && DueTrial(r, a.at))
       || (a.Renew? && DueRenewal(r, a.at))
       || (a.Retry? && DueRetry(r) && r.retryCount < cfg.maxRetry && BackoffElapsed(r, a.lastAttempt, a.at))
  }

  /** Those rows are the renewing ones of a wallet: ended trials, live rows past their billing date, and retries that have waited. */
  lemma TakesWalletRowIff(w: World, cfg: Config, a: Action)
    requires w.row.Some? && (a.ConvertTrial? || a.Renew? || a.Retry?)
    ensures var r := w.row.value;
            var due := r.nextBillingDate.Some? && r.nextBillingDate.value < a.at;
            TakesWalletRow(w, cfg, a) <==>
              && r.provider.InternalWallet? && r.walletId.Some? && r.autoRenew
              && (a.ConvertTrial? ==> r.status.Trial? && due)
              && (a.Renew? ==> (r.status.Active? || r.status.PastDue?) && due)
              && (a.Retry? ==> r.status.PastDue? && r.retryCount < cfg.maxRetry && a.lastAttempt + (r.retryCount + 1) * 86_400_000 <= a.at)
  {
  }

  /** One pass of a cron over row and ledger: the step of the row, on what the wallet answers. */
  function Pass(both: Both, cfg: Config, a: Action, x: Attempt): Both {
    if !TakesWalletRow(both.world, cfg, a) then both
    else
      var wallet := both.world.row.value.walletId.value;
      Both(Step(both.world, cfg, a.(wallet := Reply(both.book, wallet, x), first := x.first)), BookAfter(both.book, wallet, x))
  }

  /** The three crons renew a row the wallet pays in exactly one way. */
  lemma CronsRenewFromWallet(both: Both, cfg: Config, a: Action, x: Attempt)
    requires TakesWalletRow(both.world, cfg, a)
    ensures var r := both.world.row.value;
            Pass(both, cfg, a, x) == Renewing(both, r, r.walletId.value, x, a.at, cfg.billingDays)
  {
    hide WalletRenewed, Asking, AskingThrows, IsRecurring, RowOk, Reply, BookAfter, DueTrial, DueRenewal, DueRetry, BackoffElapsed;
  }

  function Passes(both: Both, cfg: Config, run: seq<(Action, Attempt)>): Both
    decreases |run|
  {
    if run == [] then both else Passes(Pass(both, cfg, run[0].0, run[0].1), cfg, run[1..])
  }

  /** The renewals the history tells of. */
  function Told(history: seq<Event>): nat {
    if history == [] then 0
    else Told(history[..|history| - 1]) + (if history[|history| - 1].kind.Renewed? then 1 else 0)
  }

  lemma ToldOfAppended(history: seq<Event>, e: Event)
    ensures Told(history + [e]) == Told(history) + (if e.kind.Renewed? then 1 else 0)
  {
    assert (history + [e])[..|history|] == history;
  }

  /** A pass that takes money and tells of no renewal. */
  predicate Unearned(both: Both, cfg: Config, a: Action, x: Attempt) {
    TakesWalletRow(both.world, cfg, a) &&
    var wallet := both.world.row.value.walletId.value;
    Pays(both.book, wallet, x) && !Clean(both.book, wallet, x)
  }

  /** A pass that tells of a renewal and takes no money. */
  predicate Unpaid(both: Both, cfg: Config, a: Action, x: Attempt) {
    TakesWalletRow(both.world, cfg, a) &&
    var wallet := both.world.row.value.walletId.value;
    Amount(x) > 0 && !Pays(both.book, wallet, x) && Clean(both.book, wallet, x)
  }

  function CountUnearned(both: Both, cfg: Config, run: seq<(Action, Attempt)>): nat
    decreases |run|
  {
    if run == [] then 0
    else (if Unearned(both, cfg, run[0].0, run[0].1) then 1 else 0) + CountUnearned(Pass(both, cfg, run[0].0, run[0].1), cfg, run[1..])
  }

  function CountUnpaid(both: Both, cfg: Config, run: seq<(Action, Attempt)>): nat
    decreases |run|
  {
    if run == [] then 0
    else (if Unpaid(both, cfg, run[0].0, run[0].1) then 1 else 0) + CountUnpaid(Pass(both, cfg, run[0].0, run[0].1), cfg, run[1..])
  }

  lemma RenewingTells(both: Both, r: Row, wallet: string, x: Attempt, now: Instant, days: int)
    ensures Told(Renewing(both, r, wallet, x, now, days).world.history)
            == Told(both.world.history) + (if Amount(x) > 0 && Clean(both.book, wallet, x) then 1 else 0)
  {
    hide RowOk, CanPay, Told, WalletRenewedRow, ChargedRow;
    ToldOfAppended(both.world.history, PlainEvent(Renewed, Some(Active), Some(Active)));
    ToldOfAppended(both.world.history, PlainEvent(PaymentFailed, Some(PastDue), Some(PastDue)));
  }

  lemma PassBalances(both: Both, cfg: Config, a: Action, x: Attempt)
    ensures var after := Pass(both, cfg, a, x);
            |after.book.txs| + Told(both.world.history) + (if Unpaid(both, cfg, a, x) then 1 else 0)
            == |both.book.txs| + Told(after.world.history) + (if Unearned(both, cfg, a, x) then 1 else 0)
  {
    hide RowOk, CanPay, Told, Renewing, Pass;
    if TakesWalletRow(both.world, cfg, a) {
      var r := both.world.row.value;
      CronsRenewFromWallet(both, cfg, a, x);
      RenewingTells(both, r, r.walletId.value, x, a.at, cfg.billingDays);
      RenewingMovesBook(both, r, r.walletId.value, x, a.at, cfg.billingDays);
      TakenIff(both.book, r.walletId.value, x);
    } else {
      PassElsewhere(both, cfg, a, x);
    }
  }

  lemma PassElsewhere(both: Both, cfg: Config, a: Action, x: Attempt)
    requires !TakesWalletRow(both.world, cfg, a)
    ensures Pass(both, cfg, a, x) == both
  {
  }

  /**
   Over any run of the three crons, debits and renewals told differ by exactly the passes that took
   money and told of nothing, less those that told of a renewal and took none.
   */
  lemma {:induction false} DebitsMatchRenewals(both: Both, cfg: Config, run: seq<(Action, Attempt)>)
    ensures var after := Passes(both, cfg, run);
            (|after.book.txs| - |both.book.txs|) - (Told(after.world.history) - Told(both.world.history))
            == CountUnearned(both, cfg, run) - CountUnpaid(both, cfg, run)
    decreases |run|
  {
    hide Pass, Told, Unearned, Unpaid;
    if run != [] {
      PassBalances(both, cfg, run[0].0, run[0].1);
      DebitsMatchRenewals(Pass(both, cfg, run[0].0, run[0].1), cfg, run[1..]);
    }
  }

  // ---------------------------------------------------------------- paying again and again

  /** A debit that goes through, and a renewed row that then cannot be saved. */
  function SaveLost(price: nat): Attempt { Attempt(Some(price), Held, Accepted, Refused, true, true) }

  /** Retries two days apart, each of which loses the save of the row it has just charged for. */
  function LosingRetries(n: nat, price: nat, t: Instant): seq<(Action, Attempt)> {
    if n == 0 then []
    else [(Retry(t, Emitted, NO_FAILURE, Accepted, t + 2 * MS_PER_DAY), SaveLost(price))]
         + LosingRetries(n - 1, price, t + 2 * MS_PER_DAY)
  }

  predicate HoldsPrice(both: Both, wallet: string, price: nat) {
    price > 0 && wallet in both.book.wallets && both.book.wallets[wallet].status.Active? && both.book.wallets[wallet].balance >= price
  }

  /** What each of them does: money taken, and a row that will be retried as if it were the first time. */
  lemma LosingPass(both: Both, cfg: Config, a: Action, wallet: string, price: nat)
    requires TakesWalletRow(both.world, cfg, a) && both.world.row.value.walletId == Some(wallet) && HoldsPrice(both, wallet, price)
    ensures var after := Pass(both, cfg, a, SaveLost(price));
            var r := both.world.row.value;
            && after.world.row == Some(ChargedRow(WalletRenewedRow(r, a.at, cfg.billingDays), 1))
            && after.world.history == both.world.history + [PlainEvent(PaymentFailed, Some(PastDue), Some(PastDue))]
            && Took(both.book, after.book, wallet, price) && after.book.wallets[wallet].status.Active?
  {
    hide TakesWalletRow, Step, RowOk, WalletRenewedRow, ChargedRow;
    CronsRenewFromWallet(both, cfg, a, SaveLost(price));
  }

  /**
   While the saves after the debit are lost the retries never run out: the copy in memory had its
   count reset by the renewal that was not saved. Each pass pays again and no period is renewed.
   */
  lemma {:induction false} PaidAgainAndAgain(both: Both, cfg: Config, n: nat, wallet: string, price: nat, t: Instant)
    requires cfg.maxRetry > 1 && both.world.row.Some?
    requires var r := both.world.row.value;
             r.provider.InternalWallet? && r.walletId == Some(wallet) && r.status.PastDue? && r.autoRenew && r.retryCount <= 1
    requires price > 0 && wallet in both.book.wallets && both.book.wallets[wallet].status.Active?
    requires both.book.wallets[wallet].balance >= n * price
    ensures var after := Passes(both, cfg, LosingRetries(n, price, t));
            && |after.book.txs| == |both.book.txs| + n
            && wallet in after.book.wallets && after.book.wallets[wallet].balance == both.book.wallets[wallet].balance - n * price
            && Told(after.world.history) == Told(both.world.history)
            && after.world.row.Some? && after.world.row.value.status.PastDue? && after.world.row.value.retryCount <= 1
    decreases n
  {
    hide Pass, Told;
    if n > 0 {
      var run := LosingRetries(n, price, t);
      var a := run[0].0;
      assert run[1..] == LosingRetries(n - 1, price, t + 2 * MS_PER_DAY);
      assert n * price == (n - 1) * price + price;
      assert (n - 1) * price >= 0;
      LosingPass(both, cfg, a, wallet, price);
      ToldOfAppended(both.world.history, PlainEvent(PaymentFailed, Some(PastDue), Some(PastDue)));
      PaidAgainAndAgain(Pass(both, cfg, a, SaveLost(price)), cfg, n - 1, wallet, price, t + 2 * MS_PER_DAY);
    }
  }

  lemma UnearnedOnce(both: Both, mid: Both, cfg: Config, first: Action, second: Action, wallet: string, price: nat)
    requires TakesWalletRow(both.world, cfg, first) && both.world.row.value.walletId == Some(wallet) && HoldsPrice(both, wallet, price)
    requires mid.world.row.Some? && mid.world.row.value.walletId == Some(wallet) && HoldsPrice(mid, wallet, price)
    ensures Unearned(both, cfg, first, SaveLost(price))
    ensures var fine := Attempt(Some(price), Held, Accepted, Accepted, true, true);
            Clean(mid.book, wallet, fine) && !Unearned(mid, cfg, second, fine)
  {
    hide TakesWalletRow;
  }

  /** One period paid twice: a renewal that loses its save, and the retry two days later. */
  lemma PaidTwice(both: Both, cfg: Config, wallet: string, price: nat, now: Instant)
    requires cfg.maxRetry > 1 && both.world.row.Some? && DueRenewal(both.world.row.value, now)
    requires both.world.row.value.provider.InternalWallet? && both.world.row.value.walletId == Some(wallet)
    requires price > 0 && wallet in both.book.wallets && both.book.wallets[wallet].status.Active?
    requires both.book.wallets[wallet].balance >= 2 * price
    ensures var late := now + 2 * MS_PER_DAY;
            var run := [(Renew(ConfioWebhook.Unreachable, Emitted, NO_FAILURE, Accepted, Accepted, now), SaveLost(price)),
                        (Retry(now, Emitted, NO_FAILURE, Accepted, late), Attempt(Some(price), Held, Accepted, Accepted, true, true))];
            var after := Passes(both, cfg, run);
            && wallet in after.book.wallets && after.book.wallets[wallet].balance == both.book.wallets[wallet].balance - 2 * price
            && Told(after.world.history) == Told(both.world.history) + 1
            && CountUnearned(both, cfg, run) == 1
  {
    hide Pass, Told, CanPay;
    var late := now + 2 * MS_PER_DAY;
    var first := Renew(ConfioWebhook.Unreachable, Emitted, NO_FAILURE, Accepted, Accepted, now);
    var second := Retry(now, Emitted, NO_FAILURE, Accepted, late);
    var fine := Attempt(Some(price), Held, Accepted, Accepted, true, true);
    LosingPass(both, cfg, first, wallet, price);
    var mid := Pass(both, cfg, first, SaveLost(price));
    ToldOfAppended(both.world.history, PlainEvent(PaymentFailed, Some(PastDue), Some(PastDue)));
    CronsRenewFromWallet(mid, cfg, second, fine);
    RenewingTells(mid, mid.world.row.value, wallet, fine, late, cfg.billingDays);
    var done := Pass(mid, cfg, second, fine);
    assert [(first, SaveLost(price)), (second, fine)][1..] == [(second, fine)];
    assert [(second, fine)][1..] == [];
    assert Passes(mid, cfg, [(second, fine)]) == done;
    UnearnedOnce(both, mid, cfg, first, second, wallet, price);
    assert CountUnearned(mid, cfg, [(second, fine)]) == 0;
  }

  // ---------------------------------------------------------------- paying nothing

  /** Even a wallet with nothing in it renews a plan that costs something, if storage fails inside the debit. */
  lemma EmptyWalletRenews(both: Both, cfg: Config, wallet: string, price: nat, now: Instant)
    requires both.world.row.Some? && DueRenewal(both.world.row.value, now)
    requires both.world.row.value.provider.InternalWallet? && both.world.row.value.walletId == Some(wallet)
    requires wallet in both.book.wallets && both.book.wallets[wallet].balance == 0 && price > 0
    ensures var x := Attempt(Some(price), Broke(false, true), Accepted, Accepted, true, true);
            var after := Pass(both, cfg, Renew(ConfioWebhook.Unreachable, Emitted, NO_FAILURE, Accepted, Accepted, now), x);
            && !CanPay(both.book, wallet, x) && after.book == both.book
            && after.world.row.Some? && after.world.row.value.status.Active?
            && after.world.row.value.nextBillingDate == Some(now + cfg.billingDays * MS_PER_DAY)
  {
    hide Step, RowOk;
    var x := Attempt(Some(price), Broke(false, true), Accepted, Accepted, true, true);
    CronsRenewFromWallet(both, cfg, Renew(ConfioWebhook.Unreachable, Emitted, NO_FAILURE, Accepted, Accepted, now), x);
  }

  /** And so does any wallet, with storage holding, while `backend-roles` is down and no price is cached. */
  lemma OutageRenews(both: Both, cfg: Config, plan: string, now: Instant)
    requires both.world.row.Some? && DueRenewal(both.world.row.value, now) && LifecycleTheorems.PaidByWallet(both.world.row.value)
    ensures var x := Attempt(GetPlanPrice(None, None, plan, now), Held, Accepted, Accepted, true, true);
            var after := Pass(both, cfg, Renew(ConfioWebhook.Unreachable, Emitted, NO_FAILURE, Accepted, Accepted, now), x);
            && after.book == both.book
            && after.world.row.Some? && after.world.row.value.status.Active?
            && after.world.row.value.nextBillingDate == Some(now + cfg.billingDays * MS_PER_DAY)
  {
    hide Step, RowOk;
    var x := Attempt(GetPlanPrice(None, None, plan, now), Held, Accepted, Accepted, true, true);
    CronsRenewFromWallet(both, cfg, Renew(ConfioWebhook.Unreachable, Emitted, NO_FAILURE, Accepted, Accepted, now), x);
  }
}
