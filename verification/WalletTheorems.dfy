/** What the ledger keeps over any sequence of operations, and what an unlocked save can cost it. */
module WalletTheorems {
  import opened Basics
  import opened Wallets

  // ---------------------------------------------------------------- the ledger

  /** The balance a wallet's latest movement left, 0 before the first. */
  function LastAfter(txs: seq<Tx>, id: string): int {
    if txs == [] then 0
    else if txs[|txs| - 1].wallet == id then txs[|txs| - 1].balanceAfter
    else LastAfter(txs[..|txs| - 1], id)
  }

  /** Each movement starts from the balance the previous one of its wallet left, and moves it by its amount. */
  predicate Chained(txs: seq<Tx>) {
    forall i :: 0 <= i < |txs| ==>
      && txs[i].balanceBefore == LastAfter(txs[..i], txs[i].wallet)
      && txs[i].balanceAfter == txs[i].balanceBefore + (if txs[i].kind.Credit? then txs[i].amount else -txs[i].amount)
  }

  predicate Solvent(w: Wallet) { w.balance >= 0 && (w.status.Closed? ==> w.balance == 0) }

  /** Every wallet's balance is what its ledger says, every movement is of a wallet, and the chain is whole. */
  ghost predicate LedgerOk(b: Book) {
    && Chained(b.txs)
    && (forall i :: 0 <= i < |b.txs| ==> b.txs[i].wallet in b.wallets)
    && (forall id :: id in b.wallets ==> b.wallets[id].balance == LastAfter(b.txs, id))
  }

  ghost predicate AllSolvent(b: Book) { forall id :: id in b.wallets ==> Solvent(b.wallets[id]) }

  /** What the service's callers pass; `transfer` checks its own amount. */
  predicate Positive(op: Op) {
    (op.CreditOf? ==> op.amount > 0) && (op.DebitOf? ==> op.amount > 0)
  }

  lemma AppendedLast(txs: seq<Tx>, tx: Tx, id: string)
    ensures LastAfter(txs + [tx], id) == if tx.wallet == id then tx.balanceAfter else LastAfter(txs, id)
  {
    assert (txs + [tx])[..|txs|] == txs;
  }

  lemma AppendedChain(txs: seq<Tx>, tx: Tx)
    requires Chained(txs) && tx.balanceBefore == LastAfter(txs, tx.wallet)
    requires tx.balanceAfter == tx.balanceBefore + (if tx.kind.Credit? then tx.amount else -tx.amount)
    ensures Chained(txs + [tx])
  {
    var all := txs + [tx];
    forall i | 0 <= i < |all|
      ensures all[i].balanceBefore == LastAfter(all[..i], all[i].wallet)
      ensures all[i].balanceAfter == all[i].balanceBefore + (if all[i].kind.Credit? then all[i].amount else -all[i].amount)
    {
      assert all[..i] == txs[..i];
      if i == |txs| { assert txs[..i] == txs; }
    }
  }

  lemma PostingKeepsLedger(b: Book, id: string, kind: Kind, amount: int)
    requires LedgerOk(b) && id in b.wallets
    ensures LedgerOk(Posted(b, id, kind, amount))
  {
    hide Chained;
    var after := Posted(b, id, kind, amount);
    var tx := after.txs[|b.txs|];
    AppendedChain(b.txs, tx);
    forall other | other in after.wallets ensures after.wallets[other].balance == LastAfter(after.txs, other) {
      AppendedLast(b.txs, tx, other);
    }
  }

  lemma CreatingKeepsLedger(b: Book, op: Op)
    requires op.Create? && LedgerOk(b)
    ensures LedgerOk(Perform(b, op))
  {
    hide Chained;
    if Check(b, op).Done? { UntouchedHasNoLast(b, op.id); }
  }

  lemma {:induction false} NoMovementNoBalance(txs: seq<Tx>, id: string)
    requires forall i :: 0 <= i < |txs| ==> txs[i].wallet != id
    ensures LastAfter(txs, id) == 0
  {
    if txs != [] { NoMovementNoBalance(txs[..|txs| - 1], id); }
  }

  lemma UntouchedHasNoLast(b: Book, id: string)
    requires LedgerOk(b) && id !in b.wallets
    ensures LastAfter(b.txs, id) == 0
  {
    forall i | 0 <= i < |b.txs| ensures b.txs[i].wallet != id { assert b.txs[i].wallet in b.wallets; }
    NoMovementNoBalance(b.txs, id);
  }

  lemma StepKeepsLedger(b: Book, op: Op)
    requires LedgerOk(b)
    ensures LedgerOk(Perform(b, op))
  {
    hide Chained, Posted, WalletsOf;
    if Check(b, op).Done? {
      match op {
        case CreditOf(id, amount) => PostingKeepsLedger(b, id, Credit, amount);
        case DebitOf(id, amount, _) => PostingKeepsLedger(b, id, Debit, amount);
        case TransferOf(from, to, amount) =>
          PostingKeepsLedger(b, from, Debit, amount);
          PostingKeepsWallets(b, from, Debit, amount);
          PostingKeepsLedger(Posted(b, from, Debit, amount), to, Credit, amount);
        case Create(_, _, _, _) => CreatingKeepsLedger(b, op);
        case _ =>
      }
    }
  }

  lemma PostingKeepsWallets(b: Book, id: string, kind: Kind, amount: int)
    requires id in b.wallets
    ensures Posted(b, id, kind, amount).wallets.Keys == b.wallets.Keys
  {
  }

  lemma StepKeepsSolvent(b: Book, op: Op)
    requires AllSolvent(b) && Positive(op)
    ensures AllSolvent(Perform(b, op))
  {
    hide WalletsOf;
  }

  /** The last balance of a whole chain is completed credits less completed debits. */
  lemma {:induction false} ChainSumsUp(txs: seq<Tx>, id: string)
    requires Chained(txs)
    ensures LastAfter(txs, id) == Net(txs, id)
  {
    if txs != [] {
      var rest := txs[..|txs| - 1];
      assert forall i :: 0 <= i < |rest| ==> rest[..i] == txs[..i];
      ChainSumsUp(rest, id);
      assert txs[|txs| - 1].balanceBefore == LastAfter(rest, txs[|txs| - 1].wallet);
    }
  }

  lemma {:induction false} LedgerHolds(b: Book, ops: seq<Op>)
    requires LedgerOk(b)
    ensures LedgerOk(PerformAll(b, ops))
    decreases |ops|
  {
    hide LedgerOk, Perform;
    if ops != [] {
      StepKeepsLedger(b, ops[0]);
      LedgerHolds(Perform(b, ops[0]), ops[1..]);
    }
  }

  lemma {:induction false} SolvencyHolds(b: Book, ops: seq<Op>)
    requires AllSolvent(b) && forall i :: 0 <= i < |ops| ==> Positive(ops[i])
    ensures AllSolvent(PerformAll(b, ops))
    decreases |ops|
  {
    hide AllSolvent, Perform;
    if ops != [] {
      StepKeepsSolvent(b, ops[0]);
      SolvencyHolds(Perform(b, ops[0]), ops[1..]);
    }
  }

  /**
   From an empty book, whatever is asked of it and however much is refused: every balance is its
   ledger's sum, so the reconciliation finds nothing; every movement continues the last; and with
   positive amounts no balance is ever negative, nor a closed wallet's anything but 0.
   */
  lemma LedgerTheorem(ops: seq<Op>, id: string)
    requires id in PerformAll(Book(map[], []), ops).wallets
    ensures var b := PerformAll(Book(map[], []), ops);
            && Chained(b.txs) && b.wallets[id].balance == Net(b.txs, id)
            && ((forall i :: 0 <= i < |ops| ==> Positive(ops[i])) ==> Solvent(b.wallets[id]))
  {
    var empty := Book(map[], []);
    LedgerHolds(empty, ops);
    ChainSumsUp(PerformAll(empty, ops).txs, id);
    if forall i :: 0 <= i < |ops| ==> Positive(ops[i]) { SolvencyHolds(empty, ops); }
  }

  /** `credit` does not look at its amount, so a credit keeps its wallet solvent exactly above this. */
  lemma CreditKeepsSolventIff(b: Book, id: string, amount: int)
    requires AllSolvent(b) && Check(b, CreditOf(id, amount)).Done?
    ensures AllSolvent(Perform(b, CreditOf(id, amount))) <==> amount >= -b.wallets[id].balance
  {
    var after := Perform(b, CreditOf(id, amount));
    assert id in after.wallets && after.wallets[id].balance == b.wallets[id].balance + amount;
  }

  // ---------------------------------------------------------------- who has which wallets

  /** No brand has more than ten wallets, nor two with one provider in one currency. */
  ghost predicate RosterOk(b: Book) {
    && (forall brand :: |WalletsOf(b.wallets, brand)| <= 10)
    && (forall i, j :: i in b.wallets && j in b.wallets && i != j ==>
          b.wallets[i].brand != b.wallets[j].brand || b.wallets[i].provider != b.wallets[j].provider
          || b.wallets[i].currency != b.wallets[j].currency)
  }

  predicate SameOwners(a: map<string, Wallet>, b: map<string, Wallet>) {
    a.Keys == b.Keys
    && forall id :: id in a ==> a[id].brand == b[id].brand && a[id].provider == b[id].provider && a[id].currency == b[id].currency
  }

  lemma SameOwnersSameRoster(a: Book, b: Book)
    requires RosterOk(a) && SameOwners(a.wallets, b.wallets)
    ensures RosterOk(b)
  {
    forall brand ensures |WalletsOf(b.wallets, brand)| <= 10 { assert WalletsOf(b.wallets, brand) == WalletsOf(a.wallets, brand); }
  }

  /** A wallet is created, empty and active, exactly when it is its brand's eleventh no more and the first of its kind. */
  lemma CreatedIff(b: Book, id: string, brand: string, provider: string, currency: string)
    requires RosterOk(b) && id !in b.wallets
    ensures var after := Perform(b, Create(id, brand, provider, currency));
            var twin := exists other :: other in b.wallets && b.wallets[other].brand == brand
                                        && b.wallets[other].provider == provider && b.wallets[other].currency == currency;
            && (id in after.wallets <==> |WalletsOf(b.wallets, brand)| < 10 && !twin)
            && (id in after.wallets ==> after == b.(wallets := b.wallets[id := Wallet(brand, provider, currency, 0, Active)]))
            && (id !in after.wallets ==> after == b)
  {
    hide WalletsOf;
  }

  lemma WalletsAfterCreation(b: Book, op: Op, brand: string)
    requires op.Create? && Check(b, op).Done?
    ensures WalletsOf(Perform(b, op).wallets, brand)
            == if brand == op.brand then WalletsOf(b.wallets, brand) + {op.id} else WalletsOf(b.wallets, brand)
  {
  }

  lemma NoTwinCreated(b: Book, op: Op)
    requires op.Create? && Check(b, op).Done?
    ensures forall i :: i in b.wallets ==>
              b.wallets[i].brand != op.brand || b.wallets[i].provider != op.provider || b.wallets[i].currency != op.currency
    ensures op.id !in b.wallets && |WalletsOf(b.wallets, op.brand)| < 10
    ensures Perform(b, op).wallets == b.wallets[op.id := Wallet(op.brand, op.provider, op.currency, 0, Active)]
  {
    hide WalletsOf;
  }

  lemma CreatingKeepsRoster(b: Book, op: Op)
    requires RosterOk(b) && op.Create?
    ensures RosterOk(Perform(b, op))
  {
    hide WalletsOf, Perform, Check;
    if Perform(b, op) != b { CreationIsDone(b, op); } else { return; }
    NoTwinCreated(b, op);
    var after := Perform(b, op);
    forall brand ensures |WalletsOf(after.wallets, brand)| <= 10 { WalletsAfterCreation(b, op, brand); }
  }

  lemma CreationIsDone(b: Book, op: Op)
    requires Perform(b, op) != b
    ensures Check(b, op).Done?
  {
    hide Check;
  }

  lemma OthersKeepOwners(b: Book, op: Op)
    requires !op.Create?
    ensures SameOwners(b.wallets, Perform(b, op).wallets)
  {
    hide WalletsOf;
  }

  /** Whatever is asked of it, a book never has an eleventh wallet of a brand, nor two of a kind. */
  lemma {:induction false} RosterHolds(b: Book, ops: seq<Op>)
    requires RosterOk(b)
    ensures RosterOk(PerformAll(b, ops))
    decreases |ops|
  {
    if ops != [] {
      hide RosterOk, Perform;
      if ops[0].Create? {
        CreatingKeepsRoster(b, ops[0]);
      } else {
        OthersKeepOwners(b, ops[0]);
        SameOwnersSameRoster(b, Perform(b, ops[0]));
      }
      RosterHolds(Perform(b, ops[0]), ops[1..]);
    }
  }

  // ---------------------------------------------------------------- transfers conserve

  function Share(w: Wallet, brand: string, currency: string): int {
    if w.brand == brand && w.currency == currency then w.balance else 0
  }

  /** All that a brand holds in one currency. */
  ghost function Total(wallets: map<string, Wallet>, ids: set<string>, brand: string, currency: string): int
    requires ids <= wallets.Keys
    decreases |ids|
  {
    if ids == {} then 0
    else
      var id :| id in ids;
      Share(wallets[id], brand, currency) + Total(wallets, ids - {id}, brand, currency)
  }

  lemma {:induction false} TotalTakes(wallets: map<string, Wallet>, ids: set<string>, x: string, brand: string, currency: string)
    requires ids <= wallets.Keys && x in ids
    ensures Total(wallets, ids, brand, currency)
            == Share(wallets[x], brand, currency) + Total(wallets, ids - {x}, brand, currency)
    decreases |ids|
  {
    var id :| id in ids && Total(wallets, ids, brand, currency)
                          == Share(wallets[id], brand, currency) + Total(wallets, ids - {id}, brand, currency);
    if id != x {
      TotalTakes(wallets, ids - {id}, x, brand, currency);
      TotalTakes(wallets, ids - {x}, id, brand, currency);
      assert ids - {id} - {x} == ids - {x} - {id};
    }
  }

  lemma {:induction false} TotalOfSame(a: map<string, Wallet>, b: map<string, Wallet>, ids: set<string>, brand: string, currency: string)
    requires ids <= a.Keys && ids <= b.Keys
    requires forall id :: id in ids ==> Share(a[id], brand, currency) == Share(b[id], brand, currency)
    ensures Total(a, ids, brand, currency) == Total(b, ids, brand, currency)
    decreases |ids|
  {
    if ids != {} {
      var id :| id in ids;
      TotalTakes(a, ids, id, brand, currency);
      TotalTakes(b, ids, id, brand, currency);
      TotalOfSame(a, b, ids - {id}, brand, currency);
    }
  }

  ghost function Holdings(b: Book, brand: string, currency: string): int {
    Total(b.wallets, b.wallets.Keys, brand, currency)
  }

  lemma PostingMovesHoldings(b: Book, id: string, kind: Kind, amount: int, brand: string, currency: string)
    requires id in b.wallets
    ensures Holdings(Posted(b, id, kind, amount), brand, currency)
            == Holdings(b, brand, currency)
               + (if b.wallets[id].brand != brand || b.wallets[id].currency != currency then 0
                  else if kind.Credit? then amount else -amount)
  {
    var after := Posted(b, id, kind, amount);
    assert after.wallets.Keys == b.wallets.Keys;
    TotalTakes(b.wallets, b.wallets.Keys, id, brand, currency);
    TotalTakes(after.wallets, b.wallets.Keys, id, brand, currency);
    TotalOfSame(b.wallets, after.wallets, b.wallets.Keys - {id}, brand, currency);
  }

  /** What an operation brings in from outside the book: credits in, debits out, transfers nothing. */
  function Inflow(b: Book, op: Op, brand: string, currency: string): int {
    if !Check(b, op).Done? then 0
    else match op
      case CreditOf(id, amount) =>
        if b.wallets[id].brand == brand && b.wallets[id].currency == currency then amount else 0
      case DebitOf(id, amount, _) =>
        if b.wallets[id].brand == brand && b.wallets[id].currency == currency then -amount else 0
      case _ => 0
  }

  function Inflows(b: Book, ops: seq<Op>, brand: string, currency: string): int
    decreases |ops|
  {
    if ops == [] then 0 else Inflow(b, ops[0], brand, currency) + Inflows(Perform(b, ops[0]), ops[1..], brand, currency)
  }

  lemma StatusMovesNothing(b: Book, id: string, status: WalletStatus, brand: string, currency: string)
    requires id in b.wallets
    ensures Holdings(WithStatus(b, id, status), brand, currency) == Holdings(b, brand, currency)
  {
    var after := WithStatus(b, id, status);
    assert after.wallets.Keys == b.wallets.Keys;
    TotalOfSame(b.wallets, after.wallets, b.wallets.Keys, brand, currency);
  }

  lemma CreatingMovesNothing(b: Book, op: Op, brand: string, currency: string)
    requires op.Create?
    ensures Holdings(Perform(b, op), brand, currency) == Holdings(b, brand, currency)
  {
    if Check(b, op).Done? {
      var after := Perform(b, op);
      assert after.wallets.Keys == b.wallets.Keys + {op.id};
      TotalTakes(after.wallets, after.wallets.Keys, op.id, brand, currency);
      assert after.wallets.Keys - {op.id} == b.wallets.Keys;
      TotalOfSame(b.wallets, after.wallets, b.wallets.Keys, brand, currency);
    }
  }

  lemma StepConserves(b: Book, op: Op, brand: string, currency: string)
    ensures Holdings(Perform(b, op), brand, currency) == Holdings(b, brand, currency) + Inflow(b, op, brand, currency)
  {
    hide Holdings, WalletsOf;
    if Check(b, op).Done? {
      match op {
        case CreditOf(id, amount) => PostingMovesHoldings(b, id, Credit, amount, brand, currency);
        case DebitOf(id, amount, _) => PostingMovesHoldings(b, id, Debit, amount, brand, currency);
        case TransferOf(from, to, amount) =>
          PostingMovesHoldings(b, from, Debit, amount, brand, currency);
          PostingMovesHoldings(Posted(b, from, Debit, amount), to, Credit, amount, brand, currency);
        case Freeze(id) => StatusMovesNothing(b, id, Frozen, brand, currency);
        case Unfreeze(id) => StatusMovesNothing(b, id, Active, brand, currency);
        case Close(id) => StatusMovesNothing(b, id, Closed, brand, currency);
        case Create(_, _, _, _) => CreatingMovesNothing(b, op, brand, currency);
      }
    }
  }

  /** Over any run a brand's money in a currency moves by exactly what was credited less debited. */
  lemma {:induction false} RunConserves(b: Book, ops: seq<Op>, brand: string, currency: string)
    ensures Holdings(PerformAll(b, ops), brand, currency) == Holdings(b, brand, currency) + Inflows(b, ops, brand, currency)
    decreases |ops|
  {
    hide Holdings, Perform, Inflow;
    if ops != [] {
      StepConserves(b, ops[0], brand, currency);
      RunConserves(Perform(b, ops[0]), ops[1..], brand, currency);
    }
  }

  // ---------------------------------------------------------------- the save that takes no lock

  /** `freeze`, `unfreeze` and `close` save the whole row they read, whatever landed in between. */
  function StaleSave(b: Book, id: string, copy: Wallet, status: WalletStatus): Book {
    b.(wallets := b.wallets[id := copy.(status := status)])
  }

  lemma {:induction false} WalletsStay(b: Book, ops: seq<Op>, id: string)
    requires id in b.wallets
    ensures id in PerformAll(b, ops).wallets
    decreases |ops|
  {
    hide WalletsOf;
    if ops != [] { WalletsStay(Perform(b, ops[0]), ops[1..], id); }
  }

  lemma SavedOverKeepsLedgerIff(now: Book, id: string, copy: Wallet, status: WalletStatus)
    requires LedgerOk(now) && id in now.wallets
    ensures LedgerOk(StaleSave(now, id, copy, status)) <==> now.wallets[id].balance == copy.balance
  {
    hide Chained, LastAfter;
    var saved := StaleSave(now, id, copy, status);
    assert saved.wallets[id].balance == copy.balance;
  }

  /**
   Such a save keeps the ledger exactly when the wallet's balance did not move between its read and
   its write; otherwise it undoes whatever moved, and balance and ledger are apart by exactly that.
   */
  lemma StaleSaveKeepsLedgerIff(b: Book, between: seq<Op>, id: string, status: WalletStatus)
    requires LedgerOk(b) && id in b.wallets
    ensures var now := PerformAll(b, between);
            var saved := StaleSave(now, id, b.wallets[id], status);
            && id in now.wallets && id in saved.wallets
            && (LedgerOk(saved) <==> now.wallets[id].balance == b.wallets[id].balance)
            && Net(saved.txs, id) - saved.wallets[id].balance == now.wallets[id].balance - b.wallets[id].balance
  {
    hide PerformAll, Chained, LastAfter, Net;
    WalletsStay(b, between, id);
    LedgerHolds(b, between);
    var now := PerformAll(b, between);
    ChainSumsUp(now.txs, id);
    SavedOverKeepsLedgerIff(now, id, b.wallets[id], status);
  }

  /** One credit landing in that window is money received and gone. */
  lemma FreezeCanLoseCredit(b: Book, id: string, amount: int)
    requires LedgerOk(b) && id in b.wallets && b.wallets[id].status.Active? && amount > 0
    ensures var now := PerformAll(b, [CreditOf(id, amount)]);
            var saved := StaleSave(now, id, b.wallets[id], Frozen);
            && id in now.wallets && now.wallets[id].balance == b.wallets[id].balance + amount
            && saved.wallets[id].balance == b.wallets[id].balance && !LedgerOk(saved)
  {
    assert [CreditOf(id, amount)][1..] == [];
    assert PerformAll(b, [CreditOf(id, amount)]) == Perform(b, CreditOf(id, amount));
    StaleSaveKeepsLedgerIff(b, [CreditOf(id, amount)], id, Frozen);
  }

  // ---------------------------------------------------------------- when the reconciliation sees it

  /** How much more the ledger says than the balance. */
  function Drift(b: Book, id: string): int
    requires id in b.wallets
  {
    Net(b.txs, id) - b.wallets[id].balance
  }

  /** The daily pass looks at active wallets only. */
  predicate Detected(b: Book, id: string) {
    id in b.wallets && b.wallets[id].status.Active? && Drift(b, id) != 0
  }

  lemma AppendedNet(txs: seq<Tx>, tx: Tx, id: string)
    ensures Net(txs + [tx], id)
            == Net(txs, id) + (if tx.wallet != id then 0 else if tx.kind.Credit? then tx.amount else -tx.amount)
  {
    assert (txs + [tx])[..|txs|] == txs;
  }

  lemma PostingKeepsDrift(b: Book, id: string, kind: Kind, amount: int, other: string)
    requires id in b.wallets && other in b.wallets
    ensures other in Posted(b, id, kind, amount).wallets && Drift(Posted(b, id, kind, amount), other) == Drift(b, other)
  {
    hide Net;
    AppendedNet(b.txs, Posted(b, id, kind, amount).txs[|b.txs|], other);
  }

  lemma StepKeepsDrift(b: Book, op: Op, id: string)
    requires id in b.wallets
    ensures id in Perform(b, op).wallets && Drift(Perform(b, op), id) == Drift(b, id)
  {
    hide Net, WalletsOf, Posted;
    if Check(b, op).Done? {
      match op {
        case CreditOf(x, amount) => PostingKeepsDrift(b, x, Credit, amount, id);
        case DebitOf(x, amount, _) => PostingKeepsDrift(b, x, Debit, amount, id);
        case TransferOf(from, to, amount) =>
          PostingKeepsDrift(b, from, Debit, amount, id);
          PostingKeepsDrift(b, from, Debit, amount, to);
          PostingKeepsDrift(Posted(b, from, Debit, amount), to, Credit, amount, id);
        case _ =>
      }
    }
  }

  /** No operation ever brings a balance and its ledger together again, nor further apart. */
  lemma {:induction false} DriftIsKept(b: Book, ops: seq<Op>, id: string)
    requires id in b.wallets
    ensures id in PerformAll(b, ops).wallets && Drift(PerformAll(b, ops), id) == Drift(b, id)
    decreases |ops|
  {
    hide Drift, Perform;
    if ops != [] {
      StepKeepsDrift(b, ops[0], id);
      DriftIsKept(Perform(b, ops[0]), ops[1..], id);
    }
  }
}
