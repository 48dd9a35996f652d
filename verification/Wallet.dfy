/**
 Wallets in integer cents and their double-entry ledger: `src/wallet/wallet.service.ts`, and the
 daily reconciliation of `src/tasks/tasks.service.ts`.

 Each operation is one database transaction, so a storage error leaves the book as it was; `freeze`,
 `unfreeze` and `close` read and save without a lock, which `WalletTheorems` takes apart.
 */
module Wallets {
  import opened Basics

  datatype WalletStatus = Active | Frozen | Closed

  datatype Wallet = Wallet(brand: string, provider: string, currency: string, balance: int, status: WalletStatus)

  datatype Kind = Credit | Debit

  datatype Tx = Tx(wallet: string, kind: Kind, amount: int, balanceBefore: int, balanceAfter: int)

  datatype Book = Book(wallets: map<string, Wallet>, txs: seq<Tx>)

  datatype Op =
    | CreditOf(id: string, amount: int)
    | DebitOf(id: string, amount: int, expectedCurrency: Option<string>)
    | TransferOf(from: string, to: string, amount: int)
    | Freeze(id: string)
    | Unfreeze(id: string)
    | Close(id: string)
    | Create(id: string, brand: string, provider: string, currency: string)

  datatype Verdict =
    | Done
    | NotFound
    | WalletClosed
    | WalletFrozen
    | NotFrozen
    | CurrencyMismatch
    | InsufficientBalance
    | SameWallet
    | InvalidAmount
    | DifferentBrand
    | DifferentCurrency
    | NotActive
    | HasBalance
    | MaxWallets
    | Duplicate

  const MAX_WALLETS: int := 10

  function WalletsOf(wallets: map<string, Wallet>, brand: string): set<string> {
    set id | id in wallets && wallets[id].brand == brand
  }

  /** The first rule an operation breaks, in the order the code checks them. */
  function Check(b: Book, op: Op): Verdict {
    match op
    case CreditOf(id, _) =>
      if id !in b.wallets then NotFound else if b.wallets[id].status.Closed? then WalletClosed else Done
    case DebitOf(id, amount, expected) =>
      if id !in b.wallets then NotFound
      else
        var w := b.wallets[id];
        if expected.Some? && expected.value != "" && w.currency != expected.value then CurrencyMismatch
        else if w.status.Frozen? then WalletFrozen
        else if w.status.Closed? then WalletClosed
        else if w.balance - amount < 0 then InsufficientBalance
        else Done
    case TransferOf(from, to, amount) =>
      if from == to then SameWallet
      else if amount <= 0 then InvalidAmount
      else if from !in b.wallets || to !in b.wallets then NotFound
      else
        var f, t := b.wallets[from], b.wallets[to];
        if f.brand != t.brand then DifferentBrand
        else if f.currency != t.currency then DifferentCurrency
        else if !f.status.Active? then NotActive
        else if t.status.Closed? then WalletClosed
        else if f.balance < amount then InsufficientBalance
        else Done
    case Freeze(id) =>
      if id !in b.wallets then NotFound else if b.wallets[id].status.Closed? then WalletClosed else Done
    case Unfreeze(id) =>
      if id !in b.wallets then NotFound else if !b.wallets[id].status.Frozen? then NotFrozen else Done
    case Close(id) =>
      if id !in b.wallets then NotFound else if b.wallets[id].balance != 0 then HasBalance else Done
    case Create(id, brand, provider, currency) =>
      if |WalletsOf(b.wallets, brand)| >= MAX_WALLETS then MaxWallets
      else if id in b.wallets
              || exists other :: other in b.wallets && b.wallets[other].brand == brand
                                 && b.wallets[other].provider == provider && b.wallets[other].currency == currency
      then Duplicate
      else Done
  }

  function Posted(b: Book, id: string, kind: Kind, amount: int): Book
    requires id in b.wallets
  {
    var w := b.wallets[id];
    var after := if kind.Credit? then w.balance + amount else w.balance - amount;
    Book(b.wallets[id := w.(balance := after)], b.txs + [Tx(id, kind, amount, w.balance, after)])
  }

  function WithStatus(b: Book, id: string, status: WalletStatus): Book
    requires id in b.wallets
  {
    b.(wallets := b.wallets[id := b.wallets[id].(status := status)])
  }

  function Perform(b: Book, op: Op): Book {
    if !Check(b, op).Done? then b
    else match op
      case CreditOf(id, amount) => Posted(b, id, Credit, amount)
      case DebitOf(id, amount, _) => Posted(b, id, Debit, amount)
      case TransferOf(from, to, amount) => Posted(Posted(b, from, Debit, amount), to, Credit, amount)
      case Freeze(id) => WithStatus(b, id, Frozen)
      case Unfreeze(id) => WithStatus(b, id, Active)
      case Close(id) => WithStatus(b, id, Closed)
      case Create(id, brand, provider, currency) =>
        b.(wallets := b.wallets[id := Wallet(brand, provider, currency, 0, Active)])
  }

  function PerformAll(b: Book, ops: seq<Op>): Book
    decreases |ops|
  {
    if ops == [] then b else PerformAll(Perform(b, ops[0]), ops[1..])
  }

  /** Completed credits minus completed debits of one wallet, as the reconciliation sums them. */
  function Net(txs: seq<Tx>, id: string): int {
    if txs == [] then 0
    else
      var last := txs[|txs| - 1];
      Net(txs[..|txs| - 1], id)
      + (if last.wallet != id then 0 else if last.kind.Credit? then last.amount else -last.amount)
  }

  function Count(txs: seq<Tx>, id: string): nat {
    if txs == [] then 0
    else Count(txs[..|txs| - 1], id) + (if txs[|txs| - 1].wallet == id then 1 else 0)
  }

  // ---------------------------------------------------------------- the service

  /** JavaScript's `<` on strings. */
  predicate Less(a: string, b: string) {
    if b == [] then false
    else if a == [] then true
    else if a[0] != b[0] then a[0] < b[0]
    else Less(a[1..], b[1..])
  }

  datatype Snapshot = Snapshot(wallet: string, balance: int, calculated: int, count: nat, isConsistent: bool)

  function Inconsistent(snapshots: seq<Snapshot>): nat {
    if snapshots == [] then 0
    else Inconsistent(snapshots[..|snapshots| - 1]) + (if snapshots[|snapshots| - 1].isConsistent then 0 else 1)
  }

  lemma OneMoreSnapshot(snapshots: seq<Snapshot>, s: Snapshot)
    ensures Inconsistent(snapshots + [s]) == Inconsistent(snapshots) + (if s.isConsistent then 0 else 1)
  {
    assert (snapshots + [s])[..|snapshots|] == snapshots;
  }

  class WalletService {
    var wallets: map<string, Wallet>
    var txs: seq<Tx>

    constructor ()
      ensures Value() == Book(map[], [])
    {
      wallets := map[];
      txs := [];
    }

    function Value(): Book
      reads this
    {
      Book(wallets, txs)
    }

    method Post(id: string, kind: Kind, amount: int, before: int, after: int)
      modifies this`txs
      ensures txs == old(txs) + [Tx(id, kind, amount, before, after)]
    {
      txs := txs + [Tx(id, kind, amount, before, after)];
    }

    /** Ten wallets a brand, one for each provider and currency, the second by the unique index. */
    method CreateWallet(id: string, brand: string, provider: string, currency: string) returns (v: Verdict)
      modifies this`wallets
      ensures v == Check(old(Value()), Create(id, brand, provider, currency))
      ensures Value() == Perform(old(Value()), Create(id, brand, provider, currency))
    {
      var count := |set x | x in wallets && wallets[x].brand == brand|;
      if count >= 10 { return MaxWallets; }
      var kinds := set x | x in wallets :: (wallets[x].brand, wallets[x].provider, wallets[x].currency);
      if id in wallets || (brand, provider, currency) in kinds { return Duplicate; }
      wallets := wallets[id := Wallet(brand, provider, currency, 0, Active)];
      v := Done;
    }

    method CreditWallet(id: string, amount: int) returns (v: Verdict)
      modifies this
      ensures v == Check(old(Value()), CreditOf(id, amount)) && Value() == Perform(old(Value()), CreditOf(id, amount))
    {
      if id !in wallets { return NotFound; }
      var wallet := wallets[id];
      if wallet.status.Closed? { return WalletClosed; }
      var balanceBefore := wallet.balance;
      var balanceAfter := balanceBefore + amount;
      wallet := wallet.(balance := balanceAfter);
      wallets := wallets[id := wallet];
      Post(id, Credit, amount, balanceBefore, balanceAfter);
      v := Done;
    }

    method DebitWallet(id: string, amount: int, expectedCurrency: Option<string>) returns (v: Verdict)
      modifies this
      ensures v == Check(old(Value()), DebitOf(id, amount, expectedCurrency))
      ensures Value() == Perform(old(Value()), DebitOf(id, amount, expectedCurrency))
    {
      if id !in wallets { return NotFound; }
      var wallet := wallets[id];
      if expectedCurrency.Some? && expectedCurrency.value != "" && wallet.currency != expectedCurrency.value { return CurrencyMismatch; }
      if wallet.status.Frozen? { return WalletFrozen; }
      if wallet.status.Closed? { return WalletClosed; }
      var balanceBefore := wallet.balance;
      var balanceAfter := balanceBefore - amount;
      if balanceAfter < 0 { return InsufficientBalance; }
      wallet := wallet.(balance := balanceAfter);
      wallets := wallets[id := wallet];
      Post(id, Debit, amount, balanceBefore, balanceAfter);
      v := Done;
    }

    /** Both rows are read before either is written, the one with the smaller id first. */
    method Transfer(from: string, to: string, amount: int) returns (v: Verdict)
      modifies this
      ensures v == Check(old(Value()), TransferOf(from, to, amount)) && Value() == Perform(old(Value()), TransferOf(from, to, amount))
    {
      if from == to { return SameWallet; }
      if amount <= 0 { return InvalidAmount; }
      var firstId, secondId := if Less(from, to) then from else to, if Less(from, to) then to else from;
      var first := if firstId in wallets then Some(wallets[firstId]) else None;
      var second := if secondId in wallets then Some(wallets[secondId]) else None;
      var fromFound := if firstId == from then first else second;
      var toFound := if firstId == to then first else second;
      if fromFound.None? || toFound.None? { return NotFound; }
      var fromWallet, toWallet := fromFound.value, toFound.value;
      if fromWallet.brand != toWallet.brand { return DifferentBrand; }
      if fromWallet.currency != toWallet.currency { return DifferentCurrency; }
      if !fromWallet.status.Active? { return NotActive; }
      if toWallet.status.Closed? { return WalletClosed; }
      var fromBalance := fromWallet.balance;
      if fromBalance < amount { return InsufficientBalance; }
      var fromBalanceAfter := fromBalance - amount;
      fromWallet := fromWallet.(balance := fromBalanceAfter);
      wallets := wallets[from := fromWallet];
      Post(from, Debit, amount, fromBalance, fromBalanceAfter);
      var toBalance := toWallet.balance;
      var toBalanceAfter := toBalance + amount;
      toWallet := toWallet.(balance := toBalanceAfter);
      wallets := wallets[to := toWallet];
      Post(to, Credit, amount, toBalance, toBalanceAfter);
      v := Done;
    }

    method FreezeWallet(id: string) returns (v: Verdict)
      modifies this`wallets
      ensures v == Check(old(Value()), Freeze(id)) && Value() == Perform(old(Value()), Freeze(id))
    {
      if id !in wallets { return NotFound; }
      var wallet := wallets[id];
      if wallet.status.Closed? { return WalletClosed; }
      wallet := wallet.(status := Frozen);
      wallets := wallets[id := wallet];
      v := Done;
    }

    method UnfreezeWallet(id: string) returns (v: Verdict)
      modifies this`wallets
      ensures v == Check(old(Value()), Unfreeze(id)) && Value() == Perform(old(Value()), Unfreeze(id))
    {
      if id !in wallets { return NotFound; }
      var wallet := wallets[id];
      if !wallet.status.Frozen? { return NotFrozen; }
      wallet := wallet.(status := Active);
      wallets := wallets[id := wallet];
      v := Done;
    }

    method CloseWallet(id: string) returns (v: Verdict)
      modifies this`wallets
      ensures v == Check(old(Value()), Close(id)) && Value() == Perform(old(Value()), Close(id))
    {
      if id !in wallets { return NotFound; }
      var wallet := wallets[id];
      if wallet.balance != 0 { return HasBalance; }
      wallet := wallet.(status := Closed);
      wallets := wallets[id := wallet];
      v := Done;
    }

    /** The daily pass over the active wallets its query found: one snapshot each, balance against ledger. */
    method Reconcile(found: seq<string>) returns (snapshots: seq<Snapshot>, inconsistent: nat)
      requires forall id :: id in found <==> id in wallets && wallets[id].status.Active?
      ensures |snapshots| == |found|
      ensures forall i :: 0 <= i < |found| ==>
                var balance, net := wallets[found[i]].balance, Net(txs, found[i]);
                snapshots[i] == Snapshot(found[i], balance, net, Count(txs, found[i]), balance == net)
      ensures inconsistent == Inconsistent(snapshots)
      ensures inconsistent == 0 <==> forall id :: id in wallets && wallets[id].status.Active? ==> wallets[id].balance == Net(txs, id)
    {
      assert Inconsistent([]) == 0;
      hide Net, Count, Inconsistent;
      snapshots, inconsistent := [], 0;
      for i := 0 to |found|
        invariant |snapshots| == i && inconsistent == Inconsistent(snapshots)
        invariant forall k :: 0 <= k < i ==>
                    var balance, net := wallets[found[k]].balance, Net(txs, found[k]);
                    snapshots[k] == Snapshot(found[k], balance, net, Count(txs, found[k]), balance == net)
        invariant inconsistent == 0 <==> forall k :: 0 <= k < i ==> snapshots[k].isConsistent
      {
        var snapshot := TakeSnapshot(found[i]);
        OneMoreSnapshot(snapshots, snapshot);
        snapshots := snapshots + [snapshot];
        if !snapshot.isConsistent { inconsistent := inconsistent + 1; }
      }
      assert inconsistent == 0 <==> forall k :: 0 <= k < |found| ==> wallets[found[k]].balance == Net(txs, found[k]) by {
        assert forall k :: 0 <= k < |found| ==> (snapshots[k].isConsistent <==> wallets[found[k]].balance == Net(txs, found[k]));
      }
    }

    method TakeSnapshot(id: string) returns (s: Snapshot)
      requires id in wallets
      ensures s == Snapshot(id, wallets[id].balance, Net(txs, id), Count(txs, id), wallets[id].balance == Net(txs, id))
    {
      var wallet := wallets[id];
      var calculated, transactionCount := SumCompleted(id);
      var isConsistent := wallet.balance == calculated;
      s := Snapshot(id, wallet.balance, calculated, transactionCount, isConsistent);
    }

    /** The query of the pass: completed credits less completed debits, and how many. */
    method SumCompleted(id: string) returns (calculated: int, count: nat)
      ensures calculated == Net(txs, id) && count == Count(txs, id)
    {
      var credits, debits := 0, 0;
      count := 0;
      for i := 0 to |txs|
        invariant credits - debits == Net(txs[..i], id) && count == Count(txs[..i], id)
      {
        assert txs[..i + 1][..i] == txs[..i];
        if txs[i].wallet == id {
          if txs[i].kind.Credit? { credits := credits + txs[i].amount; } else { debits := debits + txs[i].amount; }
          count := count + 1;
        }
      }
      assert txs[..|txs|] == txs;
      calculated := credits - debits;
    }
  }
}
