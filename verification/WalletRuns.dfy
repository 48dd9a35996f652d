/**
 Wallets with `freeze`, `unfreeze` and `close` as the code has them (`src/wallet/wallet.service.ts`):
 each reads the row without a lock, and later saves the whole of it with the new status, while
 transactions and other such calls come in between.
 */
module WalletRuns {
  import opened Basics
  import opened Wallets
  import opened WalletTheorems

  /** A call that has read its row and not yet saved it, and the status it will save. */
  datatype Pending = Pending(id: string, copy: Wallet, status: WalletStatus)

  datatype State = State(book: Book, calls: map<nat, Pending>)

  /** A call that is never saved is one that crashed. */
  datatype Act = Transact(op: Op) | Look(call: nat, op: Op) | Save(call: nat)

  predicate ChangesStatus(op: Op) { op.Freeze? || op.Unfreeze? || op.Close? }

  function Target(op: Op): WalletStatus { if op.Freeze? then Frozen else if op.Unfreeze? then Active else Closed }

  function Take(s: State, a: Act): State {
    match a
    case Transact(op) => if ChangesStatus(op) then s else s.(book := Perform(s.book, op))
    case Look(call, op) =>
      if ChangesStatus(op) && call !in s.calls && Check(s.book, op).Done?
      then s.(calls := s.calls[call := Pending(op.id, s.book.wallets[op.id], Target(op))]) else s
    case Save(call) =>
      if call !in s.calls then s
      else State(StaleSave(s.book, s.calls[call].id, s.calls[call].copy, s.calls[call].status), s.calls - {call})
  }

  function TakeAll(s: State, acts: seq<Act>): State
    decreases |acts|
  {
    if acts == [] then s else TakeAll(Take(s, acts[0]), acts[1..])
  }

  /** Saved as soon as it was read, such a call is the operation on values. */
  lemma AloneIsAtomic(s: State, call: nat, op: Op)
    requires ChangesStatus(op) && call !in s.calls
    ensures Take(Take(s, Look(call, op)), Save(call)) == s.(book := Perform(s.book, op))
  {
    if Check(s.book, op).Done? {
      assert s.calls[call := Pending(op.id, s.book.wallets[op.id], Target(op))] - {call} == s.calls;
    }
  }

  // ---------------------------------------------------------------- what the copies are

  predicate SameWallet(a: Wallet, b: Wallet) { a.brand == b.brand && a.provider == b.provider && a.currency == b.currency }

  /** The copy is of that wallet, and was fit for what the call does with it. */
  predicate CopyFits(b: Book, p: Pending) {
    && p.id in b.wallets && SameWallet(p.copy, b.wallets[p.id])
    && (p.status.Closed? ==> p.copy.balance == 0)
  }

  predicate Coherent(s: State) { forall c :: c in s.calls ==> CopyFits(s.book, s.calls[c]) }

  lemma OperationKeepsWallets(b: Book, op: Op, id: string)
    requires id in b.wallets
    ensures id in Perform(b, op).wallets && SameWallet(Perform(b, op).wallets[id], b.wallets[id])
  {
    hide WalletsOf;
  }

  lemma ActKeepsCoherent(s: State, a: Act)
    requires Coherent(s)
    ensures Coherent(Take(s, a))
  {
    hide WalletsOf, Perform;
    var next := Take(s, a);
    forall c | c in next.calls ensures CopyFits(next.book, next.calls[c]) {
      if c in s.calls {
        assert CopyFits(s.book, s.calls[c]);
        if a.Transact? { OperationKeepsWallets(s.book, a.op, s.calls[c].id); }
        if a.Save? && a.call in s.calls { assert CopyFits(s.book, s.calls[a.call]); }
      }
    }
  }

  /** In every run each call under way holds a copy of its own wallet, one closing at balance 0. */
  lemma {:induction false} CopiesFit(s: State, acts: seq<Act>)
    requires Coherent(s)
    ensures Coherent(TakeAll(s, acts))
    decreases |acts|
  {
    hide Coherent, Take;
    if acts != [] {
      ActKeepsCoherent(s, acts[0]);
      CopiesFit(Take(s, acts[0]), acts[1..]);
    }
  }

  lemma ActKeepsWallet(s: State, a: Act, id: string)
    requires id in s.book.wallets
    ensures id in Take(s, a).book.wallets
  {
    hide WalletsOf, Perform;
    if a.Transact? { OperationKeepsWallets(s.book, a.op, id); }
  }

  lemma {:induction false} WalletsRemain(s: State, acts: seq<Act>, id: string)
    requires id in s.book.wallets
    ensures id in TakeAll(s, acts).book.wallets
    decreases |acts|
  {
    hide Take;
    if acts != [] {
      ActKeepsWallet(s, acts[0], id);
      WalletsRemain(Take(s, acts[0]), acts[1..], id);
    }
  }

  // ---------------------------------------------------------------- solvency and the ledger

  /** Every wallet, and every copy a call may put back, is solvent. */
  ghost predicate Solid(s: State) {
    AllSolvent(s.book) && forall c :: c in s.calls ==> s.calls[c].copy.balance >= 0
  }

  predicate Funded(acts: seq<Act>) { forall i :: 0 <= i < |acts| && acts[i].Transact? ==> Positive(acts[i].op) }

  lemma ActKeepsSolid(s: State, a: Act)
    requires Solid(s) && Coherent(s) && (a.Transact? ==> Positive(a.op))
    ensures Solid(Take(s, a))
  {
    hide WalletsOf, Perform;
    match a {
      case Transact(op) => StepKeepsSolvent(s.book, op);
      case Look(call, op) =>
      case Save(call) => if call in s.calls { assert CopyFits(s.book, s.calls[call]); }
    }
  }

  lemma {:induction false} SolidHolds(s: State, acts: seq<Act>)
    requires Solid(s) && Coherent(s) && Funded(acts)
    ensures Solid(TakeAll(s, acts))
    decreases |acts|
  {
    hide Solid, Coherent, Take;
    if acts != [] {
      ActKeepsSolid(s, acts[0]);
      ActKeepsCoherent(s, acts[0]);
      SolidHolds(Take(s, acts[0]), acts[1..]);
    }
  }

  /** The movement of its wallet that a save undoes. */
  function LostBy(s: State, a: Act, id: string): int {
    if a.Save? && a.call in s.calls && s.calls[a.call].id == id && id in s.book.wallets
    then s.book.wallets[id].balance - s.calls[a.call].copy.balance else 0
  }

  function LostIn(s: State, acts: seq<Act>, id: string): int
    decreases |acts|
  {
    if acts == [] then 0 else LostBy(s, acts[0], id) + LostIn(Take(s, acts[0]), acts[1..], id)
  }

  lemma ActMovesDrift(s: State, a: Act, id: string)
    requires id in s.book.wallets
    ensures id in Take(s, a).book.wallets && Drift(Take(s, a).book, id) == Drift(s.book, id) + LostBy(s, a, id)
  {
    hide WalletsOf, Perform, Net;
    if a.Transact? { StepKeepsDrift(s.book, a.op, id); }
  }

  /** Over any run the ledger gets ahead of the balance by exactly the movements that saves undid. */
  lemma {:induction false} DriftIsWhatSavesLose(s: State, acts: seq<Act>, id: string)
    requires id in s.book.wallets
    ensures id in TakeAll(s, acts).book.wallets
            && Drift(TakeAll(s, acts).book, id) == Drift(s.book, id) + LostIn(s, acts, id)
    decreases |acts|
  {
    hide Take, Drift, LostBy;
    if acts != [] {
      ActMovesDrift(s, acts[0], id);
      DriftIsWhatSavesLose(Take(s, acts[0]), acts[1..], id);
    }
  }

  /** Every movement is of a wallet. */
  ghost predicate Known(b: Book) { forall i :: 0 <= i < |b.txs| ==> b.txs[i].wallet in b.wallets }

  lemma OperationKeepsKnown(b: Book, op: Op)
    requires Known(b)
    ensures Known(Perform(b, op))
  {
    hide WalletsOf;
  }

  lemma ActKeepsKnown(s: State, a: Act)
    requires Known(s.book) && Coherent(s)
    ensures Known(Take(s, a).book)
  {
    hide WalletsOf, Perform;
    if a.Transact? { OperationKeepsKnown(s.book, a.op); }
    if a.Save? && a.call in s.calls { assert CopyFits(s.book, s.calls[a.call]); }
  }

  lemma {:induction false} NoMovementNoNet(txs: seq<Tx>, id: string)
    requires forall i :: 0 <= i < |txs| ==> txs[i].wallet != id
    ensures Net(txs, id) == 0
  {
    if txs != [] { NoMovementNoNet(txs[..|txs| - 1], id); }
  }

  /** How far ledger and balance are apart; a wallet that is not there yet has neither. */
  function Gap(b: Book, id: string): int { if id in b.wallets then Drift(b, id) else 0 }

  lemma ActMovesGap(s: State, a: Act, id: string)
    requires Known(s.book) && Coherent(s)
    ensures Gap(Take(s, a).book, id) == Gap(s.book, id) + LostBy(s, a, id)
  {
    hide WalletsOf, Net;
    if id in s.book.wallets {
      hide Take, Drift, LostBy;
      ActMovesDrift(s, a, id);
    } else {
      NoMovementNoNet(s.book.txs, id);
      if a.Save? && a.call in s.calls { assert CopyFits(s.book, s.calls[a.call]); }
    }
  }

  lemma {:induction false} GapOfRun(s: State, acts: seq<Act>, id: string)
    requires Known(s.book) && Coherent(s)
    ensures Gap(TakeAll(s, acts).book, id) == Gap(s.book, id) + LostIn(s, acts, id)
    decreases |acts|
  {
    hide Known, Coherent, Take, Gap, LostBy;
    if acts != [] {
      ActMovesGap(s, acts[0], id);
      ActKeepsKnown(s, acts[0]);
      ActKeepsCoherent(s, acts[0]);
      GapOfRun(Take(s, acts[0]), acts[1..], id);
    }
  }

  /**
   From an empty book, with freezing, unfreezing and closing unlocked: with positive amounts no
   balance is ever negative, nor a closed wallet's other than 0; and a balance is what its ledger
   says exactly when the movements that saves undid add up to nothing.
   */
  lemma UnlockedLedgerTheorem(acts: seq<Act>, id: string)
    requires id in TakeAll(State(Book(map[], []), map[]), acts).book.wallets
    ensures var empty := State(Book(map[], []), map[]);
            var b := TakeAll(empty, acts).book;
            && (Funded(acts) ==> Solvent(b.wallets[id]))
            && (b.wallets[id].balance == Net(b.txs, id) <==> LostIn(empty, acts, id) == 0)
  {
    hide TakeAll, Net, Solvent;
    var empty := State(Book(map[], []), map[]);
    GapOfRun(empty, acts, id);
    if Funded(acts) { SolidHolds(empty, acts); }
  }

  // ---------------------------------------------------------------- frozen

  /** The wallet will be unfrozen: by a call that has read it already, or by one that reads it in the run. */
  predicate Unfreezes(s: State, acts: seq<Act>, id: string) {
    || (exists c :: c in s.calls && s.calls[c].id == id && s.calls[c].status.Active? && Save(c) in acts)
    || (exists i :: 0 <= i < |acts| && acts[i].Look? && acts[i].op == Unfreeze(id))
  }

  /** No act of the run lowers the balance. */
  predicate NeverFalls(s: State, acts: seq<Act>, id: string)
    requires id in s.book.wallets
    decreases |acts|
  {
    acts == [] ||
    (&& id in Take(s, acts[0]).book.wallets
     && Take(s, acts[0]).book.wallets[id].balance >= s.book.wallets[id].balance
     && NeverFalls(Take(s, acts[0]), acts[1..], id))
  }

  /** Some save of the run puts back a smaller balance than it finds. */
  predicate Restores(s: State, acts: seq<Act>, id: string)
    decreases |acts|
  {
    acts != [] && (LostBy(s, acts[0], id) > 0 || Restores(Take(s, acts[0]), acts[1..], id))
  }

  /** A wallet not active, and not made active by this act, has only what comes in and what is put back. */
  lemma InactiveAct(s: State, a: Act, id: string)
    requires id in s.book.wallets && !s.book.wallets[id].status.Active?
    requires a.Transact? ==> Positive(a.op)
    requires a.Save? && a.call in s.calls && s.calls[a.call].id == id ==> !s.calls[a.call].status.Active?
    ensures var next := Take(s, a).book;
            && id in next.wallets && !next.wallets[id].status.Active?
            && (next.wallets[id].balance >= s.book.wallets[id].balance <==> LostBy(s, a, id) <= 0)
  {
    hide WalletsOf;
  }

  lemma UnfreezesLater(s: State, acts: seq<Act>, id: string)
    requires acts != [] && !Unfreezes(s, acts, id)
    ensures !Unfreezes(Take(s, acts[0]), acts[1..], id)
    ensures acts[0].Save? && acts[0].call in s.calls && s.calls[acts[0].call].id == id ==> !s.calls[acts[0].call].status.Active?
  {
    hide Perform, Check, StaleSave;
    var next := Take(s, acts[0]);
    forall c | c in next.calls && next.calls[c].id == id && next.calls[c].status.Active? ensures Save(c) !in acts[1..] {
      if c in s.calls { assert Save(c) !in acts; }
    }
    forall i | 0 <= i < |acts[1..]| && acts[1..][i].Look? ensures acts[1..][i].op != Unfreeze(id) { assert acts[i + 1] == acts[1..][i]; }
  }

  /**
   Until it is unfrozen a frozen wallet never loses money exactly when no other `freeze` or `close`
   puts back a smaller balance than it finds.
   */
  lemma {:induction false} FrozenNeverDecreasesIff(s: State, acts: seq<Act>, id: string)
    requires id in s.book.wallets && !s.book.wallets[id].status.Active?
    requires Funded(acts) && !Unfreezes(s, acts, id)
    ensures NeverFalls(s, acts, id) <==> !Restores(s, acts, id)
    ensures id in TakeAll(s, acts).book.wallets && !TakeAll(s, acts).book.wallets[id].status.Active?
    decreases |acts|
  {
    hide Take, LostBy, Unfreezes;
    if acts != [] {
      UnfreezesLater(s, acts, id);
      InactiveAct(s, acts[0], id);
      FrozenNeverDecreasesIff(Take(s, acts[0]), acts[1..], id);
    }
  }

  /** No act of the run moves ledger and balance apart. */
  predicate NeverDrifts(s: State, acts: seq<Act>, id: string)
    decreases |acts|
  {
    acts == [] || (LostBy(s, acts[0], id) == 0 && NeverDrifts(Take(s, acts[0]), acts[1..], id))
  }

  predicate CopiesBelow(s: State, id: string) {
    forall c :: c in s.calls && s.calls[c].id == id && id in s.book.wallets ==> s.calls[c].copy.balance <= s.book.wallets[id].balance
  }

  lemma InactiveActKeepsBelow(s: State, a: Act, id: string)
    requires id in s.book.wallets && !s.book.wallets[id].status.Active? && CopiesBelow(s, id)
    requires a.Transact? ==> Positive(a.op)
    ensures LostBy(s, a, id) >= 0
    ensures LostBy(s, a, id) == 0 ==> CopiesBelow(Take(s, a), id)
  {
    hide WalletsOf;
  }

  /** While no call holds more than the balance, that is exactly when the ledger stays right. */
  lemma {:induction false} FrozenFallsIffLedgerBreaks(s: State, acts: seq<Act>, id: string)
    requires id in s.book.wallets && !s.book.wallets[id].status.Active? && CopiesBelow(s, id)
    requires Funded(acts) && !Unfreezes(s, acts, id)
    ensures NeverFalls(s, acts, id) <==> NeverDrifts(s, acts, id)
    decreases |acts|
  {
    hide Take, LostBy, Unfreezes, CopiesBelow;
    if acts != [] {
      UnfreezesLater(s, acts, id);
      InactiveAct(s, acts[0], id);
      InactiveActKeepsBelow(s, acts[0], id);
      if LostBy(s, acts[0], id) == 0 { FrozenFallsIffLedgerBreaks(Take(s, acts[0]), acts[1..], id); }
    }
  }

  /** A second `freeze` that read before a credit takes the credit away again. */
  lemma FreezingAgainLosesCredit(s: State, id: string, call: nat, amount: int)
    requires id in s.book.wallets && s.book.wallets[id].status.Frozen? && call !in s.calls && amount > 0
    ensures var acts := [Look(call, Freeze(id)), Transact(CreditOf(id, amount)), Save(call)];
            !NeverFalls(s, acts, id) && TakeAll(s, acts).book.wallets == s.book.wallets
  {
    var acts := [Look(call, Freeze(id)), Transact(CreditOf(id, amount)), Save(call)];
    var s1 := Take(s, acts[0]);
    var s2 := Take(s1, acts[1]);
    var s3 := Take(s2, acts[2]);
    ThreeActs(s, acts[0], acts[1], acts[2]);
    assert s2.book.wallets[id].balance == s.book.wallets[id].balance + amount;
    assert s3.book.wallets == s.book.wallets;
    assert acts[1..][1..] == [acts[2]];
    assert !NeverFalls(s2, [acts[2]], id);
  }

  lemma ThreeActs(s: State, a: Act, b: Act, c: Act)
    ensures TakeAll(s, [a, b, c]) == Take(Take(Take(s, a), b), c)
  {
    hide Take;
    assert [a, b, c][1..] == [b, c];
    assert [b, c][1..] == [c];
    assert TakeAll(Take(Take(s, a), b), [c]) == Take(Take(Take(s, a), b), c);
  }

  // ---------------------------------------------------------------- closed

  /** The wallet is this one before and after every act of the run. */
  predicate StaysAs(s: State, acts: seq<Act>, id: string, w: Wallet)
    decreases |acts|
  {
    id in s.book.wallets && s.book.wallets[id] == w && (acts == [] || StaysAs(Take(s, acts[0]), acts[1..], id, w))
  }

  /** A `freeze` or `unfreeze` that has already read the wallet saves it in the run. */
  predicate Reopens(s: State, acts: seq<Act>, id: string) {
    exists c :: c in s.calls && s.calls[c].id == id && !s.calls[c].status.Closed? && Save(c) in acts
  }

  predicate ClosedAtZero(b: Book, id: string) { id in b.wallets && b.wallets[id].status.Closed? && b.wallets[id].balance == 0 }

  lemma ClosedAct(s: State, a: Act, id: string)
    requires Coherent(s) && ClosedAtZero(s.book, id)
    ensures id in Take(s, a).book.wallets
    ensures Take(s, a).book.wallets[id] == s.book.wallets[id]
            <==> !(a.Save? && a.call in s.calls && s.calls[a.call].id == id && !s.calls[a.call].status.Closed?)
  {
    hide WalletsOf;
    if a.Save? && a.call in s.calls { assert CopyFits(s.book, s.calls[a.call]); }
  }

  lemma ReopensLater(s: State, acts: seq<Act>, id: string)
    requires acts != [] && ClosedAtZero(s.book, id)
    ensures var a := acts[0];
            Reopens(s, acts, id)
            <==> (a.Save? && a.call in s.calls && s.calls[a.call].id == id && !s.calls[a.call].status.Closed?)
                 || Reopens(Take(s, a), acts[1..], id)
  {
    hide Perform, StaleSave;
    var a := acts[0];
    var next := Take(s, a);
    forall c ensures Save(c) in acts <==> a == Save(c) || Save(c) in acts[1..] { assert acts == [a] + acts[1..]; }
    forall c | c in next.calls && next.calls[c].id == id && !next.calls[c].status.Closed?
      ensures c in s.calls && next.calls[c] == s.calls[c] && a != Save(c)
    {
    }
  }

  /**
   A wallet closed at 0 stays as it is, whatever is asked of it, exactly when no `freeze` or
   `unfreeze` that read it before it was closed saves it after.
   */
  lemma {:induction false} ClosedIsAbsorbingIff(s: State, acts: seq<Act>, id: string)
    requires Coherent(s) && ClosedAtZero(s.book, id)
    ensures StaysAs(s, acts, id, s.book.wallets[id]) <==> !Reopens(s, acts, id)
    ensures !Reopens(s, acts, id) ==> id in TakeAll(s, acts).book.wallets && TakeAll(s, acts).book.wallets[id] == s.book.wallets[id]
    decreases |acts|
  {
    hide Take, Reopens, Coherent;
    if acts == [] {
      assert !Reopens(s, [], id) by { NothingReopens(s, id); }
    } else {
      ClosedAct(s, acts[0], id);
      ReopensLater(s, acts, id);
      ActKeepsCoherent(s, acts[0]);
      if Take(s, acts[0]).book.wallets[id] == s.book.wallets[id] { ClosedIsAbsorbingIff(Take(s, acts[0]), acts[1..], id); }
    }
  }

  lemma NothingReopens(s: State, id: string)
    ensures !Reopens(s, [], id)
  {
  }

  // ---------------------------------------------------------------- when the reconciliation sees it

  /**
   A movement undone by a save is seen by the pass right after exactly when the save left the wallet
   active; later, exactly when the wallet is active again and other saves have not undone as much the
   other way. Until it is unfrozen it is not seen; nor, once closed, until a call older than the
   closing reopens it.
   */
  lemma LostMovementIsSeenIff(s: State, call: nat, later: seq<Act>)
    requires Coherent(s) && call in s.calls && s.calls[call].id in s.book.wallets && Drift(s.book, s.calls[call].id) == 0
    ensures var p := s.calls[call];
            var lost := s.book.wallets[p.id].balance - p.copy.balance;
            var saved := Take(s, Save(call));
            var after := TakeAll(saved, later).book;
            && (Detected(saved.book, p.id) <==> p.status.Active? && lost != 0)
            && p.id in after.wallets && Drift(after, p.id) == lost + LostIn(saved, later, p.id)
            && (Detected(after, p.id) <==> after.wallets[p.id].status.Active? && lost + LostIn(saved, later, p.id) != 0)
            && (!p.status.Active? && Funded(later) && !Unfreezes(saved, later, p.id) ==> !Detected(after, p.id))
            && (p.status.Closed? && !Reopens(saved, later, p.id) ==> !Detected(after, p.id))
  {
    hide TakeAll, LostIn, Drift, Unfreezes, Reopens, Coherent;
    var p := s.calls[call];
    var saved := Take(s, Save(call));
    ActMovesDrift(s, Save(call), p.id);
    ActKeepsCoherent(s, Save(call));
    DriftIsWhatSavesLose(saved, later, p.id);
    assert saved.book.wallets[p.id] == p.copy.(status := p.status);
    if !p.status.Active? && Funded(later) && !Unfreezes(saved, later, p.id) { FrozenNeverDecreasesIff(saved, later, p.id); }
    if p.status.Closed? && !Reopens(saved, later, p.id) {
      ClosingCopyIsEmpty(s, call);
      ClosedIsAbsorbingIff(saved, later, p.id);
    }
  }

  lemma ClosingCopyIsEmpty(s: State, call: nat)
    requires Coherent(s) && call in s.calls && s.calls[call].status.Closed?
    ensures s.calls[call].copy.balance == 0
  {
    assert CopyFits(s.book, s.calls[call]);
  }

  /**
   A closed wallet reopened: an `unfreeze` and a `close` read a frozen, empty wallet, a credit comes
   in, the close loses it, and the unfreeze then leaves the wallet active, where the loss is seen.
   */
  lemma ReopenedShowsItsLoss(s: State, id: string, amount: int)
    requires id in s.book.wallets && s.book.wallets[id].status.Frozen? && s.book.wallets[id].balance == 0
    requires s.calls == map[] && Drift(s.book, id) == 0 && amount > 0
    ensures var acts := [Look(0, Unfreeze(id)), Look(1, Close(id)), Transact(CreditOf(id, amount))];
            var closed := Take(TakeAll(s, acts), Save(1));
            var reopened := Take(closed, Save(0));
            && ClosedAtZero(closed.book, id) && !Detected(closed.book, id)
            && Detected(reopened.book, id) && Drift(reopened.book, id) == amount
  {
    hide Drift, Net, Take, TakeAll;
    var acts := [Look(0, Unfreeze(id)), Look(1, Close(id)), Transact(CreditOf(id, amount))];
    ThreeActs(s, acts[0], acts[1], acts[2]);
    var w := s.book.wallets[id];
    var s1, s2 := Take(s, acts[0]), Take(Take(s, acts[0]), acts[1]);
    var s3 := Take(s2, acts[2]);
    LooksHold(s, id);
    CreditLands(s2, id, amount);
    SavesLand(s3, id, w);
    ActMovesDrift(s, acts[0], id);
    ActMovesDrift(s1, acts[1], id);
    ActMovesDrift(s2, acts[2], id);
    ActMovesDrift(s3, Save(1), id);
    ActMovesDrift(Take(s3, Save(1)), Save(0), id);
  }

  lemma LooksHold(s: State, id: string)
    requires id in s.book.wallets && s.book.wallets[id].status.Frozen? && s.book.wallets[id].balance == 0 && s.calls == map[]
    ensures var w := s.book.wallets[id];
            var s1 := Take(s, Look(0, Unfreeze(id)));
            s1.book == s.book
            && Take(s1, Look(1, Close(id))) == State(s.book, map[0 := Pending(id, w, Active), 1 := Pending(id, w, Closed)])
  {
  }

  lemma CreditLands(s: State, id: string, amount: int)
    requires id in s.book.wallets && s.book.wallets[id].status.Frozen?
    ensures var next := Take(s, Transact(CreditOf(id, amount)));
            var w := s.book.wallets[id];
            next.calls == s.calls && id in next.book.wallets && next.book.wallets[id] == w.(balance := w.balance + amount)
  {
  }

  lemma SavesLand(s: State, id: string, w: Wallet)
    requires s.calls == map[0 := Pending(id, w, Active), 1 := Pending(id, w, Closed)] && id in s.book.wallets
    ensures var closed := Take(s, Save(1));
            && id in closed.book.wallets && closed.book.wallets[id] == w.(status := Closed)
            && closed.calls == map[0 := Pending(id, w, Active)]
            && id in Take(closed, Save(0)).book.wallets && Take(closed, Save(0)).book.wallets[id] == w.(status := Active)
  {
  }
}
