/**
 The row locks of the wallet transactions (`src/wallet/wallet.service.ts`): each transaction takes
 its locks one at a time and keeps them until it ends. A transfer takes the smaller id first.
 */
module WalletLocks {
  import opened Basics
  import opened Wallets

  /** The ids a transaction locks, in order, and how many it holds; `ended` is commit or rollback. */
  datatype Txn = Txn(wants: seq<string>, held: nat, ended: bool)

  type State = map<nat, Txn>

  /** One row for a credit or a debit, both rows in order for a transfer. */
  function Wants(op: Op): seq<string> {
    match op
    case CreditOf(id, _) => [id]
    case DebitOf(id, _, _) => [id]
    case TransferOf(from, to, amount) =>
      if from == to || amount <= 0 then [] else if Less(from, to) then [from, to] else [to, from]
    case _ => []
  }

  function Start(op: Op): Txn { Txn(Wants(op), 0, false) }

  predicate Holds(t: Txn, id: string) {
    !t.ended && exists i :: 0 <= i < t.held && i < |t.wants| && t.wants[i] == id
  }

  predicate Unfinished(t: Txn) { !t.ended }

  /** The lock a transaction is asking for now. */
  predicate AsksFor(t: Txn, id: string) { !t.ended && t.held < |t.wants| && t.wants[t.held] == id }

  predicate WaitsFor(s: State, a: nat, b: nat) {
    a != b && a in s && b in s && !s[a].ended && s[a].held < |s[a].wants| && Holds(s[b], s[a].wants[s[a].held])
  }

  predicate CanStep(s: State, a: nat) {
    a in s && Unfinished(s[a]) && forall b :: b in s ==> !WaitsFor(s, a, b)
  }

  /** Take the next lock when nobody holds it; with every lock taken, write and end. */
  function Advance(s: State, a: nat): State {
    if !CanStep(s, a) then s
    else if s[a].held < |s[a].wants| then s[a := s[a].(held := s[a].held + 1)]
    else s[a := s[a].(ended := true)]
  }

  /** A transaction may end at any moment by rolling back. */
  function Rollback(s: State, a: nat): State {
    if a in s then s[a := s[a].(ended := true)] else s
  }

  datatype Move = Next(a: nat) | Abort(a: nat) | Arrive(a: nat, op: Op)

  function Do(s: State, m: Move): State {
    match m
    case Next(a) => Advance(s, a)
    case Abort(a) => Rollback(s, a)
    case Arrive(a, op) => if a in s then s else s[a := Start(op)]
  }

  function Run(s: State, moves: seq<Move>): State
    decreases |moves|
  {
    if moves == [] then s else Run(Do(s, moves[0]), moves[1..])
  }

  // ---------------------------------------------------------------- the order

  lemma {:induction false} LessIsTransitive(a: string, b: string, c: string)
    requires Less(a, b) && Less(b, c)
    ensures Less(a, c)
    decreases |a|
  {
    if a != [] && a[0] == b[0] == c[0] { LessIsTransitive(a[1..], b[1..], c[1..]); }
  }

  lemma {:induction false} LessIsIrreflexive(a: string)
    ensures !Less(a, a)
    decreases |a|
  {
    if a != [] { LessIsIrreflexive(a[1..]); }
  }

  lemma {:induction false} LessIsTotal(a: string, b: string)
    ensures a == b || Less(a, b) || Less(b, a)
    decreases |a|
  {
    if a != [] && b != [] && a[0] == b[0] {
      LessIsTotal(a[1..], b[1..]);
      assert a == [a[0]] + a[1..] && b == [b[0]] + b[1..];
    }
  }

  /** A transaction asks for its locks in increasing order. */
  predicate Ordered(t: Txn) {
    t.held <= |t.wants| && forall i, j :: 0 <= i < j < |t.wants| ==> Less(t.wants[i], t.wants[j])
  }

  ghost predicate AllOrdered(s: State) { forall a :: a in s ==> Ordered(s[a]) }

  /** No two transactions hold the same row. */
  ghost predicate Exclusive(s: State) {
    forall a, b, id :: a in s && b in s && a != b && Holds(s[a], id) ==> !Holds(s[b], id)
  }

  lemma WantsAreOrdered(op: Op)
    ensures Ordered(Start(op))
  {
    if op.TransferOf? { LessIsTotal(op.from, op.to); }
  }

  /** What is held after a step was held before, or is the lock just taken. */
  lemma HeldAfterStep(s: State, a: nat, b: nat, id: string)
    ensures b in Advance(s, a) && Holds(Advance(s, a)[b], id)
            ==> b in s && (Holds(s[b], id) || (b == a && CanStep(s, a) && AsksFor(s[a], id)))
  {
  }

  lemma StepperFindsItFree(s: State, a: nat, b: nat, id: string)
    requires CanStep(s, a) && AsksFor(s[a], id) && b in s && b != a
    ensures !Holds(s[b], id)
  {
    assert !WaitsFor(s, a, b);
  }

  lemma AdvanceKeepsLocks(s: State, a: nat)
    requires AllOrdered(s) && Exclusive(s)
    ensures AllOrdered(Advance(s, a)) && Exclusive(Advance(s, a))
  {
    var t := Advance(s, a);
    hide Holds, AsksFor, CanStep, Advance;
    forall b, c, id | b in t && c in t && b != c && Holds(t[b], id) ensures !Holds(t[c], id) {
      HeldAfterStep(s, a, b, id);
      HeldAfterStep(s, a, c, id);
      if CanStep(s, a) && a in s && AsksFor(s[a], id) {
        if b in s && b != a { StepperFindsItFree(s, a, b, id); }
        if c in s && c != a { StepperFindsItFree(s, a, c, id); }
      }
    }
    AdvanceKeepsOrder(s, a);
  }

  lemma AdvanceKeepsOrder(s: State, a: nat)
    requires AllOrdered(s)
    ensures AllOrdered(Advance(s, a))
  {
    hide Less;
    var t := Advance(s, a);
    forall b | b in t ensures Ordered(t[b]) {
      assert Ordered(s[b]) && t[b].wants == s[b].wants;
    }
  }

  lemma MoveKeepsLocks(s: State, m: Move)
    requires AllOrdered(s) && Exclusive(s)
    ensures AllOrdered(Do(s, m)) && Exclusive(Do(s, m))
  {
    match m {
      case Next(a) => AdvanceKeepsLocks(s, a);
      case Abort(a) =>
        var t := Rollback(s, a);
        forall b, c, id | b in t && c in t && b != c && Holds(t[b], id) ensures !Holds(t[c], id) {
          assert Holds(s[b], id);
          assert !Holds(s[c], id);
        }
      case Arrive(a, op) =>
        WantsAreOrdered(op);
        var t := Do(s, m);
        forall b, c, id | b in t && c in t && b != c && Holds(t[b], id) ensures !Holds(t[c], id) {
          if b in s && c in s && (b != a || a in s) && (c != a || a in s) { assert Holds(s[b], id); assert !Holds(s[c], id); }
        }
    }
  }

  lemma {:induction false} LocksHold(s: State, moves: seq<Move>)
    requires AllOrdered(s) && Exclusive(s)
    ensures AllOrdered(Run(s, moves)) && Exclusive(Run(s, moves))
    decreases |moves|
  {
    hide Do, AllOrdered, Exclusive;
    if moves != [] {
      MoveKeepsLocks(s, moves[0]);
      LocksHold(Do(s, moves[0]), moves[1..]);
    }
  }

  // ---------------------------------------------------------------- no cycle

  /** A chain of transactions each waiting for the next. */
  predicate WaitChain(s: State, chain: seq<nat>) {
    |chain| > 0 && forall i :: 0 <= i < |chain| - 1 ==> WaitsFor(s, chain[i], chain[i + 1])
  }

  function Asked(t: Txn): string { if t.held < |t.wants| then t.wants[t.held] else "" }

  /** The row one waits for comes before the row the other, if it waits too, is asking for. */
  lemma WaitingAscends(s: State, a: nat, b: nat)
    requires AllOrdered(s) && WaitsFor(s, a, b) && s[b].held < |s[b].wants|
    ensures Less(Asked(s[a]), Asked(s[b]))
  {
    var i :| 0 <= i < s[b].held && i < |s[b].wants| && s[b].wants[i] == Asked(s[a]);
    assert Less(s[b].wants[i], s[b].wants[s[b].held]);
  }

  lemma {:induction false} ChainAscends(s: State, chain: seq<nat>)
    requires AllOrdered(s) && WaitChain(s, chain) && |chain| >= 2
    requires chain[|chain| - 1] in s && s[chain[|chain| - 1]].held < |s[chain[|chain| - 1]].wants|
    ensures chain[0] in s && Less(Asked(s[chain[0]]), Asked(s[chain[|chain| - 1]]))
    decreases |chain|
  {
    var n := |chain|;
    assert WaitsFor(s, chain[n - 2], chain[n - 1]);
    assert WaitsFor(s, chain[0], chain[1]);
    WaitingAscends(s, chain[n - 2], chain[n - 1]);
    if n > 2 {
      var shorter := chain[..n - 1];
      forall i | 0 <= i < |shorter| - 1 ensures WaitsFor(s, shorter[i], shorter[i + 1]) {
        assert WaitsFor(s, chain[i], chain[i + 1]);
      }
      ChainAscends(s, shorter);
      LessIsTransitive(Asked(s[chain[0]]), Asked(s[chain[n - 2]]), Asked(s[chain[n - 1]]));
    }
  }

  /** Whatever arrived and however it interleaved, no chain of waits ever closes on itself. */
  lemma NoWaitCycle(moves: seq<Move>, chain: seq<nat>)
    requires WaitChain(Run(map[], moves), chain) && |chain| >= 2
    ensures chain[0] != chain[|chain| - 1]
  {
    var s := Run(map[], moves);
    LocksHold(map[], moves);
    if chain[0] == chain[|chain| - 1] {
      assert WaitsFor(s, chain[0], chain[1]);
      ChainAscends(s, chain);
      LessIsIrreflexive(Asked(s[chain[0]]));
    }
  }

  /** The unfinished transactions that could be next after `seen` in a chain of waits. */
  lemma {:induction false} SomeoneSteps(s: State, seen: set<nat>, a: nat)
    requires AllOrdered(s) && a in s && Unfinished(s[a]) && a !in seen
    requires forall x :: x in seen ==> x in s && s[x].held < |s[x].wants| && (s[a].held < |s[a].wants| ==> Less(Asked(s[x]), Asked(s[a])))
    ensures exists b :: CanStep(s, b)
    decreases s.Keys - seen
  {
    if !CanStep(s, a) {
      var b :| b in s && WaitsFor(s, a, b);
      if b in seen {
        WaitingAscends(s, a, b);
        LessIsTransitive(Asked(s[a]), Asked(s[b]), Asked(s[a]));
        LessIsIrreflexive(Asked(s[a]));
      } else {
        if s[b].held < |s[b].wants| {
          WaitingAscends(s, a, b);
          forall x | x in seen + {a} ensures x in s && s[x].held < |s[x].wants| && Less(Asked(s[x]), Asked(s[b])) {
            if x != a { LessIsTransitive(Asked(s[x]), Asked(s[a]), Asked(s[b])); }
          }
        }
        assert s.Keys - (seen + {a}) < s.Keys - seen by { assert a in s.Keys - seen; }
        SomeoneSteps(s, seen + {a}, b);
      }
    }
  }

  /** So while any transaction is unfinished, some transaction can take its next step. */
  lemma SomeTransactionCanStep(moves: seq<Move>, a: nat)
    requires a in Run(map[], moves) && Unfinished(Run(map[], moves)[a])
    ensures exists b :: CanStep(Run(map[], moves), b)
  {
    LocksHold(map[], moves);
    SomeoneSteps(Run(map[], moves), {}, a);
  }

  // ---------------------------------------------------------------- what the locks are for

  /** A credit or a debit locks its wallet and a transfer both of its own, unless it is refused before; each once. */
  lemma LocksWhatItNames(op: Op, id: string)
    ensures id in Wants(op) <==>
              || (op.CreditOf? && op.id == id) || (op.DebitOf? && op.id == id)
              || (op.TransferOf? && op.from != op.to && op.amount > 0 && (op.from == id || op.to == id))
    ensures forall i, j :: 0 <= i < j < |Wants(op)| ==> Wants(op)[i] != Wants(op)[j]
  {
    if op.TransferOf? { LessIsIrreflexive(op.from); }
  }

  /** No such transaction changes a wallet it has not locked. */
  lemma LocksCoverWrites(b: Book, op: Op, id: string)
    requires (op.CreditOf? || op.DebitOf? || op.TransferOf?) && id in b.wallets
    ensures id in Perform(b, op).wallets && (id !in Wants(op) ==> Perform(b, op).wallets[id] == b.wallets[id])
  {
    LocksWhatItNames(op, id);
  }

  function Nexts(a: nat, n: nat): seq<Move> { if n == 0 then [] else [Next(a)] + Nexts(a, n - 1) }

  lemma {:induction false} AloneItSteps(a: nat, t: Txn, n: nat)
    requires !t.ended && t.held + n <= |t.wants|
    ensures Run(map[a := t], Nexts(a, n)) == map[a := t.(held := t.held + n)]
    decreases n
  {
    if n > 0 {
      assert Nexts(a, n)[1..] == Nexts(a, n - 1);
      assert Do(map[a := t], Next(a)) == map[a := t.(held := t.held + 1)];
      AloneItSteps(a, t.(held := t.held + 1), n - 1);
    }
  }

  /** Alone, a transaction takes all its locks one by one and only then ends; rolled back anywhere, it holds nothing. */
  lemma AloneTakesEveryLock(a: nat, op: Op, n: nat)
    requires n <= |Wants(op)|
    ensures var arrived := Do(map[], Arrive(a, op));
            var s := Run(arrived, Nexts(a, n));
            && s == map[a := Txn(Wants(op), n, false)]
            && (Do(s, Next(a))[a].ended <==> n == |Wants(op)|)
            && (forall id :: !Holds(Do(s, Abort(a))[a], id)) && Do(s, Arrive(a, op)) == s
  {
    assert Do(map[], Arrive(a, op)) == map[a := Txn(Wants(op), 0, false)];
    AloneItSteps(a, Txn(Wants(op), 0, false), n);
  }

  // ---------------------------------------------------------------- progress

  /** Steps a transaction still has to take: its missing locks, and its end. */
  function Left(t: Txn): nat {
    if t.ended then 0 else 1 + (if t.held < |t.wants| then |t.wants| - t.held else 0)
  }

  ghost function Remaining(s: State, ids: set<nat>): nat
    requires ids <= s.Keys
    decreases |ids|
  {
    if ids == {} then 0
    else
      var a :| a in ids;
      Left(s[a]) + Remaining(s, ids - {a})
  }

  lemma {:induction false} RemainingTakes(s: State, ids: set<nat>, x: nat)
    requires ids <= s.Keys && x in ids
    ensures Remaining(s, ids) == Left(s[x]) + Remaining(s, ids - {x})
    decreases |ids|
  {
    var a :| a in ids && Remaining(s, ids) == Left(s[a]) + Remaining(s, ids - {a});
    if a != x {
      RemainingTakes(s, ids - {a}, x);
      RemainingTakes(s, ids - {x}, a);
      assert ids - {a} - {x} == ids - {x} - {a};
    }
  }

  lemma {:induction false} RemainingOfSame(s: State, t: State, ids: set<nat>)
    requires ids <= s.Keys && ids <= t.Keys && forall a :: a in ids ==> s[a] == t[a]
    ensures Remaining(s, ids) == Remaining(t, ids)
    decreases |ids|
  {
    if ids != {} {
      var a :| a in ids;
      RemainingTakes(s, ids, a);
      RemainingTakes(t, ids, a);
      RemainingOfSame(s, t, ids - {a});
    }
  }

  /** Every step anyone takes brings the whole set one step nearer its end. */
  lemma AdvanceMakesProgress(s: State, a: nat)
    requires CanStep(s, a)
    ensures Advance(s, a).Keys == s.Keys
    ensures Remaining(Advance(s, a), s.Keys) == Remaining(s, s.Keys) - 1
  {
    var t := Advance(s, a);
    assert t.Keys == s.Keys;
    RemainingTakes(s, s.Keys, a);
    RemainingTakes(t, s.Keys, a);
    RemainingOfSame(s, t, s.Keys - {a});
  }

  /** Nobody is left waiting: stepping whoever can step, all of them end in a bounded number of steps. */
  lemma {:induction false} AllCanFinish(moves: seq<Move>)
    ensures exists more: seq<Move> ::
              (forall i :: 0 <= i < |more| ==> more[i].Next?)
              && |more| == Remaining(Run(map[], moves), Run(map[], moves).Keys)
              && forall a :: a in Run(Run(map[], moves), more) ==> !Unfinished(Run(Run(map[], moves), more)[a])
  {
    LocksHold(map[], moves);
    var _ := Drain(Run(map[], moves));
  }

  lemma {:induction false} Drain(s: State) returns (more: seq<Move>)
    requires AllOrdered(s) && Exclusive(s)
    ensures forall i :: 0 <= i < |more| ==> more[i].Next?
    ensures |more| == Remaining(s, s.Keys)
    ensures forall a :: a in Run(s, more) ==> !Unfinished(Run(s, more)[a])
    decreases Remaining(s, s.Keys)
  {
    hide Exclusive, AllOrdered, CanStep;
    if a :| a in s && Unfinished(s[a]) {
      SomeoneSteps(s, {}, a);
      var b :| CanStep(s, b);
      AdvanceMakesProgress(s, b);
      AdvanceKeepsLocks(s, b);
      var rest := Drain(Advance(s, b));
      more := [Next(b)] + rest;
      assert more[1..] == rest;
    } else {
      AllEnded(s, s.Keys);
      more := [];
    }
  }

  lemma {:induction false} AllEnded(s: State, ids: set<nat>)
    requires ids <= s.Keys && forall a :: a in s ==> !Unfinished(s[a])
    ensures Remaining(s, ids) == 0
    decreases |ids|
  {
    if ids != {} {
      var a :| a in ids;
      RemainingTakes(s, ids, a);
      AllEnded(s, ids - {a});
    }
  }

  // ---------------------------------------------------------------- without the order

  /** Two transfers that each locked their own origin first would wait for each other for ever. */
  lemma UnorderedTransfersDeadlock(x: string, y: string)
    requires x != y
    ensures var s: State := map[0 := Txn([x, y], 1, false), 1 := Txn([y, x], 1, false)];
            Exclusive(s) && WaitsFor(s, 0, 1) && WaitsFor(s, 1, 0) && !CanStep(s, 0) && !CanStep(s, 1)
  {
    var s: State := map[0 := Txn([x, y], 1, false), 1 := Txn([y, x], 1, false)];
    assert s[0].wants[0] == x && s[1].wants[0] == y;
  }
}
