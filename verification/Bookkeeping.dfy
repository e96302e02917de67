/**
 Double-entry bookkeeping over whole runs: the ledger is the journal of the transactions, stored balances
 reconcile with it, and money is conserved up to the cents that rounding creates.
 */
module Bookkeeping {
  import opened Wrappers
  import opened Money
  import opened WalletOrder
  import opened Tables
  import opened Serial
  import opened Sessions
  import opened Serializability
  import opened Guarantees
  import opened Sums

  /* ---- The ledger is the journal of the transactions ---- */

  /** The ledger lines a transaction must have: a credit, and for a transfer a debit before it. */
  function Lines(t: Txn): seq<Entry> {
    match t.source
    case None => [Entry(t.id, t.target, Credit, t.amount)]
    case Some(source) => [Entry(t.id, source, Debit, t.amount), Entry(t.id, t.target, Credit, t.amount)]
  }

  function Journal(txns: seq<Txn>): seq<Entry>
    decreases |txns|
  {
    if txns == [] then [] else Journal(txns[..|txns| - 1]) + Lines(txns[|txns| - 1])
  }

  ghost predicate TxnOk(db: Db, t: Txn) {
    && t.status == Completed
    && 0 < t.amount < LIMIT
    && (t.kind == TopUpKind <==> t.source == None)
    && t.source != Some(t.target)
    && t.target in db.wallets
    && (t.source.Some? ==> t.source.value in db.wallets)
  }

  ghost predicate LedgerOk(db: Db) {
    && db.entries == Journal(db.txns)
    && (forall t :: t in db.txns ==> TxnOk(db, t))
    && (forall i, j :: 0 <= i < j < |db.txns| ==> db.txns[i].id != db.txns[j].id)
  }

  lemma JournalGrows(txns: seq<Txn>, t: Txn)
    ensures Journal(txns + [t]) == Journal(txns) + Lines(t)
  {
    assert (txns + [t])[..|txns|] == txns;
  }

  /** What an accepted payment appends. */
  lemma PaymentAppends(db: Db, o: Order)
    requires Apply(db, o).Accepted? && !o.req.Register?
    ensures var v := Apply(db, o); var t := v.db.txns[|db.txns|];
            && v.db.txns == db.txns + [t] && v.db.entries == db.entries + Lines(t)
            && v.db.wallets.Keys == db.wallets.Keys
            && TxnOk(v.db, t) && !HasTxn(db, t.id)
            && t == Txn(o.id, v.receipt.kind, Completed, Round(v.receipt.amount), v.receipt.source, v.receipt.target)
            && v.receipt.Paid? && v.receipt.amount == o.req.amount
  {
    hide Round;
  }

  lemma TxnStaysOk(db: Db, db': Db, t: Txn)
    requires TxnOk(db, t) && db.wallets.Keys <= db'.wallets.Keys
    ensures TxnOk(db', t)
  {
  }

  lemma RegisterKeepsBooks(db: Db, o: Order)
    requires Apply(db, o).Accepted? && o.req.Register?
    ensures var db' := Apply(db, o).db;
            db'.txns == db.txns && db'.entries == db.entries && db.wallets.Keys <= db'.wallets.Keys
  {
  }

  lemma ApplyKeepsLedger(db: Db, o: Order)
    requires LedgerOk(db) && Apply(db, o).Accepted?
    ensures LedgerOk(Apply(db, o).db)
  {
    var db' := Apply(db, o).db;
    if o.req.Register? {
      RegisterKeepsBooks(db, o);
    } else {
      PaymentAppends(db, o);
      JournalGrows(db.txns, db'.txns[|db.txns|]);
      hide Lines, Journal;
      assert forall i :: 0 <= i < |db.txns| ==> db.txns[i] in db.txns;
    }
    hide Apply, TxnOk, Journal, Lines;
    forall t | t in db.txns ensures TxnOk(db', t) {
      TxnStaysOk(db, db', t);
    }
  }

  lemma {:induction false} ReplayKeepsLedger(log: seq<Ticket>)
    requires Replay(log).Some?
    ensures LedgerOk(Replay(log).value)
    decreases |log|
  {
    if log != [] {
      hide LedgerOk, Apply;
      ReplayKeepsLedger(log[..|log| - 1]);
      ApplyKeepsLedger(Replay(log[..|log| - 1]).value, log[|log| - 1].order);
    } else {
      assert EMPTY.txns == [];
    }
  }

  function EntriesFor(entries: seq<Entry>, id: TxnId): seq<Entry>
    decreases |entries|
  {
    if entries == [] then [] else
    var rest := EntriesFor(entries[..|entries| - 1], id);
    var last := entries[|entries| - 1];
    if last.txn == id then rest + [last] else rest
  }

  lemma {:induction false} EntriesForSplits(a: seq<Entry>, b: seq<Entry>, id: TxnId)
    ensures EntriesFor(a + b, id) == EntriesFor(a, id) + EntriesFor(b, id)
    decreases |b|
  {
    if b == [] {
      assert a + b == a;
    } else {
      var init := b[..|b| - 1];
      EntriesForSplits(a, init, id);
      assert (a + b)[..|a + b| - 1] == a + init;
    }
  }

  lemma LinesFor(t: Txn, id: TxnId)
    ensures EntriesFor(Lines(t), id) == if t.id == id then Lines(t) else []
  {
    var credit := Entry(t.id, t.target, Credit, t.amount);
    assert [credit][..0] == [];
    if t.source.Some? {
      var debit := Entry(t.id, t.source.value, Debit, t.amount);
      assert [debit][..0] == [] && [debit, credit] == [debit] + [credit];
      EntriesForSplits([debit], [credit], id);
    }
  }

  lemma {:induction false} JournalOf(txns: seq<Txn>, i: nat)
    requires i < |txns| && forall j :: 0 <= j < |txns| && j != i ==> txns[j].id != txns[i].id
    ensures EntriesFor(Journal(txns), txns[i].id) == Lines(txns[i])
    decreases |txns|
  {
    var init, t := txns[..|txns| - 1], txns[|txns| - 1];
    EntriesForSplits(Journal(init), Lines(t), txns[i].id);
    LinesFor(t, txns[i].id);
    if i < |init| {
      JournalOf(init, i);
    } else {
      JournalWithout(init, t.id);
    }
  }

  lemma {:induction false} JournalWithout(txns: seq<Txn>, id: TxnId)
    requires forall t :: t in txns ==> t.id != id
    ensures EntriesFor(Journal(txns), id) == []
    decreases |txns|
  {
    if txns != [] {
      var init, t := txns[..|txns| - 1], txns[|txns| - 1];
      EntriesForSplits(Journal(init), Lines(t), id);
      LinesFor(t, id);
      JournalWithout(init, id);
    }
  }

  /**
   All or nothing: no committed transaction is pending; a top-up has exactly one credit, on its target; a
   transfer exactly one debit, on its source, and one credit of the same amount, on a different target.
   */
  lemma DoubleEntry(w: World, t: Txn)
    requires Reachable(w) && t in w.db.txns
    ensures t.status == Completed && t.amount > 0
    ensures t.kind == TopUpKind ==> EntriesFor(w.db.entries, t.id) == [Entry(t.id, t.target, Credit, t.amount)]
    ensures t.kind == TransferKind ==>
              t.source.Some? && t.source.value != t.target
              && EntriesFor(w.db.entries, t.id)
                 == [Entry(t.id, t.source.value, Debit, t.amount), Entry(t.id, t.target, Credit, t.amount)]
  {
    ReachableKeepsLedger(w);
    var i :| 0 <= i < |w.db.txns| && w.db.txns[i] == t;
    JournalOf(w.db.txns, i);
    assert TxnOk(w.db, t);
  }

  lemma ReachableKeepsLedger(w: World)
    requires Reachable(w)
    ensures LedgerOk(w.db)
  {
    hide Reachable, Inv, LedgerOk;
    ReachableHoldsInv(w);
    InvKeepsLedger(w);
  }

  lemma InvKeepsLedger(w: World)
    requires Inv(w)
    ensures LedgerOk(w.db)
  {
    hide SessionOk, LocksOk, ClaimsOk, LogOk, Replay, LedgerOk;
    ReplayKeepsLedger(w.log);
  }

  /** Every committed payment has its transaction row, and every transaction row its committed payment. */
  lemma {:induction false} TxnsAreReceipts(log: seq<Ticket>, t: Txn)
    requires Replay(log).Some?
    ensures t in Replay(log).value.txns <==> exists k :: k in log && IsTxnOf(t, k.receipt)
    decreases |log|
  {
    if log != [] {
      var init, last := log[..|log| - 1], log[|log| - 1];
      TxnsAreReceipts(init, t);
      var before := Replay(init).value;
      assert log == init + [last];
      assert forall k :: k in log <==> k in init || k == last;
      if last.order.req.Register? {
        assert !IsTxnOf(t, last.receipt);
      } else {
        PaymentAppends(before, last.order);
        hide Apply;
        assert IsTxnOf(t, last.receipt) <==> t == Apply(before, last.order).db.txns[|before.txns|];
      }
    }
  }

  predicate IsTxnOf(t: Txn, r: Receipt) {
    r.Paid? && t == Txn(r.txn, r.kind, Completed, Round(r.amount), r.source, r.target)
  }

  /* ---- Balances reconcile with the ledger ---- */

  function SumFor(entries: seq<Entry>, x: WalletId, side: Side): int
    decreases |entries|
  {
    if entries == [] then 0 else
    var last := entries[|entries| - 1];
    SumFor(entries[..|entries| - 1], x, side) + if last.wallet == x && last.side == side then last.amount else 0
  }

  lemma {:induction false} SumForSplits(a: seq<Entry>, b: seq<Entry>, x: WalletId, side: Side)
    ensures SumFor(a + b, x, side) == SumFor(a, x, side) + SumFor(b, x, side)
    decreases |b|
  {
    if b == [] {
      assert a + b == a;
    } else {
      SumForSplits(a, b[..|b| - 1], x, side);
      assert (a + b)[..|a + b| - 1] == a + b[..|b| - 1];
    }
  }

  /** Half-cent transfers out of wallet `x`: each left one cent more there than its debit says. */
  function SparesOut(log: seq<Ticket>, x: WalletId): nat
    decreases |log|
  {
    if log == [] then 0 else
    SparesOut(log[..|log| - 1], x) + SpareOut(log[|log| - 1].receipt, x)
  }

  function SpareOut(r: Receipt, x: WalletId): nat {
    if r.Paid? && r.source == Some(x) then Spare(r.amount) else 0
  }

  function BalanceOf(db: Db, x: WalletId): int {
    if x in db.wallets then db.wallets[x].balance else 0
  }

  /** One payment moves each balance by its own ledger lines, plus the spare cent of a half-cent debit. */
  lemma ApplyMovesBalance(db: Db, o: Order, x: WalletId)
    requires Consistent(db) && Apply(db, o).Accepted? && !o.req.Register?
    ensures var v := Apply(db, o); var t := v.db.txns[|db.txns|];
            BalanceOf(v.db, x) - BalanceOf(db, x)
            == SumFor(Lines(t), x, Credit) - SumFor(Lines(t), x, Debit) + SpareOut(v.receipt, x)
  {
    PaymentAppends(db, o);
    var v := Apply(db, o);
    var t := v.db.txns[|db.txns|];
    FittingAmountIsPositive(o.req.amount);
    RoundAfterAdding(db.wallets[t.target].balance, o.req.amount);
    if t.source.Some? {
      RoundAfterTaking(db.wallets[t.source.value].balance, o.req.amount);
    }
    LinesSum(t, x);
    hide Round, SumFor, Lines, AmountFits, BalanceFits, HasTxn;
  }

  lemma LinesSum(t: Txn, x: WalletId)
    ensures SumFor(Lines(t), x, Credit) == if t.target == x then t.amount else 0
    ensures SumFor(Lines(t), x, Debit) == if t.source == Some(x) then t.amount else 0
  {
    var credit := Entry(t.id, t.target, Credit, t.amount);
    assert [credit][..0] == [];
    if t.source.Some? {
      var debit := Entry(t.id, t.source.value, Debit, t.amount);
      assert [debit][..0] == [] && [debit, credit] == [debit] + [credit];
      SumForSplits([debit], [credit], x, Credit);
      SumForSplits([debit], [credit], x, Debit);
    }
  }

  lemma {:induction false} ReplayReconciles(log: seq<Ticket>, x: WalletId)
    requires Replay(log).Some?
    ensures var db := Replay(log).value;
            BalanceOf(db, x) == SumFor(db.entries, x, Credit) - SumFor(db.entries, x, Debit) + SparesOut(log, x)
    decreases |log|
  {
    if log != [] {
      var init, last := log[..|log| - 1], log[|log| - 1];
      ReplayReconciles(init, x);
      ReplayIsConsistent(init);
      var before := Replay(init).value;
      if !last.order.req.Register? {
        ApplyMovesBalance(before, last.order, x);
        PaymentAppends(before, last.order);
        hide Apply, Lines, SumFor;
        var lines := Lines(Replay(log).value.txns[|before.txns|]);
        SumForSplits(before.entries, lines, x, Credit);
        SumForSplits(before.entries, lines, x, Debit);
      }
    }
  }

  /**
   Reconciliation, for arbitrary amounts: a stored balance is its credits minus its debits, plus one cent
   for every transfer out of the wallet whose amount ends in exactly half a cent.
   */
  lemma BalancesReconcile(w: World, x: WalletId)
    requires Reachable(w) && x in w.db.wallets
    ensures w.db.wallets[x].balance
            == SumFor(w.db.entries, x, Credit) - SumFor(w.db.entries, x, Debit) + SparesOut(w.log, x)
  {
    ReachableIsSerial(w);
    ReplayReconciles(w.log, x);
  }

  /** The ledger agrees with a balance exactly when no half-cent transfer has left the wallet. */
  lemma {:induction false} SparesCountHalfCents(log: seq<Ticket>, x: WalletId)
    ensures SparesOut(log, x) == 0 <==>
            forall t :: t in log && t.receipt.Paid? && t.receipt.source == Some(x) ==> !HalfCent(t.receipt.amount)
    decreases |log|
  {
    if log != [] {
      var init, last := log[..|log| - 1], log[|log| - 1];
      SparesCountHalfCents(init, x);
      assert forall t :: t in log <==> t in init || t == last;
    }
  }

  lemma BalanceEqualsLedgerIff(w: World, x: WalletId)
    requires Reachable(w) && x in w.db.wallets
    ensures w.db.wallets[x].balance == SumFor(w.db.entries, x, Credit) - SumFor(w.db.entries, x, Debit) <==>
            forall t :: t in w.log && t.receipt.Paid? && t.receipt.source == Some(x) ==> !HalfCent(t.receipt.amount)
  {
    hide Reachable, SumFor, HalfCent;
    BalancesReconcile(w, x);
    SparesCountHalfCents(w.log, x);
  }

  /** No overdraft: every committed balance is zero or more, and fits its column. */
  lemma NoOverdraft(w: World, x: WalletId)
    requires Reachable(w) && x in w.db.wallets
    ensures 0 <= w.db.wallets[x].balance <= 999_999_999_999_999_999
  {
    hide Reachable, Replay;
    ReachableIsSerial(w);
    ReplayIsConsistent(w.log);
  }

  /* ---- Money is conserved ---- */

  function Balances(wallets: map<WalletId, Wallet>): map<WalletId, int> {
    map x | x in wallets :: wallets[x].balance
  }

  /** Cents that entered the system: the stored amounts of all top-ups. */
  function ToppedUp(txns: seq<Txn>): int
    decreases |txns|
  {
    if txns == [] then 0 else
    ToppedUp(txns[..|txns| - 1]) + if txns[|txns| - 1].kind == TopUpKind then txns[|txns| - 1].amount else 0
  }

  /** The number of half-cent transfers in a history. */
  function Spares(log: seq<Ticket>): nat
    decreases |log|
  {
    if log == [] then 0 else
    Spares(log[..|log| - 1]) + var r := log[|log| - 1].receipt;
    if r.Paid? && r.source.Some? then Spare(r.amount) else 0
  }

  lemma BalanceWritten(wallets: map<WalletId, Wallet>, x: WalletId, row: Wallet)
    ensures Total(Balances(wallets[x := row]))
            == Total(Balances(wallets)) + row.balance - (if x in wallets then wallets[x].balance else 0)
  {
    TotalAfterUpdate(Balances(wallets), x, row.balance);
    assert Balances(wallets[x := row]) == Balances(wallets)[x := row.balance];
  }

  /** A top-up raises the total by its stored amount; a transfer by nothing, or by the one spare cent. */
  lemma ApplyMovesTotal(db: Db, o: Order)
    requires Consistent(db) && Apply(db, o).Accepted?
    ensures var v := Apply(db, o);
            Total(Balances(v.db.wallets)) - Total(Balances(db.wallets))
            == match o.req
               case TopUp(_, amount) => Round(amount)
               case Transfer(_, _, amount) => Spare(amount)
               case Register(_) => 0
  {
    hide Total, Balances;
    var v := Apply(db, o);
    match o.req
    case Register(_) =>
      BalanceWritten(db.wallets, o.wallet, Wallet(o.id, 0));
    case TopUp(user, amount) =>
      var x := db.byOwner[user];
      FittingAmountIsPositive(amount);
      RoundAfterAdding(db.wallets[x].balance, amount);
      BalanceWritten(db.wallets, x, v.db.wallets[x]);
      hide Round;
    case Transfer(user, to, amount) =>
      var x := db.byOwner[user];
      FittingAmountIsPositive(amount);
      RoundAfterTaking(db.wallets[x].balance, amount);
      RoundAfterAdding(db.wallets[to].balance, amount);
      BalanceWritten(db.wallets, x, v.db.wallets[x]);
      BalanceWritten(db.wallets[x := v.db.wallets[x]], to, v.db.wallets[to]);
      hide Round;
  }

  lemma {:induction false} ReplayConserves(log: seq<Ticket>)
    requires Replay(log).Some?
    ensures Total(Balances(Replay(log).value.wallets)) == ToppedUp(Replay(log).value.txns) + Spares(log)
    decreases |log|
  {
    if log != [] {
      var init, last := log[..|log| - 1], log[|log| - 1];
      ReplayConserves(init);
      ReplayIsConsistent(init);
      var before := Replay(init).value;
      var after := Replay(log).value;
      hide Total, Balances, Round;
      ApplyMovesTotal(before, last.order);
      if !last.order.req.Register? {
        PaymentAppends(before, last.order);
        assert after.txns[..|after.txns| - 1] == before.txns;
        ReceiptMatchesRequest(before, last.order);
        hide Apply;
      }
    } else {
      assert Balances(EMPTY.wallets) == map[];
    }
  }

  lemma ReceiptMatchesRequest(db: Db, o: Order)
    requires Apply(db, o).Accepted? && !o.req.Register?
    ensures var r := Apply(db, o).receipt;
            r.Paid? && (r.kind == TopUpKind <==> o.req.TopUp?) && (r.source.Some? <==> o.req.Transfer?)
  {
  }

  /** Conservation: all balances together are the top-ups, plus one cent for each half-cent transfer. */
  lemma MoneyIsConserved(w: World)
    requires Reachable(w)
    ensures Total(Balances(w.db.wallets)) == ToppedUp(w.db.txns) + Spares(w.log)
  {
    ReachableIsSerial(w);
    ReplayConserves(w.log);
  }

  lemma {:induction false} NoSparesIff(log: seq<Ticket>)
    ensures Spares(log) == 0 <==>
            forall t :: t in log && t.receipt.Paid? && t.receipt.source.Some? ==> !HalfCent(t.receipt.amount)
    decreases |log|
  {
    if log != [] {
      var init, last := log[..|log| - 1], log[|log| - 1];
      NoSparesIff(init);
      assert forall t :: t in log <==> t in init || t == last;
    }
  }

  /** Nothing but top-ups creates money exactly when no committed transfer ends in half a cent. */
  lemma BalancesEqualTopUpsIff(w: World)
    requires Reachable(w)
    ensures Total(Balances(w.db.wallets)) == ToppedUp(w.db.txns) <==>
            forall t :: t in w.log && t.receipt.Paid? && t.receipt.source.Some? ==> !HalfCent(t.receipt.amount)
  {
    hide Reachable, HalfCent, Total, Balances, ToppedUp;
    MoneyIsConserved(w);
    NoSparesIff(w.log);
  }

  /** Over the whole ledger: credits minus debits. */
  function Net(entries: seq<Entry>): int
    decreases |entries|
  {
    if entries == [] then 0 else
    var last := entries[|entries| - 1];
    Net(entries[..|entries| - 1]) + if last.side == Credit then last.amount else -last.amount
  }

  lemma {:induction false} NetSplits(a: seq<Entry>, b: seq<Entry>)
    ensures Net(a + b) == Net(a) + Net(b)
    decreases |b|
  {
    if b == [] {
      assert a + b == a;
    } else {
      NetSplits(a, b[..|b| - 1]);
      assert (a + b)[..|a + b| - 1] == a + b[..|b| - 1];
    }
  }

  lemma NetOfLines(t: Txn)
    ensures Net(Lines(t)) == if t.source == None then t.amount else 0
  {
    var credit := Entry(t.id, t.target, Credit, t.amount);
    assert [credit][..0] == [];
    if t.source.Some? {
      var debit := Entry(t.id, t.source.value, Debit, t.amount);
      assert [debit][..0] == [] && [debit, credit] == [debit] + [credit];
      NetSplits([debit], [credit]);
    }
  }

  lemma {:induction false} JournalBalances(txns: seq<Txn>)
    requires forall t :: t in txns ==> (t.kind == TopUpKind <==> t.source == None)
    ensures Net(Journal(txns)) == ToppedUp(txns)
    decreases |txns|
  {
    if txns != [] {
      var init, t := txns[..|txns| - 1], txns[|txns| - 1];
      JournalBalances(init);
      NetSplits(Journal(init), Lines(t));
      NetOfLines(t);
    }
  }

  /** Debits and credits of transfers cancel over the whole ledger: what is left is the top-ups. */
  lemma LedgerBalances(w: World)
    requires Reachable(w)
    ensures Net(w.db.entries) == ToppedUp(w.db.txns)
  {
    ReachableKeepsLedger(w);
    assert forall t :: t in w.db.txns ==> TxnOk(w.db, t);
    JournalBalances(w.db.txns);
  }

  /** Registration: e-mail addresses are distinct, and users and wallets pair up one to one. */
  lemma UsersAndWalletsPairUp(w: World)
    requires Reachable(w)
    ensures forall u, v :: u in w.db.users && v in w.db.users && w.db.users[u] == w.db.users[v] ==> u == v
    ensures forall u :: u in w.db.users ==> exists x :: x in w.db.wallets && w.db.wallets[x].owner == u
    ensures forall x :: x in w.db.wallets ==> w.db.wallets[x].owner in w.db.users
    ensures forall x, y :: x in w.db.wallets && y in w.db.wallets && w.db.wallets[x].owner == w.db.wallets[y].owner ==>
              x == y
  {
    hide Reachable, Replay;
    ReachableIsSerial(w);
    ReplayIsConsistent(w.log);
    forall u | u in w.db.users ensures exists x :: x in w.db.wallets && w.db.wallets[x].owner == u {
      assert w.db.byOwner[u] in w.db.wallets;
    }
  }

  /* ---- What the caller is told ---- */

  /**
   The balance in a receipt is the exact one of the serial run; the table holds it rounded, so the two
   agree if and only if the amount is in whole cents.
   */
  lemma ReceiptShowsBalance(db: Db, o: Order)
    requires Consistent(db) && Apply(db, o).Accepted? && !o.req.Register?
    ensures var v := Apply(db, o);
            var x := if v.receipt.source.Some? then v.receipt.source.value else v.receipt.target;
            && x in db.wallets && db.wallets[x].owner == o.req.user
            && v.db.wallets[x].balance == Round(v.receipt.balanceAfter)
            && v.receipt.balanceAfter
                == db.wallets[x].balance as real + (if o.req.TopUp? then o.req.amount else -o.req.amount)
            && (v.db.wallets[x].balance as real == v.receipt.balanceAfter <==> CentExact(o.req.amount))
  {
    var v := Apply(db, o);
    RoundIsNearest(v.receipt.balanceAfter);
    ShiftKeepsCents(db.wallets[db.byOwner[o.req.user]].balance, o.req.amount);
    hide Round, AmountFits, BalanceFits, HasTxn, CentExact;
  }

  lemma ShiftKeepsCents(n: int, x: real)
    ensures CentExact(n as real + x) <==> CentExact(x)
    ensures CentExact(n as real - x) <==> CentExact(x)
  {
    FloorOfShift(n, x);
    FloorOfShift(n, -x);
    if CentExact(x) {
      assert -x == (-x.Floor) as real;
    }
    if CentExact(-x) {
      assert x == (-(-x).Floor) as real;
    }
  }

  /** The cent at an input: the payer keeps 99.5 cents, which are stored as 100, and the payee gets one. */
  lemma HalfCentCreatesACent()
    ensures var db := Db(map[0 := "a", 1 := "b"], map["a" := 0, "b" := 1],
                         map["A" := Wallet(0, 100), "B" := Wallet(1, 0)], map[0 := "A", 1 := "B"], [], []);
            var v := Apply(db, Order(Transfer(0, "B", 0.5), 7, ""));
            && v.Accepted?
            && v.db.wallets["A"].balance == 100 && v.db.wallets["B"].balance == 1
            && v.db.entries == [Entry(7, "A", Debit, 1), Entry(7, "B", Credit, 1)]
  {
    assert Round(99.5) == 100 && Round(0.5) == 1;
  }
}
