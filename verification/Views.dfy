/** A user's views of the tables: the transaction listing, a transaction's detail, and the ledger agree. */
module Views {
  import opened Wrappers
  import opened WalletOrder
  import opened Tables
  import opened Serial
  import opened Sessions
  import opened Serializability
  import opened Guarantees
  import opened Bookkeeping
  import opened Answers
  import opened Paging

  /** WHERE (source_wallet_id = x OR target_wallet_id = x). */
  predicate Involves(t: Txn, x: WalletId) {
    t.source == Some(x) || t.target == x
  }

  function TxnFilter(x: WalletId, kind: Option<string>): Txn -> bool {
    t => Involves(t, x) && OfKind(t, kind)
  }

  function TxnsOn(txns: seq<Txn>, x: WalletId, kind: Option<string>): seq<Txn> {
    Where(txns, TxnFilter(x, kind))
  }

  /**
   The filter by its texts: "TOPUP" lists the wallet's top-ups, "TRANSFER" its transfers, no filter both, each
   as often as it is there, and any other text lists nothing.
   */
  lemma ListingFilterTexts(txns: seq<Txn>, x: WalletId, t: Txn)
    ensures var n, mine := multiset(txns)[t], t.source == Some(x) || t.target == x;
            && multiset(TxnsOn(txns, x, Some("TOPUP")))[t] == (if mine && t.kind == TopUpKind then n else 0)
            && multiset(TxnsOn(txns, x, Some("TRANSFER")))[t] == (if mine && t.kind == TransferKind then n else 0)
            && multiset(TxnsOn(txns, x, None))[t] == (if mine then n else 0)
            && forall text :: text != "TOPUP" && text != "TRANSFER" ==> TxnsOn(txns, x, Some(text)) == []
  {
    WhereCounts(txns, TxnFilter(x, Some("TOPUP")), t);
    WhereCounts(txns, TxnFilter(x, Some("TRANSFER")), t);
    WhereCounts(txns, TxnFilter(x, None), t);
    forall text | text != "TOPUP" && text != "TRANSFER" ensures TxnsOn(txns, x, Some(text)) == [] {
      WhereNone(txns, TxnFilter(x, Some(text)));
    }
  }

  datatype ViewError = NoWallet | NoTransaction | Unauthorized | QueryFailed

  /** transaction_repository.go: FindByWalletID, with and without the transaction type. */
  method FindByWalletID(listed: seq<Txn>, counted: seq<Txn>, x: WalletId, kind: Option<string>, limit: int, offset: int)
    returns (r: Result<(seq<Txn>, int), Error>)
    ensures r == match Query(TxnsOn(listed, x, kind), limit, offset)
                 case Ok(page) => Ok((page, |TxnsOn(counted, x, kind)|))
                 case Err(error) => Err(error)
  {
    var keep: Txn -> bool;
    if kind.Some? {
      keep := (t: Txn) => Involves(t, x) && KindText(t.kind) == kind.value;
    } else {
      keep := (t: Txn) => Involves(t, x);
    }
    WhereAgrees(listed, keep, TxnFilter(x, kind));
    WhereAgrees(counted, keep, TxnFilter(x, kind));
    var page :- Query(Where(listed, keep), limit, offset);
    r := Ok((page, |Where(counted, keep)|));
  }

  /** transaction_service.go: GetTransactions; the list and the count are two queries. */
  method GetTransactions(db: Db, listed: seq<Txn>, counted: seq<Txn>, user: UserId, kind: Option<string>,
                         pagination: PaginationRequest)
    returns (r: Result<Page<Txn>, ViewError>)
    modifies pagination
    ensures user !in db.byOwner ==> r == Err(NoWallet)
    ensures user in db.byOwner ==>
              && pagination.page == (if old(pagination.page) <= 0 then 1 else old(pagination.page))
              && pagination.limit == (if old(pagination.limit) <= 0 then 10 else old(pagination.limit))
    ensures user in db.byOwner ==>
              var rows := TxnsOn(listed, db.byOwner[user], kind);
              var total := |TxnsOn(counted, db.byOwner[user], kind)|;
              var page, limit := pagination.page, pagination.limit;
              r == match Query(rows, limit, (page - 1) * limit)
                   case Ok(shown) => Ok(Page(shown, page, limit, total, TotalPages(total, limit)))
                   case Err(_) => Err(QueryFailed)
  {
    if user !in db.byOwner {
      return Err(NoWallet);
    }
    hide Query, TxnsOn;
    pagination.SetDefaults();
    var found := FindByWalletID(listed, counted, db.byOwner[user], kind, pagination.limit, pagination.Offset());
    if found.Err? {
      return Err(QueryFailed);
    }
    var (txns, total) := found.value;
    var shown: seq<Txn> := [];
    for i := 0 to |txns|
      invariant shown == txns[..i]
    {
      shown := shown + [txns[i]];
    }
    assert shown == txns;
    r := Ok(Page(shown, pagination.page, pagination.limit, total, (total + pagination.limit - 1) / pagination.limit));
  }

  /** SELECT ... WHERE id = $1. */
  function TxnById(txns: seq<Txn>, id: TxnId): (t: Option<Txn>)
    ensures t.Some? ==> t.value in txns && t.value.id == id
    ensures t.None? ==> forall s :: s in txns ==> s.id != id
    decreases |txns|
  {
    if txns == [] then None
    else if txns[0].id == id then Some(txns[0])
    else TxnById(txns[1..], id)
  }

  /** What a user is shown of a transaction, in one state of the tables; the lines come in no fixed order. */
  function Detail(db: Db, user: UserId, id: TxnId): Result<(Txn, multiset<Entry>), ViewError> {
    DetailAcross(db, db, db, user, id)
  }

  /** The same when wallet, transaction and entries are read at different moments. */
  function DetailAcross(first: Db, second: Db, third: Db, user: UserId, id: TxnId)
    : Result<(Txn, multiset<Entry>), ViewError>
  {
    if user !in first.byOwner then Err(NoWallet) else
    match TxnById(second.txns, id)
    case None => Err(NoTransaction)
    case Some(txn) =>
      if !Involves(txn, first.byOwner[user]) then Err(Unauthorized)
      else Ok((txn, multiset(EntriesFor(third.entries, id))))
  }

  /** When a detail is refused, and how: no wallet, no such transaction, or one that names another's wallet only. */
  lemma DetailRefusedIff(first: Db, second: Db, third: Db, user: UserId, id: TxnId)
    requires Consistent(first)
    ensures var d := DetailAcross(first, second, third, user, id);
            && (d == Err(NoWallet) <==> forall x :: !IsOwner(first, x, user))
            && (d == Err(NoTransaction)
                <==> (exists x :: IsOwner(first, x, user)) && forall t :: t in second.txns ==> t.id != id)
            && (d == Err(Unauthorized) ==>
                  exists x, t :: IsOwner(first, x, user) && t in second.txns && t.id == id
                                 && t.source != Some(x) && t.target != x)
            && (d.Ok? ==>
                  && d.value.0 in second.txns && d.value.0.id == id
                  && d.value.1 == multiset(EntriesFor(third.entries, id))
                  && exists x :: IsOwner(first, x, user) && (d.value.0.source == Some(x) || d.value.0.target == x))
            && d != Err(QueryFailed)
  {
    OneWallet(first, user);
    if user in first.byOwner {
      assert IsOwner(first, first.byOwner[user], user);
    }
    hide Consistent, EntriesFor;
  }

  /** The response lists the lines in the order the database returned them. */
  predicate Shows(r: Result<(Txn, seq<Entry>), ViewError>, d: Result<(Txn, multiset<Entry>), ViewError>) {
    match r
    case Ok((txn, lines)) => d == Ok((txn, multiset(lines)))
    case Err(error) => d == Err(error)
  }

  /** Both entries of a transfer have one timestamp, so the rows of a query may come in any order. */
  lemma {:induction false} LinesInAnyOrder(entries: seq<Entry>, id: TxnId, e: Entry)
    ensures multiset(EntriesFor(entries, id))[e] == if e.txn == id then multiset(entries)[e] else 0
    decreases |entries|
  {
    if entries != [] {
      var init, last := entries[..|entries| - 1], entries[|entries| - 1];
      LinesInAnyOrder(init, id, e);
      assert entries == init + [last];
    }
  }

  /** ledger_repository.go: FindByTransactionID. */
  method FindByTransactionID(snapshot: seq<Entry>, id: TxnId) returns (found: seq<Entry>)
    ensures found == EntriesFor(snapshot, id)
  {
    found := [];
    for i := 0 to |snapshot|
      invariant found == EntriesFor(snapshot[..i], id)
    {
      assert snapshot[..i + 1][..i] == snapshot[..i];
      if snapshot[i].txn == id {
        found := found + [snapshot[i]];
      }
    }
    assert snapshot[..|snapshot|] == snapshot;
  }

  /**
   transaction_service.go: GetTransactionDetail. Its three queries read the tables of three moments; the last
   one returns its rows in whatever order.
   */
  method GetTransactionDetail(first: Db, second: Db, third: Db, snapshot: seq<Entry>, user: UserId, id: TxnId)
    returns (r: Result<(Txn, seq<Entry>), ViewError>)
    requires multiset(snapshot) == multiset(third.entries)
    ensures Shows(r, DetailAcross(first, second, third, user, id))
  {
    if user !in first.byOwner {
      return Err(NoWallet);
    }
    var wallet := first.byOwner[user];
    var found := TxnById(second.txns, id);
    if found.None? {
      return Err(NoTransaction);
    }
    var txn := found.value;
    var isAuthorized := false;
    if txn.target == wallet {
      isAuthorized := true;
    } else if txn.source.Some? && txn.source.value == wallet {
      isAuthorized := true;
    }
    if !isAuthorized {
      return Err(Unauthorized);
    }
    var entries := FindByTransactionID(snapshot, txn.id);
    forall e ensures multiset(entries)[e] == multiset(EntriesFor(third.entries, id))[e] {
      LinesInAnyOrder(snapshot, id, e);
      LinesInAnyOrder(third.entries, id, e);
    }
    assert multiset(entries) == multiset(EntriesFor(third.entries, id));
    return Ok((txn, entries));
  }

  /* ---- The views agree with the ledger ---- */

  lemma {:induction false} InEntriesFor(entries: seq<Entry>, id: TxnId, e: Entry)
    ensures e in EntriesFor(entries, id) <==> e in entries && e.txn == id
    decreases |entries|
  {
    if entries != [] {
      var init, last := entries[..|entries| - 1], entries[|entries| - 1];
      InEntriesFor(init, id, e);
      assert entries == init + [last];
    }
  }

  /** The ledger has an entry of the transaction on the wallet exactly when the transaction names the wallet. */
  lemma LedgerNamesWallets(w: World, t: Txn, x: WalletId)
    requires Reachable(w) && t in w.db.txns
    ensures Involves(t, x) <==> exists e :: e in w.db.entries && e.txn == t.id && e.wallet == x
  {
    hide Reachable, Inv;
    ReachableHoldsInv(w);
    DoubleEntry(w, t);
    forall e ensures e in Lines(t) <==> e in w.db.entries && e.txn == t.id {
      InEntriesFor(w.db.entries, t.id, e);
      assert EntriesFor(w.db.entries, t.id) == Lines(t) by {
        LinesOfCommitted(w, t);
      }
    }
    assert t.source.Some? ==> Entry(t.id, t.source.value, Debit, t.amount) in Lines(t);
    assert Entry(t.id, t.target, Credit, t.amount) in Lines(t);
  }

  lemma LinesOfCommitted(w: World, t: Txn)
    requires Inv(w) && t in w.db.txns
    ensures EntriesFor(w.db.entries, t.id) == Lines(t)
  {
    hide Inv;
    InvKeepsLedger(w);
    var i :| 0 <= i < |w.db.txns| && w.db.txns[i] == t;
    JournalOf(w.db.txns, i);
  }

  /**
   In every reachable state a user's transaction detail opens exactly for the transactions of the user's
   own listing, and these are the ones with a ledger entry on the user's wallet.
   */
  lemma DetailMatchesListing(w: World, user: UserId, t: Txn)
    requires Reachable(w) && user in w.db.byOwner && t in w.db.txns
    ensures Detail(w.db, user, t.id).Ok? <==> t in TxnsOn(w.db.txns, w.db.byOwner[user], None)
    ensures Detail(w.db, user, t.id).Ok?
            <==> exists e :: e in w.db.entries && e.txn == t.id && e.wallet == w.db.byOwner[user]
    ensures Detail(w.db, user, t.id).Ok? ==> Detail(w.db, user, t.id).value == (t, multiset(Lines(t)))
  {
    hide Reachable, Inv;
    LedgerNamesWallets(w, t, w.db.byOwner[user]);
    ReachableHoldsInv(w);
    LinesOfCommitted(w, t);
    IdsAreUnique(w, t);
  }

  lemma IdsAreUnique(w: World, t: Txn)
    requires Inv(w) && t in w.db.txns
    ensures forall s :: s in w.db.txns && s.id == t.id ==> s == t
  {
    hide Inv;
    InvKeepsLedger(w);
  }

  /* ---- Reads at different moments ---- */

  /**
   The three reads of a detail show one state, whatever commits between them: rows are only added, and a
   transaction's lines come with it. For a user without a wallet it is the first state, otherwise the second.
   */
  lemma DetailShowsOneState(w: World, a: seq<Action>, b: seq<Action>, user: UserId, id: TxnId)
    requires Inv(w) && IsRun(w, a) && IsRun(After(w, a), b)
    ensures var second := After(w, a); var third := After(second, b);
            DetailAcross(w.db, second.db, third.db, user, id)
            == Detail(if user in w.db.byOwner then second.db else w.db, user, id)
  {
    hide Inv;
    var second := After(w, a);
    var third := After(second, b);
    RunKeepsInv(w, a);
    RunKeepsInv(second, b);
    if user in w.db.byOwner {
      OwnerStays(w, a, user);
      var found := TxnById(second.db.txns, id);
      if found.Some? {
        TxnStays(second, b, found.value);
        LinesOfCommitted(second, found.value);
        LinesOfCommitted(third, found.value);
      }
    }
  }

  lemma OwnerStays(w: World, run: seq<Action>, user: UserId)
    requires Inv(w) && IsRun(w, run) && user in w.db.byOwner
    ensures user in After(w, run).db.byOwner && After(w, run).db.byOwner[user] == w.db.byOwner[user]
  {
    RunKeepsInv(w, run);
    RunGrows(w, run);
    HistoryIsTables(w);
    HistoryIsTables(After(w, run));
    hide Inv;
    var x := w.db.byOwner[user];
    assert x in After(w, run).db.wallets && After(w, run).db.wallets[x].owner == user;
  }

  lemma TxnStays(w: World, run: seq<Action>, t: Txn)
    requires Inv(w) && IsRun(w, run) && t in w.db.txns
    ensures t in After(w, run).db.txns
  {
    RunKeepsInv(w, run);
    RunGrowsLog(w, run);
    HistoryIsTables(w);
    HistoryIsTables(After(w, run));
    hide Inv, Replay, IsTxnOf, Consistent;
    TxnsAreReceipts(w.log, t);
    TxnsAreReceipts(After(w, run).log, t);
  }

  lemma {:induction false} WhereSplits<T(!new)>(a: seq<T>, b: seq<T>, p: T -> bool)
    ensures Where(a + b, p) == Where(a, p) + Where(b, p)
    decreases |a|
  {
    if a == [] {
      assert a + b == b;
    } else {
      WhereSplits(a[1..], b, p);
      assert (a + b)[1..] == a[1..] + b;
    }
  }

  lemma {:induction false} JournalCounts(txns: seq<Txn>, x: WalletId)
    requires forall t :: t in txns ==> t.source != Some(t.target)
    ensures |TxnsOn(txns, x, None)| == |EntriesOn(Journal(txns), x, None)|
    decreases |txns|
  {
    if txns != [] {
      var init, t := txns[..|txns| - 1], txns[|txns| - 1];
      assert txns == init + [t];
      JournalCounts(init, x);
      OneLineEach(t, x);
      CountsSplit(init, t, x);
    }
  }

  lemma WhereOne<T(!new)>(x: T, p: T -> bool)
    ensures Where([x], p) == if p(x) then [x] else []
  {
    assert [x][1..] == [];
  }

  lemma OneLineEach(t: Txn, x: WalletId)
    requires t.source != Some(t.target)
    ensures |EntriesOn(Lines(t), x, None)| == if Involves(t, x) then 1 else 0
    ensures |TxnsOn([t], x, None)| == if Involves(t, x) then 1 else 0
  {
    hide Where;
    var credit := Entry(t.id, t.target, Credit, t.amount);
    WhereOne(t, TxnFilter(x, None));
    WhereOne(credit, EntryFilter(x, None));
    if t.source.Some? {
      var debit := Entry(t.id, t.source.value, Debit, t.amount);
      WhereOne(debit, EntryFilter(x, None));
      WhereSplits([debit], [credit], EntryFilter(x, None));
      assert [debit, credit] == [debit] + [credit];
    }
  }

  lemma CountsSplit(init: seq<Txn>, t: Txn, x: WalletId)
    ensures |TxnsOn(init + [t], x, None)| == |TxnsOn(init, x, None)| + |TxnsOn([t], x, None)|
    ensures |EntriesOn(Journal(init) + Lines(t), x, None)|
            == |EntriesOn(Journal(init), x, None)| + |EntriesOn(Lines(t), x, None)|
  {
    WhereSplits(init, [t], TxnFilter(x, None));
    WhereSplits(Journal(init), Lines(t), EntryFilter(x, None));
  }

  /** A wallet's transaction count is its ledger entry count; this rests on refusing self-transfers. */
  lemma CountsAgree(w: World, x: WalletId)
    requires Reachable(w)
    ensures |TxnsOn(w.db.txns, x, None)| == |EntriesOn(w.db.entries, x, None)|
  {
    hide Reachable;
    ReachableKeepsLedger(w);
    assert forall t :: t in w.db.txns ==> TxnOk(w.db, t);
    JournalCounts(w.db.txns, x);
  }

  /* ---- Listings only grow ---- */

  /** The rows of a listing, the last committed first. */
  function Newest<T>(rows: seq<T>): seq<T>
    decreases |rows|
  {
    if rows == [] then [] else [rows[|rows| - 1]] + Newest(rows[..|rows| - 1])
  }

  lemma {:induction false} GrownBehind<T>(added: seq<T>, rows: seq<T>)
    ensures Grown(rows, added + rows)
    decreases |added| + |rows|
  {
    if added != [] {
      GrownBehind(added[1..], rows);
      assert (added + rows)[1..] == added[1..] + rows;
    } else if rows != [] {
      GrownBehind([], rows[1..]);
      assert [] + rows == rows && [] + rows[1..] == rows[1..];
    }
  }

  lemma {:induction false} NewestSplits<T>(a: seq<T>, b: seq<T>)
    ensures Newest(a + b) == Newest(b) + Newest(a)
    decreases |b|
  {
    if b == [] {
      assert a + b == a;
    } else {
      NewestSplits(a, b[..|b| - 1]);
      assert (a + b)[..|a + b| - 1] == a + b[..|b| - 1];
    }
  }

  lemma NewestGrows<T(!new)>(a: seq<T>, b: seq<T>, keep: T -> bool)
    requires a <= b
    ensures Grown(Newest(Where(a, keep)), Newest(Where(b, keep)))
  {
    var rest := b[|a|..];
    assert b == a + rest;
    WhereSplits(a, rest, keep);
    NewestSplits(Where(a, keep), Where(rest, keep));
    GrownBehind(Newest(Where(rest, keep)), Newest(Where(a, keep)));
  }

  /**
   Along a run a wallet's listings only grow, the last committed row first; a walk through the pages of one
   while others commit is a walk as WalkLosesNothing has it.
   */
  lemma ListingsGrow(w: World, run: seq<Action>, x: WalletId, kind: Option<string>, side: Option<string>)
    requires IsRun(w, run)
    ensures Grown(Newest(TxnsOn(w.db.txns, x, kind)), Newest(TxnsOn(After(w, run).db.txns, x, kind)))
    ensures Grown(Newest(EntriesOn(w.db.entries, x, side)), Newest(EntriesOn(After(w, run).db.entries, x, side)))
  {
    RunAppends(w, run);
    NewestGrows(w.db.txns, After(w, run).db.txns, TxnFilter(x, kind));
    NewestGrows(w.db.entries, After(w, run).db.entries, EntryFilter(x, side));
  }
}
