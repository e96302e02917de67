/**
 Lists in pages: the defaults, the offset, the narrowing of limit and offset to 32 bits, the filtered
 queries and the page count. A query reads a snapshot of a table, its rows in the order the database
 returns them; the list, the count, and the pages of a walk may each have their own.
 */
module Paging {
  import opened Numbers
  import opened Wrappers
  import opened WalletOrder
  import opened Tables
  import opened Serial

  /* ---- dto/pagination.go ---- */

  class PaginationRequest {
    var page: int
    var limit: int

    constructor (page: int, limit: int)
      ensures this.page == page && this.limit == limit
    {
      this.page := page;
      this.limit := limit;
    }

    method SetDefaults()
      modifies this
      ensures page == if old(page) <= 0 then 1 else old(page)
      ensures limit == if old(limit) <= 0 then 10 else old(limit)
    {
      if page <= 0 {
        page := 1;
      }
      if limit <= 0 {
        limit := 10;
      }
    }

    function Offset(): int
      reads this
    {
      (page - 1) * limit
    }
  }

  /* ---- Queries ---- */

  const TWO_31 := 0x8000_0000
  const TWO_32 := 0x1_0000_0000

  /** Go's int32(x) of a 64-bit value: the low 32 bits, read as a signed number. */
  function Int32(x: int): int {
    var low := x % TWO_32;
    if low >= TWO_31 then low - TWO_32 else low
  }

  /** Narrowing gives the one 32-bit number that differs by a multiple of 2^32. */
  lemma Int32Fits(x: int)
    ensures -0x8000_0000 <= Int32(x) < 0x8000_0000 && (x - Int32(x)) % 0x1_0000_0000 == 0
    ensures Int32(x) == x <==> -0x8000_0000 <= x < 0x8000_0000
  {
  }

  function Where<T(!new)>(rows: seq<T>, keep: T -> bool): (kept: seq<T>)
    ensures forall x :: x in kept <==> x in rows && keep(x)
    decreases |rows|
  {
    if rows == [] then [] else
    var rest := Where(rows[1..], keep);
    if keep(rows[0]) then [rows[0]] + rest else rest
  }

  /** LIMIT and OFFSET, both non-negative. */
  function Slice<T>(rows: seq<T>, limit: nat, offset: nat): seq<T> {
    rows[Min(offset, |rows|)..Min(offset + limit, |rows|)]
  }

  /** The query with its narrowed arguments; PostgreSQL refuses a negative LIMIT or OFFSET. */
  function Query<T>(rows: seq<T>, limit: int, offset: int): Result<seq<T>, Error> {
    if Int32(limit) < 0 || Int32(offset) < 0 then Err(Unavailable)
    else Ok(Slice(rows, Int32(limit), Int32(offset)))
  }

  datatype Page<T> = Page(rows: seq<T>, current: int, perPage: int, totalItems: int, totalPages: int)

  function TotalPages(total: nat, limit: int): int
    requires limit > 0
  {
    (total + limit - 1) / limit
  }

  /** Page `p` of a list, as its reader means it. */
  function PageOf<T>(rows: seq<T>, limit: nat, p: nat): seq<T>
    requires p >= 1
  {
    Slice(rows, limit, (p - 1) * limit)
  }

  /* ---- Pages put together are the list ---- */

  function Pages<T>(rows: seq<T>, limit: nat, count: nat): seq<T>
  {
    if count == 0 then [] else Pages(rows, limit, count - 1) + PageOf(rows, limit, count)
  }

  lemma {:induction false} PagesArePrefix<T>(rows: seq<T>, limit: nat, count: nat)
    ensures 0 <= count * limit
    ensures Pages(rows, limit, count) == rows[..Min(count * limit, |rows|)]
  {
    if count > 0 {
      PagesArePrefix(rows, limit, count - 1);
      assert count * limit == (count - 1) * limit + limit;
    }
  }

  lemma TotalPagesCovers(total: nat, limit: int)
    requires limit > 0
    ensures TotalPages(total, limit) * limit >= total
    ensures total > 0 ==> (TotalPages(total, limit) - 1) * limit < total
    ensures TotalPages(total, limit) >= 0
  {
    var n := total + limit - 1;
    assert n == (n / limit) * limit + n % limit;
  }

  lemma NoPages(limit: int, count: int)
    requires limit > 0 && count == TotalPages(0, limit)
    ensures count == 0
  {
  }

  lemma Product(a: int, b: int, c: int)
    requires 0 <= a <= b && 0 <= c
    ensures 0 <= a * c <= b * c
  {
  }

  lemma EarlyPageIsFull<T>(rows: seq<T>, limit: nat, p: nat)
    requires 1 <= p && p * limit <= |rows|
    ensures |PageOf(rows, limit, p)| == limit
  {
    Product(0, p - 1, limit);
    assert p * limit == (p - 1) * limit + limit;
  }

  lemma PageStartsInside<T>(rows: seq<T>, limit: nat, p: nat)
    requires 1 <= p && 0 < limit && (p - 1) * limit < |rows|
    ensures PageOf(rows, limit, p) != []
  {
    Product(0, p - 1, limit);
  }

  lemma PagePastEnd<T>(rows: seq<T>, limit: nat, p: nat)
    requires 1 <= p && |rows| <= (p - 1) * limit
    ensures PageOf(rows, limit, p) == []
  {
  }

  lemma EarlyPagesAreFull<T>(rows: seq<T>, limit: nat, count: nat)
    requires 1 <= count && (count - 1) * limit <= |rows|
    ensures forall p :: 1 <= p < count ==> |PageOf(rows, limit, p)| == limit
  {
    hide PageOf;
    forall p | 1 <= p < count ensures |PageOf(rows, limit, p)| == limit {
      Product(p, count - 1, limit);
      EarlyPageIsFull(rows, limit, p);
    }
  }

  lemma LatePagesAreEmpty<T>(rows: seq<T>, limit: nat, count: nat)
    requires count * limit >= |rows|
    ensures forall p :: p > count ==> PageOf(rows, limit, p) == []
  {
    hide PageOf;
    forall p | p > count ensures PageOf(rows, limit, p) == [] {
      Product(count, p - 1, limit);
      PagePastEnd(rows, limit, p);
    }
  }

  /**
   Pages 1 to totalPages, put together, are the list: nothing is lost, repeated or reordered; each page
   before the last is full, the last one is not empty, and every later page is.
   */
  lemma PagesPartition<T>(rows: seq<T>, limit: int)
    requires limit > 0
    ensures var count := TotalPages(|rows|, limit);
            && count >= 0
            && Pages(rows, limit, count) == rows
            && (forall p :: 1 <= p < count ==> |PageOf(rows, limit, p)| == limit)
            && (rows != [] ==> count >= 1 && PageOf(rows, limit, count) != [])
            && (forall p :: p > count ==> PageOf(rows, limit, p) == [])
  {
    var count := TotalPages(|rows|, limit);
    TotalPagesCovers(|rows|, limit);
    hide TotalPages, Pages, PageOf;
    PagesArePrefix(rows, limit, count);
    LatePagesAreEmpty(rows, limit, count);
    if rows != [] {
      if count == 0 {
        Product(0, 0, limit);
        assert false;
      }
      PageStartsInside(rows, limit, count);
      EarlyPagesAreFull(rows, limit, count);
    } else {
      NoPages(limit, count);
    }
  }

  /* ---- Walking the pages while rows are added ---- */

  /** Rows have been added, anywhere; those that were there keep their order. */
  predicate Grown<T(==)>(before: seq<T>, after: seq<T>)
    decreases |after|
  {
    if before == [] then true
    else if after == [] then false
    else (before[0] == after[0] && Grown(before[1..], after[1..])) || Grown(before, after[1..])
  }

  /** A row only moves back. */
  lemma {:induction false} RowMovesBack<T>(before: seq<T>, after: seq<T>, i: nat) returns (j: nat)
    requires Grown(before, after) && i < |before|
    ensures i <= j < |after| && after[j] == before[i]
    decreases |after|
  {
    if before[0] == after[0] && Grown(before[1..], after[1..]) {
      if i == 0 {
        j := 0;
      } else {
        var k := RowMovesBack(before[1..], after[1..], i - 1);
        j := k + 1;
      }
    } else {
      var k := RowMovesBack(before, after[1..], i);
      j := k + 1;
    }
  }

  /** One snapshot for each page of a walk, taken one after the other. */
  ghost predicate Walk<T>(snaps: seq<seq<T>>) {
    forall p :: 0 <= p < |snaps| - 1 ==> Grown(snaps[p], snaps[p + 1])
  }

  /** Page `q` of the walk shows the row. */
  predicate ShownOn<T(==)>(snaps: seq<seq<T>>, limit: nat, q: nat, x: T) {
    1 <= q <= |snaps| && x in PageOf(snaps[q - 1], limit, q)
  }

  lemma OnPage<T>(rows: seq<T>, limit: nat, p: nat, i: nat)
    requires 1 <= p && (p - 1) * limit <= i < p * limit && i < |rows|
    ensures rows[i] in PageOf(rows, limit, p)
  {
    Product(0, p - 1, limit);
    assert p * limit == (p - 1) * limit + limit;
    assert PageOf(rows, limit, p)[i - (p - 1) * limit] == rows[i];
  }

  /** A row that is not before page `p` is shown on it or on a later one. */
  lemma {:induction false} RowIsMet<T>(snaps: seq<seq<T>>, limit: nat, p: nat, i: nat) returns (q: nat)
    requires Walk(snaps) && 1 <= p <= |snaps| && (p - 1) * limit <= i < |snaps[p - 1]|
    requires |snaps[|snaps| - 1]| <= |snaps| * limit
    ensures p <= q && ShownOn(snaps, limit, q, snaps[p - 1][i])
    decreases |snaps| - p
  {
    if i < p * limit {
      q := p;
      OnPage(snaps[p - 1], limit, p, i);
    } else {
      hide PageOf, Grown;
      assert Grown(snaps[p - 1], snaps[p]);
      var j := RowMovesBack(snaps[p - 1], snaps[p], i);
      q := RowIsMet(snaps, limit, p + 1, j);
    }
  }

  /** Rows are only added, so what a snapshot has, every later one has. */
  lemma {:induction false} RowStays<T>(snaps: seq<seq<T>>, p: nat, x: T)
    requires Walk(snaps) && p < |snaps| && x in snaps[p]
    ensures x in snaps[|snaps| - 1]
    decreases |snaps| - p
  {
    if p < |snaps| - 1 {
      var i :| 0 <= i < |snaps[p]| && snaps[p][i] == x;
      var j := RowMovesBack(snaps[p], snaps[p + 1], i);
      RowStays(snaps, p + 1, x);
    }
  }

  /**
   A walk that goes on to the page count it is last told, which was counted no earlier than the last list
   was read, shows every row that the first snapshot had, whatever is added meanwhile. It shows nothing but
   rows; some of them may come twice.
   */
  lemma WalkLosesNothing<T>(snaps: seq<seq<T>>, limit: int, total: nat)
    requires limit > 0 && snaps != [] && Walk(snaps)
    requires |snaps[|snaps| - 1]| <= total && TotalPages(total, limit) <= |snaps|
    ensures forall x :: x in snaps[0] ==> exists p: nat :: ShownOn(snaps, limit, p, x)
    ensures forall p: nat, x :: ShownOn(snaps, limit, p, x) ==> x in snaps[|snaps| - 1]
  {
    TotalPagesCovers(total, limit);
    Product(TotalPages(total, limit), |snaps|, limit);
    hide TotalPages, Walk;
    forall x | x in snaps[0] ensures exists p: nat :: ShownOn(snaps, limit, p, x) {
      var i :| 0 <= i < |snaps[0]| && snaps[0][i] == x;
      var q := RowIsMet(snaps, limit, 1, i);
    }
    forall p: nat, x | ShownOn(snaps, limit, p, x) ensures x in snaps[|snaps| - 1] {
      assert 1 <= p <= |snaps|;
      RowStays(snaps, p - 1, x);
    }
  }

  /* ---- When the 32-bit arguments answer the question asked ---- */

  /** Within 32 bits the query is the page asked for. */
  lemma QueryIsPage<T>(rows: seq<T>, limit: int, page: int)
    requires 1 <= limit <= 100 && page >= 1 && (page - 1) * limit < 0x8000_0000
    ensures 0 <= (page - 1) * limit
    ensures Query(rows, limit, (page - 1) * limit) == Ok(PageOf(rows, limit, page))
  {
    Product(0, page - 1, limit);
    Int32Fits((page - 1) * limit);
    Int32Fits(limit);
  }

  /** Beyond them it is not: some short list shows it, by an error or by rows of an early page. */
  lemma {:induction false} QueryIsPageIff(limit: int, page: int)
    requires 1 <= limit <= 100 && page >= 1
    ensures (forall rows: seq<int> :: Query(rows, limit, (page - 1) * limit) == Ok(PageOf(rows, limit, page)))
            <==> (page - 1) * limit < 0x8000_0000
  {
    var offset := (page - 1) * limit;
    Product(0, page - 1, limit);
    if offset < TWO_31 {
      forall rows: seq<int> ensures Query(rows, limit, offset) == Ok(PageOf(rows, limit, page)) {
        QueryIsPage(rows, limit, page);
      }
    } else {
      Int32Fits(limit);
      Int32Fits(offset);
      var wrapped := Int32(offset);
      var rows: seq<int> := if wrapped < 0 then [] else seq(wrapped + 1, i => 0);
      assert |rows| <= TWO_31;
      assert PageOf(rows, limit, page) == [];
      if wrapped >= 0 {
        assert Slice(rows, limit, wrapped) == [0];
      }
      assert Query(rows, limit, offset) != Ok(PageOf(rows, limit, page));
    }
  }

  /** A page so late that its offset is 2^32 is answered with the first page. */
  lemma LatePageRepeatsFirst(rows: seq<int>)
    ensures Query(rows, 64, (67_108_865 - 1) * 64) == Ok(PageOf(rows, 64, 1))
  {
    assert (67_108_865 - 1) * 64 == TWO_32;
  }

  /* ---- transaction_repository.go: FindAll ---- */

  /** The columns hold these texts; a filter is any text at all. */
  function KindText(kind: Kind): string {
    match kind
    case TopUpKind => "TOPUP"
    case TransferKind => "TRANSFER"
  }

  function StatusText(status: Status): string {
    match status
    case Pending => "PENDING"
    case Completed => "COMPLETED"
  }

  function SideText(side: Side): string {
    match side
    case Debit => "DEBIT"
    case Credit => "CREDIT"
  }

  /** What a filter text asks for; a text that no row has asks for nothing. */
  predicate OfKind(t: Txn, kind: Option<string>) {
    kind == None || (kind == Some("TOPUP") && t.kind.TopUpKind?) || (kind == Some("TRANSFER") && t.kind.TransferKind?)
  }

  predicate OfStatus(t: Txn, status: Option<string>) {
    || status == None
    || (status == Some("PENDING") && t.status.Pending?)
    || (status == Some("COMPLETED") && t.status.Completed?)
  }

  predicate Matches(t: Txn, kind: Option<string>, status: Option<string>) {
    OfKind(t, kind) && OfStatus(t, status)
  }

  function AllFilter(kind: Option<string>, status: Option<string>): Txn -> bool {
    t => Matches(t, kind, status)
  }

  /** A row is listed as often as it is there, if it is kept. */
  lemma {:induction false} WhereCounts<T(!new)>(rows: seq<T>, keep: T -> bool, x: T)
    ensures multiset(Where(rows, keep))[x] == if keep(x) then multiset(rows)[x] else 0
    decreases |rows|
  {
    if rows != [] {
      WhereCounts(rows[1..], keep, x);
      assert rows == [rows[0]] + rows[1..];
    }
  }

  lemma {:induction false} WhereAgrees<T(!new)>(rows: seq<T>, p: T -> bool, q: T -> bool)
    requires forall x :: x in rows ==> p(x) == q(x)
    ensures Where(rows, p) == Where(rows, q)
    decreases |rows|
  {
    if rows != [] {
      WhereAgrees(rows[1..], p, q);
    }
  }

  lemma {:induction false} WhereNone<T(!new)>(rows: seq<T>, keep: T -> bool)
    requires forall x :: x in rows ==> !keep(x)
    ensures Where(rows, keep) == []
    decreases |rows|
  {
    if rows != [] {
      WhereNone(rows[1..], keep);
    }
  }

  /** How often the transaction is listed under these filters. */
  function Listed(txns: seq<Txn>, t: Txn, kind: Option<string>, status: Option<string>): nat {
    multiset(Where(txns, AllFilter(kind, status)))[t]
  }

  lemma ListedIfMatching(txns: seq<Txn>, t: Txn, kind: Option<string>, status: Option<string>)
    ensures Listed(txns, t, kind, status) == if Matches(t, kind, status) then multiset(txns)[t] else 0
  {
    WhereCounts(txns, AllFilter(kind, status), t);
  }

  /**
   The filters by their texts: each text lists the rows of its kind or status, as often as they are there, no
   filter lists all, two filters list what each of them would, and a text that no row has lists nothing.
   */
  lemma AllFilterTexts(txns: seq<Txn>, t: Txn, kind: Option<string>, status: Option<string>)
    ensures var n := multiset(txns)[t];
            && Listed(txns, t, Some("TOPUP"), None) == (if t.kind == TopUpKind then n else 0)
            && Listed(txns, t, Some("TRANSFER"), None) == (if t.kind == TransferKind then n else 0)
            && Listed(txns, t, None, Some("PENDING")) == (if t.status == Pending then n else 0)
            && Listed(txns, t, None, Some("COMPLETED")) == (if t.status == Completed then n else 0)
            && Listed(txns, t, None, None) == n
    ensures Listed(txns, t, kind, status) == Min(Listed(txns, t, kind, None), Listed(txns, t, None, status))
    ensures kind.Some? && kind.value != "TOPUP" && kind.value != "TRANSFER" ==> Listed(txns, t, kind, status) == 0
    ensures status.Some? && status.value != "PENDING" && status.value != "COMPLETED" ==>
              Listed(txns, t, kind, status) == 0
  {
    hide Listed;
    ListedIfMatching(txns, t, Some("TOPUP"), None);
    ListedIfMatching(txns, t, Some("TRANSFER"), None);
    ListedIfMatching(txns, t, None, Some("PENDING"));
    ListedIfMatching(txns, t, None, Some("COMPLETED"));
    ListedIfMatching(txns, t, None, None);
    ListedIfMatching(txns, t, kind, None);
    ListedIfMatching(txns, t, None, status);
    ListedIfMatching(txns, t, kind, status);
  }

  /** The four queries, chosen by which filters are present, are one query with one predicate. */
  method FindAll(listed: seq<Txn>, counted: seq<Txn>, kind: Option<string>, status: Option<string>, limit: int,
                 offset: int)
    returns (r: Result<(seq<Txn>, int), Error>)
    ensures r == match Query(Where(listed, AllFilter(kind, status)), limit, offset)
                 case Ok(page) => Ok((page, |Where(counted, AllFilter(kind, status))|))
                 case Err(error) => Err(error)
  {
    var keep: Txn -> bool;
    if kind.Some? && status.Some? {
      keep := (t: Txn) => KindText(t.kind) == kind.value && StatusText(t.status) == status.value;
    } else if kind.Some? {
      keep := (t: Txn) => KindText(t.kind) == kind.value;
    } else if status.Some? {
      keep := (t: Txn) => StatusText(t.status) == status.value;
    } else {
      keep := (t: Txn) => true;
    }
    WhereAgrees(listed, keep, AllFilter(kind, status));
    WhereAgrees(counted, keep, AllFilter(kind, status));
    var page :- Query(Where(listed, keep), limit, offset);
    r := Ok((page, |Where(counted, keep)|));
  }

  /* ---- ledger_service.go: GetLedgerEntries ---- */

  predicate OnWallet(e: Entry, x: WalletId, side: Option<string>) {
    && e.wallet == x
    && (side == None || (side == Some("DEBIT") && e.side.Debit?) || (side == Some("CREDIT") && e.side.Credit?))
  }

  function EntryFilter(x: WalletId, side: Option<string>): Entry -> bool {
    e => OnWallet(e, x, side)
  }

  function EntriesOn(entries: seq<Entry>, x: WalletId, side: Option<string>): seq<Entry> {
    Where(entries, EntryFilter(x, side))
  }

  /**
   The filter by its texts: "DEBIT" lists the wallet's debits, "CREDIT" its credits, no filter both, each entry
   as often as it is there, and any other text lists nothing.
   */
  lemma LedgerFilterTexts(entries: seq<Entry>, x: WalletId, e: Entry)
    ensures var n, mine := multiset(entries)[e], e.wallet == x;
            && multiset(EntriesOn(entries, x, Some("DEBIT")))[e] == (if mine && e.side == Debit then n else 0)
            && multiset(EntriesOn(entries, x, Some("CREDIT")))[e] == (if mine && e.side == Credit then n else 0)
            && multiset(EntriesOn(entries, x, None))[e] == (if mine then n else 0)
            && forall text :: text != "DEBIT" && text != "CREDIT" ==> EntriesOn(entries, x, Some(text)) == []
  {
    WhereCounts(entries, EntryFilter(x, Some("DEBIT")), e);
    WhereCounts(entries, EntryFilter(x, Some("CREDIT")), e);
    WhereCounts(entries, EntryFilter(x, None), e);
    forall text | text != "DEBIT" && text != "CREDIT" ensures EntriesOn(entries, x, Some(text)) == [] {
      WhereNone(entries, EntryFilter(x, Some(text)));
    }
  }

  /** ledger_repository.go: FindByWalletID, with and without the entry type. */
  method FindByWalletID(listed: seq<Entry>, counted: seq<Entry>, x: WalletId, side: Option<string>, limit: int,
                        offset: int)
    returns (r: Result<(seq<Entry>, int), Error>)
    ensures r == match Query(EntriesOn(listed, x, side), limit, offset)
                 case Ok(page) => Ok((page, |EntriesOn(counted, x, side)|))
                 case Err(error) => Err(error)
  {
    var keep: Entry -> bool;
    if side.Some? {
      keep := (e: Entry) => e.wallet == x && SideText(e.side) == side.value;
    } else {
      keep := (e: Entry) => e.wallet == x;
    }
    WhereAgrees(listed, keep, EntryFilter(x, side));
    WhereAgrees(counted, keep, EntryFilter(x, side));
    var page :- Query(Where(listed, keep), limit, offset);
    r := Ok((page, |Where(counted, keep)|));
  }

  /** One page of the caller's ledger; the list and the count are two queries. */
  method GetLedgerEntries(db: Db, listed: seq<Entry>, counted: seq<Entry>, user: UserId, side: Option<string>,
                          pagination: PaginationRequest)
    returns (r: Result<Page<Entry>, Error>)
    modifies pagination
    ensures user !in db.byOwner ==> r == Err(WalletNotFound)
    ensures user in db.byOwner ==>
              && pagination.page == (if old(pagination.page) <= 0 then 1 else old(pagination.page))
              && pagination.limit == (if old(pagination.limit) <= 0 then 10 else old(pagination.limit))
    ensures user in db.byOwner ==>
              var rows := EntriesOn(listed, db.byOwner[user], side);
              var total := |EntriesOn(counted, db.byOwner[user], side)|;
              var page, limit := pagination.page, pagination.limit;
              r == match Query(rows, limit, (page - 1) * limit)
                   case Ok(shown) => Ok(Page(shown, page, limit, total, TotalPages(total, limit)))
                   case Err(error) => Err(error)
  {
    if user !in db.byOwner {
      return Err(WalletNotFound);
    }
    hide Query, EntriesOn;
    var wallet := db.byOwner[user];
    pagination.SetDefaults();
    var found :- FindByWalletID(listed, counted, wallet, side, pagination.limit, pagination.Offset());
    var (entries, total) := found;
    var shown: seq<Entry> := [];
    for i := 0 to |entries|
      invariant shown == entries[..i]
    {
      shown := shown + [entries[i]];
    }
    assert shown == entries;
    r := Ok(Page(shown, pagination.page, pagination.limit, total, (total + pagination.limit - 1) / pagination.limit));
  }
}
