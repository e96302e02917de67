/** The committed tables, their unique indexes, and what a commit does to them. */
module Tables {
  import opened Wrappers
  import opened WalletOrder

  type UserId = nat
  type TxnId = nat
  type Email = string

  /** A row of wallets; the balance is in cents. */
  datatype Wallet = Wallet(owner: UserId, balance: int)

  datatype Kind = TopUpKind | TransferKind
  datatype Status = Pending | Completed

  /** A row of transactions; a top-up has no source wallet. */
  datatype Txn = Txn(id: TxnId, kind: Kind, status: Status, amount: int, source: Option<WalletId>, target: WalletId)

  datatype Side = Debit | Credit

  /** A row of ledger_entries. */
  datatype Entry = Entry(txn: TxnId, wallet: WalletId, side: Side, amount: int)

  /**
   The tables users, wallets, transactions and ledger_entries, with the unique indexes on users.email
   and wallets.user_id. Append-only tables are sequences, in the order their rows were committed.
   The same shape holds the private writes of a database transaction that has not committed.
   */
  datatype Db = Db(users: map<UserId, Email>, byEmail: map<Email, UserId>,
                   wallets: map<WalletId, Wallet>, byOwner: map<UserId, WalletId>,
                   txns: seq<Txn>, entries: seq<Entry>)

  const EMPTY := Db(map[], map[], map[], map[], [], [])

  /** A commit: the private writes replace or extend the committed rows. */
  function Flush(db: Db, delta: Db): Db {
    Db(db.users + delta.users, db.byEmail + delta.byEmail, db.wallets + delta.wallets,
       db.byOwner + delta.byOwner, db.txns + delta.txns, db.entries + delta.entries)
  }

  /** The wallet exists and is this user's. */
  predicate IsOwner(db: Db, x: WalletId, user: UserId) {
    x in db.wallets && db.wallets[x].owner == user
  }

  predicate HasTxn(db: Db, id: TxnId) {
    exists t | t in db.txns :: t.id == id
  }
}
