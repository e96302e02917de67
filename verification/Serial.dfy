/**
 The reference semantics: each request as one indivisible change of the tables, and serial runs of
 requests. Nothing here knows about sessions, locks or buffered writes.
 */
module Serial {
  import opened Wrappers
  import opened Money
  import opened WalletOrder
  import opened Tables

  datatype Request =
    | TopUp(user: UserId, amount: real)
    | Transfer(user: UserId, to: WalletId, amount: real)
    | Register(email: Email)

  /** Rejected is a constraint of the database, Unavailable any other failure on the way. */
  datatype Error =
    | WalletNotFound
    | SelfTransfer
    | TargetWalletNotFound
    | InsufficientBalance
    | EmailConflict
    | Rejected
    | DuplicateKey
    | NilWallet
    | Unavailable

  /** What a successful request returns; balanceAfter is not rounded. */
  datatype Receipt =
    | Paid(txn: TxnId, kind: Kind, amount: real, source: Option<WalletId>, target: WalletId, balanceAfter: real)
    | Registered(user: UserId, email: Email, wallet: WalletId)

  /** A request with the keys that the database and the ID generator drew for it. */
  datatype Order = Order(req: Request, id: nat, wallet: WalletId)

  datatype Verdict = Accepted(db: Db, receipt: Receipt) | Refused(error: Error)

  /** The request, run alone from start to commit. */
  function Apply(db: Db, o: Order): Verdict {
    match o.req
    case TopUp(user, amount) => ApplyTopUp(db, o.id, user, amount)
    case Transfer(user, to, amount) => ApplyTransfer(db, o.id, user, to, amount)
    case Register(email) => ApplyRegister(db, o.id, o.wallet, email)
  }

  function ApplyTopUp(db: Db, id: TxnId, user: UserId, amount: real): Verdict {
    if user !in db.byOwner || db.byOwner[user] !in db.wallets then Refused(WalletNotFound) else
    var target := db.byOwner[user];
    var row := db.wallets[target];
    var after := row.balance as real + amount;
    if !AmountFits(amount) || !BalanceFits(after) then Refused(Rejected)
    else if HasTxn(db, id) then Refused(DuplicateKey)
    else Accepted(
      db.(wallets := db.wallets[target := row.(balance := Round(after))],
          txns := db.txns + [Txn(id, TopUpKind, Completed, Round(amount), None, target)],
          entries := db.entries + [Entry(id, target, Credit, Round(amount))]),
      Paid(id, TopUpKind, amount, None, target, after))
  }

  function ApplyTransfer(db: Db, id: TxnId, user: UserId, target: WalletId, amount: real): Verdict {
    if user !in db.byOwner || db.byOwner[user] !in db.wallets then Refused(WalletNotFound) else
    var source := db.byOwner[user];
    if source == target then Refused(SelfTransfer)
    else if target !in db.wallets then Refused(TargetWalletNotFound) else
    var payer, payee := db.wallets[source], db.wallets[target];
    var left, after := payer.balance as real - amount, payee.balance as real + amount;
    if left < 0.0 then Refused(InsufficientBalance)
    else if !AmountFits(amount) || !BalanceFits(after) then Refused(Rejected)
    else if HasTxn(db, id) then Refused(DuplicateKey)
    else Accepted(
      db.(wallets := db.wallets[source := payer.(balance := Round(left))][target := payee.(balance := Round(after))],
          txns := db.txns + [Txn(id, TransferKind, Completed, Round(amount), Some(source), target)],
          entries := db.entries + [Entry(id, source, Debit, Round(amount)), Entry(id, target, Credit, Round(amount))]),
      Paid(id, TransferKind, amount, Some(source), target, left))
  }

  function ApplyRegister(db: Db, user: UserId, wallet: WalletId, email: Email): Verdict {
    if email in db.byEmail then Refused(EmailConflict)
    else if user in db.users || user in db.byOwner || wallet in db.wallets then Refused(DuplicateKey)
    else Accepted(
      db.(users := db.users[user := email], byEmail := db.byEmail[email := user],
          wallets := db.wallets[wallet := Wallet(user, 0)], byOwner := db.byOwner[user := wallet]),
      Registered(user, email, wallet))
  }

  /** A serial run: every request after the one before it, all of them accepted. */
  function Play(db: Db, orders: seq<Order>): Option<Db>
    decreases |orders|
  {
    if orders == [] then Some(db) else
    match Play(db, orders[..|orders| - 1])
    case None => None
    case Some(before) =>
      match Apply(before, orders[|orders| - 1])
      case Refused(_) => None
      case Accepted(after, _) => Some(after)
  }

  /** What every serial run keeps: indexes match rows, owners and wallets pair up, balances are in range. */
  ghost predicate Consistent(db: Db) {
    && (forall e :: e in db.byEmail ==> db.byEmail[e] in db.users && db.users[db.byEmail[e]] == e)
    && (forall u :: u in db.users ==> db.users[u] in db.byEmail && db.byEmail[db.users[u]] == u)
    && db.users.Keys == db.byOwner.Keys
    && (forall u :: u in db.byOwner ==> db.byOwner[u] in db.wallets && db.wallets[db.byOwner[u]].owner == u)
    && (forall x :: x in db.wallets ==> db.wallets[x].owner in db.byOwner && db.byOwner[db.wallets[x].owner] == x)
    && (forall x :: x in db.wallets ==> 0 <= db.wallets[x].balance < LIMIT)
  }

  lemma ApplyKeepsConsistent(db: Db, o: Order)
    requires Consistent(db) && Apply(db, o).Accepted?
    ensures Consistent(Apply(db, o).db)
  {
    match o.req
    case TopUp(user, amount) =>
    case Transfer(user, to, amount) =>
      FittingAmountIsPositive(amount);
      RoundAfterTaking(db.wallets[db.byOwner[user]].balance, amount);
    case Register(email) =>
  }

  lemma {:induction false} PlayKeepsConsistent(db: Db, orders: seq<Order>)
    requires Consistent(db) && Play(db, orders).Some?
    ensures Consistent(Play(db, orders).value)
    decreases |orders|
  {
    if orders != [] {
      var init := orders[..|orders| - 1];
      PlayKeepsConsistent(db, init);
      ApplyKeepsConsistent(Play(db, init).value, orders[|orders| - 1]);
    }
  }
}
