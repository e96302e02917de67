/**
 What a caller is told, in terms of the tables alone: which refusal a request gets and when it is accepted,
 what an accepted one changes, and that every receipt ever given stays true of the tables.
 */
module Answers {
  import opened Wrappers
  import opened Money
  import opened WalletOrder
  import opened Tables
  import opened Serial
  import opened Sessions
  import opened Serializability
  import opened Guarantees
  import opened Bookkeeping

  ghost predicate HasWallet(db: Db, user: UserId) {
    exists x :: IsOwner(db, x, user)
  }

  function Balance(db: Db, x: WalletId): real
    requires x in db.wallets
  {
    db.wallets[x].balance as real
  }

  /* ---- Why a request is refused ---- */

  ghost predicate TopUpFails(db: Db, user: UserId, amount: real, error: Error) {
    match error
    case WalletNotFound => !HasWallet(db, user)
    case Rejected => exists x :: IsOwner(db, x, user) && !Payable(db, x, amount)
    case _ => false
  }

  /** The wallet can take the amount: at least half a cent, and not more than its column holds. */
  predicate Payable(db: Db, x: WalletId, amount: real)
    requires x in db.wallets
  {
    0.5 <= amount && Balance(db, x) + amount < 999_999_999_999_999_999.5
  }

  ghost predicate TransferFails(db: Db, user: UserId, to: WalletId, amount: real, error: Error) {
    match error
    case WalletNotFound => !HasWallet(db, user)
    case SelfTransfer => IsOwner(db, to, user)
    case TargetWalletNotFound => HasWallet(db, user) && to !in db.wallets
    case InsufficientBalance =>
      exists x :: IsOwner(db, x, user) && x != to && to in db.wallets && amount > Balance(db, x)
    case Rejected =>
      exists x :: IsOwner(db, x, user) && x != to && to in db.wallets && amount <= Balance(db, x)
                  && !Payable(db, to, amount)
    case _ => false
  }

  ghost predicate RegisterFails(db: Db, email: Email, error: Error) {
    match error
    case EmailConflict => exists u :: u in db.users && db.users[u] == email
    case _ => false
  }

  /** The request gets this refusal, whatever keys are drawn for it. */
  ghost predicate Fails(db: Db, req: Request, error: Error) {
    match req
    case TopUp(user, amount) => TopUpFails(db, user, amount, error)
    case Transfer(user, to, amount) => TransferFails(db, user, to, amount, error)
    case Register(email) => RegisterFails(db, email, error)
  }

  /** Nothing speaks against the request. */
  ghost predicate Servable(db: Db, req: Request) {
    match req
    case TopUp(user, amount) => exists x :: IsOwner(db, x, user) && Payable(db, x, amount)
    case Transfer(user, to, amount) =>
      exists x :: IsOwner(db, x, user) && x != to && to in db.wallets && amount <= Balance(db, x)
                  && Payable(db, to, amount)
    case Register(email) => forall u :: u in db.users ==> db.users[u] != email
  }

  /** A key drawn for the request is already that of another row. */
  ghost predicate KeyIsTaken(db: Db, o: Order) {
    if o.req.Register? then o.id in db.users || o.wallet in db.wallets
    else exists t :: t in db.txns && t.id == o.id
  }

  /** In consistent tables the index on wallets.user_id finds the one wallet of a user. */
  lemma OneWallet(db: Db, user: UserId)
    requires Consistent(db)
    ensures forall x :: IsOwner(db, x, user) <==> user in db.byOwner && db.byOwner[user] == x
  {
  }

  /** The reasons, for a user whose wallet is known. */
  lemma TopUpReasons(db: Db, user: UserId, amount: real, x: WalletId)
    requires IsOwner(db, x, user) && forall y :: IsOwner(db, y, user) ==> y == x
    ensures forall error :: TopUpFails(db, user, amount, error) <==> error == Rejected && !Payable(db, x, amount)
    ensures Servable(db, TopUp(user, amount)) <==> Payable(db, x, amount)
  {
  }

  lemma TransferReasons(db: Db, user: UserId, to: WalletId, amount: real, x: WalletId, error: Error)
    requires IsOwner(db, x, user) && forall y :: IsOwner(db, y, user) ==> y == x
    ensures TransferFails(db, user, to, amount, error)
            <==> if to == x then error == SelfTransfer
                 else if to !in db.wallets then error == TargetWalletNotFound
                 else if amount > Balance(db, x) then error == InsufficientBalance
                 else error == Rejected && !Payable(db, to, amount)
    ensures Servable(db, Transfer(user, to, amount))
            <==> to != x && to in db.wallets && amount <= Balance(db, x) && Payable(db, to, amount)
  {
    hide Payable;
  }

  lemma NoWalletReasons(db: Db, req: Request, error: Error)
    requires !req.Register? && !HasWallet(db, req.user)
    ensures Fails(db, req, error) <==> error == WalletNotFound
    ensures !Servable(db, req)
  {
    hide Payable;
    assert req.Transfer? ==> !IsOwner(db, req.to, req.user);
  }

  /** A wallet's columns take the amount exactly when it is payable there. */
  lemma ColumnsFit(db: Db, x: WalletId, amount: real)
    requires Consistent(db) && x in db.wallets
    ensures AmountFits(amount) && BalanceFits(Balance(db, x) + amount) <==> Payable(db, x, amount)
  {
    assert Balance(db, x) >= 0.0;
    AmountFitsIff(amount);
    BalanceFitsIff(Balance(db, x) + amount);
    hide Consistent, AmountFits, BalanceFits;
  }

  lemma TopUpAnswer(db: Db, o: Order)
    requires Consistent(db) && o.req.TopUp?
    ensures forall error :: error != DuplicateKey ==> (Apply(db, o) == Refused(error) <==> Fails(db, o.req, error))
    ensures Apply(db, o) == Refused(DuplicateKey) <==> Servable(db, o.req) && KeyIsTaken(db, o)
    ensures Apply(db, o).Accepted? <==> Servable(db, o.req) && !KeyIsTaken(db, o)
  {
    var user, amount := o.req.user, o.req.amount;
    OneWallet(db, user);
    if user in db.byOwner {
      var x := db.byOwner[user];
      assert IsOwner(db, x, user);
      ColumnsFit(db, x, amount);
      hide Consistent, AmountFits, BalanceFits, Round, Payable, Servable, TopUpFails;
      TopUpReasons(db, user, amount, x);
    } else {
      hide Consistent, AmountFits, BalanceFits, Round, Payable;
      forall error ensures Fails(db, o.req, error) <==> error == WalletNotFound {
        NoWalletReasons(db, o.req, error);
      }
      NoWalletReasons(db, o.req, WalletNotFound);
    }
  }

  /** The refusals of a transfer, each exactly when its reason holds, and its acceptance. */
  lemma TransferAnswer(db: Db, o: Order)
    requires Consistent(db) && o.req.Transfer?
    ensures forall error :: error != DuplicateKey ==> (Apply(db, o) == Refused(error) <==> Fails(db, o.req, error))
    ensures Apply(db, o) == Refused(DuplicateKey) <==> Servable(db, o.req) && KeyIsTaken(db, o)
    ensures Apply(db, o).Accepted? <==> Servable(db, o.req) && !KeyIsTaken(db, o)
  {
    var user, to, amount := o.req.user, o.req.to, o.req.amount;
    OneWallet(db, user);
    if user in db.byOwner {
      var x := db.byOwner[user];
      assert IsOwner(db, x, user);
      if to in db.wallets {
        ColumnsFit(db, to, amount);
      }
      hide Consistent, AmountFits, BalanceFits, Round, Payable, Servable, TransferFails;
      TransferReasons(db, user, to, amount, x, DuplicateKey);
      forall error | error != DuplicateKey ensures Apply(db, o) == Refused(error) <==> Fails(db, o.req, error) {
        TransferReasons(db, user, to, amount, x, error);
      }
    } else {
      hide Consistent, AmountFits, BalanceFits, Round, Payable, Servable;
      forall error ensures Fails(db, o.req, error) <==> error == WalletNotFound {
        NoWalletReasons(db, o.req, error);
      }
      NoWalletReasons(db, o.req, WalletNotFound);
    }
  }

  lemma RegisterAnswer(db: Db, o: Order)
    requires Consistent(db) && o.req.Register?
    ensures forall error :: error != DuplicateKey ==> (Apply(db, o) == Refused(error) <==> Fails(db, o.req, error))
    ensures Apply(db, o) == Refused(DuplicateKey) <==> Servable(db, o.req) && KeyIsTaken(db, o)
    ensures Apply(db, o).Accepted? <==> Servable(db, o.req) && !KeyIsTaken(db, o)
  {
    KnownAddress(db, o.req.email);
  }

  /** The index on users.email finds the user of an address. */
  lemma KnownAddress(db: Db, email: Email)
    requires Consistent(db)
    ensures email in db.byEmail <==> exists u :: u in db.users && db.users[u] == email
  {
    if email in db.byEmail {
      assert db.byEmail[email] in db.users && db.users[db.byEmail[email]] == email;
    }
  }

  /**
   The answer of every request, by the tables alone. It is refused with an error exactly when that error's
   reason holds, and accepted exactly when none does and its keys are new.
   */
  lemma AnswerIff(db: Db, o: Order)
    requires Consistent(db)
    ensures forall error :: error != DuplicateKey ==> (Apply(db, o) == Refused(error) <==> Fails(db, o.req, error))
    ensures Apply(db, o) == Refused(DuplicateKey) <==> Servable(db, o.req) && KeyIsTaken(db, o)
    ensures Apply(db, o).Accepted? <==> Servable(db, o.req) && !KeyIsTaken(db, o)
  {
    hide Consistent, Apply, Fails, Servable, KeyIsTaken;
    match o.req
    case TopUp(_, _) => TopUpAnswer(db, o);
    case Transfer(_, _, _) => TransferAnswer(db, o);
    case Register(_) => RegisterAnswer(db, o);
  }

  /* ---- What an accepted request changes ---- */

  /** `cents` is the whole number of cents nearest to `x`, the greater one on a tie. */
  predicate Nearest(cents: int, x: real) {
    cents as real - 0.5 <= x < cents as real + 0.5
  }

  lemma RoundIsNearestCent(x: real)
    requires x >= 0.0
    ensures Nearest(Round(x), x)
  {
  }

  /** A top-up adds the nearest whole cents to the caller's wallet, one transaction and one credit, and no more. */
  lemma TopUpEffect(db: Db, o: Order) returns (wallet: WalletId, cents: int)
    requires Consistent(db) && o.req.TopUp? && Apply(db, o).Accepted?
    ensures IsOwner(db, wallet, o.req.user) && Nearest(cents, o.req.amount)
    ensures var v := Apply(db, o);
            && v.receipt == Paid(o.id, TopUpKind, o.req.amount, None, wallet, Balance(db, wallet) + o.req.amount)
            && v.db.wallets == db.wallets[wallet := Wallet(o.req.user, db.wallets[wallet].balance + cents)]
            && v.db.txns == db.txns + [Txn(o.id, TopUpKind, Completed, cents, None, wallet)]
            && v.db.entries == db.entries + [Entry(o.id, wallet, Credit, cents)]
            && v.db.users == db.users && v.db.byEmail == db.byEmail && v.db.byOwner == db.byOwner
  {
    var amount := o.req.amount;
    wallet, cents := db.byOwner[o.req.user], Round(amount);
    FittingAmountIsPositive(amount);
    RoundIsNearestCent(amount);
    RoundAfterAdding(db.wallets[wallet].balance, amount);
    hide AmountFits, BalanceFits, Round, HasTxn;
  }

  /**
   A transfer takes the amount from the caller's wallet, which keeps the nearest whole cents of what is left,
   adds the nearest whole cents of the amount to the other wallet, and records one transaction, one debit
   and one credit, and no more.
   */
  lemma TransferEffect(db: Db, o: Order) returns (source: WalletId, cents: int, left: int)
    requires Consistent(db) && o.req.Transfer? && Apply(db, o).Accepted?
    ensures IsOwner(db, source, o.req.user) && source != o.req.to && o.req.to in db.wallets
    ensures Nearest(cents, o.req.amount) && Nearest(left, Balance(db, source) - o.req.amount)
    ensures var v := Apply(db, o); var to := o.req.to; var payee := db.wallets[to];
            && v.receipt == Paid(o.id, TransferKind, o.req.amount, Some(source), to, Balance(db, source) - o.req.amount)
            && v.db.wallets
                == db.wallets[source := Wallet(o.req.user, left)][to := Wallet(payee.owner, payee.balance + cents)]
            && v.db.txns == db.txns + [Txn(o.id, TransferKind, Completed, cents, Some(source), to)]
            && v.db.entries == db.entries + [Entry(o.id, source, Debit, cents), Entry(o.id, to, Credit, cents)]
            && v.db.users == db.users && v.db.byEmail == db.byEmail && v.db.byOwner == db.byOwner
  {
    var amount := o.req.amount;
    source, cents := db.byOwner[o.req.user], Round(amount);
    left := Round(Balance(db, source) - amount);
    FittingAmountIsPositive(amount);
    RoundIsNearestCent(amount);
    RoundIsNearestCent(Balance(db, source) - amount);
    RoundAfterAdding(db.wallets[o.req.to].balance, amount);
    hide AmountFits, BalanceFits, Round, HasTxn, Nearest;
  }

  /** A registration stores one new user under the address and one new empty wallet of that user, and tells both. */
  lemma RegisterEffect(db: Db, o: Order)
    requires Consistent(db) && o.req.Register? && Apply(db, o).Accepted?
    ensures var v := Apply(db, o); var r := v.receipt;
            && r.Registered? && r.email == o.req.email
            && r.user !in db.users && r.wallet !in db.wallets && o.req.email !in db.byEmail
            && v.db.users == db.users[r.user := o.req.email]
            && v.db.byEmail == db.byEmail[o.req.email := r.user]
            && v.db.wallets == db.wallets[r.wallet := Wallet(r.user, 0)]
            && v.db.byOwner == db.byOwner[r.user := r.wallet]
            && v.db.txns == db.txns && v.db.entries == db.entries
  {
  }

  /* ---- Receipts stay true ---- */

  /** The receipt is for this request, and names the user, the wallets and the amount it is about. */
  predicate ReceiptFor(db: Db, r: Receipt, req: Request) {
    match req
    case TopUp(user, amount) =>
      r.Paid? && r.kind == TopUpKind && r.amount == amount && r.source == None && IsOwner(db, r.target, user)
    case Transfer(user, to, amount) =>
      && r.Paid? && r.kind == TransferKind && r.amount == amount
      && r.source.Some? && IsOwner(db, r.source.value, user)
      && r.target == to && r.target in db.wallets && r.source.value != to
    case Register(email) =>
      && r.Registered? && r.email == email
      && r.user in db.users && db.users[r.user] == email && IsOwner(db, r.wallet, r.user)
  }

  /** The rows of a payment: its completed transaction and its ledger lines, in the cents nearest to its amount. */
  ghost predicate Booked(db: Db, r: Receipt) {
    r.Paid? ==>
      exists cents ::
        && Nearest(cents, r.amount)
        && Txn(r.txn, r.kind, Completed, cents, r.source, r.target) in db.txns
        && Entry(r.txn, r.target, Credit, cents) in db.entries
        && (r.source.Some? ==> Entry(r.txn, r.source.value, Debit, cents) in db.entries)
  }

  /** Users, wallets, their owners, transactions and entries are still there. */
  ghost predicate Keeps(db: Db, after: Db) {
    && (forall u :: u in db.users ==> u in after.users && after.users[u] == db.users[u])
    && (forall x :: x in db.wallets ==> x in after.wallets && after.wallets[x].owner == db.wallets[x].owner)
    && (forall t :: t in db.txns ==> t in after.txns)
    && (forall e :: e in db.entries ==> e in after.entries)
  }

  lemma ApplyKeeps(db: Db, o: Order)
    requires Consistent(db) && Apply(db, o).Accepted?
    ensures Keeps(db, Apply(db, o).db)
  {
    hide Apply, Consistent, Nearest;
    match o.req
    case TopUp(_, _) => var _, _ := TopUpEffect(db, o);
    case Transfer(_, _, _) => var _, _, _ := TransferEffect(db, o);
    case Register(_) => RegisterEffect(db, o);
  }

  lemma AcceptedIsFor(db: Db, o: Order)
    requires Consistent(db) && Apply(db, o).Accepted?
    ensures ReceiptFor(Apply(db, o).db, Apply(db, o).receipt, o.req) && Booked(Apply(db, o).db, Apply(db, o).receipt)
  {
    hide Apply, Consistent, Nearest;
    var after := Apply(db, o).db;
    match o.req
    case TopUp(_, _) =>
      var wallet, cents := TopUpEffect(db, o);
      assert after.txns[|db.txns|] in after.txns && after.entries[|db.entries|] in after.entries;
    case Transfer(_, _, _) =>
      var source, cents, _ := TransferEffect(db, o);
      assert after.txns[|db.txns|] in after.txns;
      assert after.entries[|db.entries|] in after.entries && after.entries[|db.entries| + 1] in after.entries;
    case Register(_) => RegisterEffect(db, o);
  }

  lemma StaysFor(db: Db, after: Db, r: Receipt, req: Request)
    requires Keeps(db, after)
    ensures ReceiptFor(db, r, req) ==> ReceiptFor(after, r, req)
    ensures Booked(db, r) ==> Booked(after, r)
  {
    hide Nearest;
  }

  lemma {:induction false} ReplayKeepsReceipts(log: seq<Ticket>, t: Ticket)
    requires Replay(log).Some? && t in log
    ensures ReceiptFor(Replay(log).value, t.receipt, t.order.req) && Booked(Replay(log).value, t.receipt)
    decreases |log|
  {
    var init, last := log[..|log| - 1], log[|log| - 1];
    assert log == init + [last];
    ReplayIsConsistent(init);
    var before := Replay(init).value;
    if t in init {
      ReplayKeepsReceipts(init, t);
      ApplyKeeps(before, last.order);
      hide Apply, Consistent, ReceiptFor, Booked, Keeps;
      StaysFor(before, Replay(log).value, t.receipt, t.order.req);
    } else {
      AcceptedIsFor(before, last.order);
      hide Apply, Consistent, ReceiptFor, Booked;
    }
  }

  /**
   Every receipt ever given is true of the tables from then on: it is for the request that was made, a
   registration's names the stored user of its address and that user's wallet, a payment's the wallet of its
   user and the other wallet, and its transaction and ledger lines are there.
   */
  lemma ReceiptsStayTrue(w: World, t: Ticket)
    requires Inv(w) && t in w.log
    ensures ReceiptFor(w.db, t.receipt, t.order.req) && Booked(w.db, t.receipt)
    ensures t.receipt.Registered? ==>
              var r := t.receipt;
              && r.email in w.db.byEmail && w.db.byEmail[r.email] == r.user
              && r.user in w.db.byOwner && w.db.byOwner[r.user] == r.wallet
  {
    hide SessionOk, LocksOk, ClaimsOk, LogOk, Replay, Booked;
    ReplayKeepsReceipts(w.log, t);
    HistoryIsTables(w);
  }

  lemma {:induction false} PrefixReplays(log: seq<Ticket>, n: nat)
    requires Replay(log).Some? && n <= |log|
    ensures Replay(log[..n]).Some?
    decreases |log|
  {
    if n < |log| {
      PrefixReplays(log[..|log| - 1], n);
      assert log[..|log| - 1][..n] == log[..n];
    } else {
      assert log[..n] == log;
    }
  }

  /** The wallet that a payment's caller is told about. */
  function CallersWallet(r: Receipt): WalletId
    requires r.Paid?
  {
    if r.source.Some? then r.source.value else r.target
  }

  lemma BalanceTold(db: Db, o: Order)
    requires Consistent(db) && Apply(db, o).Accepted? && Apply(db, o).receipt.Paid?
    ensures var v := Apply(db, o); var x := CallersWallet(v.receipt);
            && !o.req.Register? && IsOwner(db, x, o.req.user) && IsOwner(v.db, x, o.req.user)
            && v.receipt.balanceAfter == Balance(db, x) + (if o.req.TopUp? then o.req.amount else -o.req.amount)
            && Nearest(v.db.wallets[x].balance, v.receipt.balanceAfter)
  {
    hide Apply, Consistent;
    match o.req
    case TopUp(_, _) => var _, _ := TopUpEffect(db, o);
    case Transfer(_, _, _) => var _, _, _ := TransferEffect(db, o);
    case Register(_) => RegisterEffect(db, o);
  }

  /**
   The balance a caller is told is the one that the serial run gives: what the caller's wallet held after the
   requests committed before, with this amount added or taken. The stored balance after it is the nearest
   whole number of cents.
   */
  lemma ReceiptBalanceIsSerial(w: World, i: nat)
    requires Inv(w) && i < |w.log| && w.log[i].receipt.Paid?
    ensures Replay(w.log[..i]).Some? && Replay(w.log[..i + 1]).Some?
    ensures var before, after := Replay(w.log[..i]).value, Replay(w.log[..i + 1]).value;
            var r, req := w.log[i].receipt, w.log[i].order.req;
            var x := CallersWallet(r);
            && !req.Register? && IsOwner(before, x, req.user) && IsOwner(after, x, req.user)
            && r.balanceAfter == Balance(before, x) + (if req.TopUp? then req.amount else -req.amount)
            && Nearest(after.wallets[x].balance, r.balanceAfter)
  {
    var log := w.log[..i + 1];
    assert Replay(w.log).Some?;
    hide Inv, Apply, Consistent, Nearest, IsOwner;
    PrefixReplays(w.log, i);
    PrefixReplays(w.log, i + 1);
    assert log[..i] == w.log[..i];
    ReplayIsConsistent(w.log[..i]);
    assert Apply(Replay(w.log[..i]).value, w.log[i].order) == Accepted(Replay(log).value, w.log[i].receipt);
    BalanceTold(Replay(w.log[..i]).value, w.log[i].order);
  }
}
