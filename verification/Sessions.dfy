/**
 The concurrent protocol: any number of requests, each a database session that advances one statement
 at a time, in any interleaving, and may fail before any of its statements.
 */
module Sessions {
  import opened Wrappers
  import opened Money
  import opened WalletOrder
  import opened Tables
  import opened Serial

  type Sid = nat

  /** The statement a session executes next. */
  datatype Stage =
    | Start        // unlocked read: the caller's wallet, or the e-mail address of a registration
    | FindTarget   // unlocked read: the wallet a transfer goes to
    | Begin
    | LockFirst
    | LockSecond
    | CheckFunds
    | InsertUser
    | InsertWallet
    | InsertTxn
    | WriteSource
    | WriteTarget
    | EnterDebit
    | EnterCredit
    | MarkCompleted
    | Commit
    | Done

  /** How far along a stage is; every step of a session raises it. */
  function Rank(stage: Stage): nat {
    match stage
    case Start => 0
    case FindTarget => 1
    case Begin => 2
    case LockFirst => 3
    case LockSecond => 4
    case CheckFunds => 5
    case InsertUser => 3
    case InsertWallet => 4
    case InsertTxn => 6
    case WriteSource => 7
    case WriteTarget => 8
    case EnterDebit => 9
    case EnterCredit => 10
    case MarkCompleted => 11
    case Commit => 12
    case Done => 13
  }

  datatype Outcome = Running | Committed(receipt: Receipt) | Failed(error: Error)

  /**
   One request in flight: the wallet IDs from its unlocked reads (or the ID generated for a new
   wallet), the rows it read under its locks, its uncommitted writes, and the key of the transaction or
   user row it inserted.
   */
  datatype Session = Session(req: Request, stage: Stage, source: WalletId, target: WalletId,
                             held: map<WalletId, Wallet>, delta: Db, id: nat, outcome: Outcome)

  function Fresh(req: Request): Session {
    Session(req, Start, "", "", map[], EMPTY, 0, Running)
  }

  /** The request as a serial run sees it. */
  function OrderOf(s: Session): Order {
    Order(s.req, s.id, if s.req.Register? then s.target else "")
  }

  /** A committed session: history only, nothing reads it. */
  datatype Ticket = Ticket(sid: Sid, order: Order, receipt: Receipt)

  datatype World = World(db: Db, locks: map<WalletId, Sid>, sessions: map<Sid, Session>, log: seq<Ticket>)

  /** Keys drawn by the database and the ID generator, used by the inserting stages. */
  datatype Keys = Keys(id: nat, wallet: WalletId)

  /** For the stages that insert nothing. */
  const NO_KEYS := Keys(0, "")

  datatype Action = Advance(sid: Sid, keys: Keys) | Fail(sid: Sid)

  /* ---- Keys that may be taken: primary keys and unique columns ---- */

  datatype Claim =
    | TxnClaim(txn: TxnId)
    | UserClaim(user: UserId)
    | EmailClaim(email: Email)
    | WalletClaim(wallet: WalletId)

  predicate Taken(db: Db, c: Claim) {
    match c
    case TxnClaim(id) => HasTxn(db, id)
    case UserClaim(u) => u in db.users || u in db.byOwner
    case EmailClaim(e) => e in db.byEmail
    case WalletClaim(x) => x in db.wallets
  }

  /** The keys of the rows a session has inserted and not committed. */
  predicate Claims(s: Session, c: Claim) {
    match c
    case TxnClaim(id) => (exists t | t in s.delta.txns :: t.id == id)
    case UserClaim(u) => u in s.delta.users
    case EmailClaim(e) => e in s.delta.byEmail
    case WalletClaim(x) => s.req.Register? && x in s.delta.wallets
  }

  predicate ClaimedElsewhere(w: World, sid: Sid, c: Claim) {
    exists other | other in w.sessions :: other != sid && Claims(w.sessions[other], c)
  }

  predicate Free(w: World, sid: Sid, c: Claim) {
    !Taken(w.db, c) && !ClaimedElsewhere(w, sid, c)
  }

  /* ---- Locks ---- */

  function First(a: WalletId, b: WalletId): WalletId {
    if Less(a, b) then a else b
  }

  function Second(a: WalletId, b: WalletId): WalletId {
    if Less(a, b) then b else a
  }

  predicate AtLock(s: Session) {
    s.stage.LockFirst? || s.stage.LockSecond?
  }

  /** The row that a locking stage asks for. */
  function Wanted(s: Session): WalletId {
    if s.req.TopUp? then s.target
    else if s.stage.LockFirst? then First(s.source, s.target)
    else Second(s.source, s.target)
  }

  /** A session waits for a row another one holds, or for another one's uncommitted e-mail address. */
  predicate WaitsFor(w: World, sid: Sid, other: Sid)
    requires sid in w.sessions && other in w.sessions
  {
    var s := w.sessions[sid];
    && other != sid
    && ((AtLock(s) && Wanted(s) in w.locks && w.locks[Wanted(s)] == other)
        || (s.stage.InsertUser? && s.req.Register? && Claims(w.sessions[other], EmailClaim(s.req.email))))
  }

  predicate Blocked(w: World, sid: Sid)
    requires sid in w.sessions
  {
    exists other | other in w.sessions :: WaitsFor(w, sid, other)
  }

  /* ---- One statement of one session ---- */

  datatype Turn = Next(session: Session) | Stop(error: Error)

  function Row(s: Session, x: WalletId): Wallet {
    if x in s.held then s.held[x] else Wallet(0, 0)
  }

  /** UPDATE wallets SET balance: rounds on store, refused by the range and the CHECK. */
  function PutBalance(s: Session, x: WalletId, balance: real, next: Stage): Turn {
    if !BalanceFits(balance) then Stop(Rejected)
    else Next(s.(stage := next,
                 delta := s.delta.(wallets := s.delta.wallets[x := Row(s, x).(balance := Round(balance))])))
  }

  function PutTxn(s: Session, t: Txn, amount: real, next: Stage): Turn {
    if !AmountFits(amount) then Stop(Rejected)
    else Next(s.(stage := next, id := t.id, delta := s.delta.(txns := s.delta.txns + [t])))
  }

  function PutEntry(s: Session, e: Entry, amount: real, next: Stage): Turn {
    if !AmountFits(amount) then Stop(Rejected)
    else Next(s.(stage := next, delta := s.delta.(entries := s.delta.entries + [e])))
  }

  /** UPDATE transactions SET status, over the rows this session inserted. */
  function SetStatus(txns: seq<Txn>, id: TxnId, status: Status): seq<Txn> {
    seq(|txns|, i requires 0 <= i < |txns| =>
      if txns[i].id == id then txns[i].(status := status) else txns[i])
  }

  function Complete(s: Session): Turn {
    Next(s.(stage := Commit, delta := s.delta.(txns := SetStatus(s.delta.txns, s.id, Completed))))
  }

  /** Every statement but the locking selects and the commit. */
  function Move(db: Db, s: Session, keys: Keys): Turn {
    match s.req
    case TopUp(user, amount) => MoveTopUp(db, s, keys, user, amount)
    case Transfer(user, to, amount) => MoveTransfer(db, s, keys, user, to, amount)
    case Register(email) => MoveRegister(db, s, keys, email)
  }

  function MoveTopUp(db: Db, s: Session, keys: Keys, user: UserId, amount: real): Turn {
    match s.stage
    case Start =>
      if user !in db.byOwner then Stop(WalletNotFound)
      else Next(s.(stage := Begin, target := db.byOwner[user]))
    case Begin => Next(s.(stage := LockFirst))
    case InsertTxn =>
      PutTxn(s, Txn(keys.id, TopUpKind, Pending, Round(amount), None, s.target), amount, WriteTarget)
    case WriteTarget =>
      PutBalance(s, s.target, Row(s, s.target).balance as real + amount, EnterCredit)
    case EnterCredit => PutEntry(s, Entry(s.id, s.target, Credit, Round(amount)), amount, MarkCompleted)
    case MarkCompleted => Complete(s)
    case _ => Stop(Unavailable)
  }

  function MoveTransfer(db: Db, s: Session, keys: Keys, user: UserId, to: WalletId, amount: real): Turn {
    match s.stage
    case Start =>
      if user !in db.byOwner then Stop(WalletNotFound)
      else if db.byOwner[user] == to then Stop(SelfTransfer)
      else Next(s.(stage := FindTarget, source := db.byOwner[user]))
    case FindTarget =>
      if to !in db.wallets then Stop(TargetWalletNotFound)
      else Next(s.(stage := Begin, target := to))
    case Begin => Next(s.(stage := LockFirst))
    case CheckFunds =>
      if Row(s, s.source).balance as real < amount then Stop(InsufficientBalance)
      else Next(s.(stage := InsertTxn))
    case InsertTxn =>
      PutTxn(s, Txn(keys.id, TransferKind, Pending, Round(amount), Some(s.source), s.target), amount, WriteSource)
    case WriteSource =>
      PutBalance(s, s.source, Row(s, s.source).balance as real - amount, WriteTarget)
    case WriteTarget =>
      PutBalance(s, s.target, Row(s, s.target).balance as real + amount, EnterDebit)
    case EnterDebit => PutEntry(s, Entry(s.id, s.source, Debit, Round(amount)), amount, EnterCredit)
    case EnterCredit => PutEntry(s, Entry(s.id, s.target, Credit, Round(amount)), amount, MarkCompleted)
    case MarkCompleted => Complete(s)
    case _ => Stop(Unavailable)
  }

  function MoveRegister(db: Db, s: Session, keys: Keys, email: Email): Turn {
    match s.stage
    case Start => if email in db.byEmail then Stop(EmailConflict) else Next(s.(stage := Begin))
    case Begin => Next(s.(stage := InsertUser))
    case InsertUser =>
      if email in db.byEmail then Stop(DuplicateKey)
      else Next(s.(stage := InsertWallet, id := keys.id,
                   delta := s.delta.(users := s.delta.users[keys.id := email],
                                     byEmail := s.delta.byEmail[email := keys.id])))
    case InsertWallet =>
      Next(s.(stage := Commit, target := keys.wallet,
              delta := s.delta.(wallets := s.delta.wallets[keys.wallet := Wallet(s.id, 0)],
                                byOwner := s.delta.byOwner[s.id := keys.wallet])))
    case _ => Stop(Unavailable)
  }

  /** What the caller is told on success, from the session's own variables. */
  function ReceiptOf(s: Session): Receipt {
    match s.req
    case TopUp(_, amount) =>
      Paid(s.id, TopUpKind, amount, None, s.target, Row(s, s.target).balance as real + amount)
    case Transfer(_, _, amount) =>
      Paid(s.id, TransferKind, amount, Some(s.source), s.target, Row(s, s.source).balance as real - amount)
    case Register(email) => Registered(s.id, email, s.target)
  }

  /* ---- One step of the whole system ---- */

  /** The session is over, by commit or by the deferred rollback: its locks and private writes are gone. */
  function Over(w: World, sid: Sid, outcome: Outcome): World
    requires sid in w.sessions
  {
    var s := w.sessions[sid];
    w.(locks := w.locks - s.held.Keys,
       sessions := w.sessions[sid := s.(stage := Done, held := map[], delta := EMPTY, outcome := outcome)])
  }

  /** What a locked read of a row that is gone leads to: TopUp reports it, Transfer dereferences nil. */
  function MissingRow(s: Session): Error {
    if s.req.TopUp? then WalletNotFound else NilWallet
  }

  /** SELECT ... FOR UPDATE, once the row is not held by another session: reads the latest committed row. */
  function Acquire(w: World, sid: Sid): World
    requires sid in w.sessions
  {
    var s := w.sessions[sid];
    var x := Wanted(s);
    if x !in w.db.wallets then Over(w, sid, Failed(MissingRow(s))) else
    var stage := if s.req.TopUp? then InsertTxn else if s.stage.LockFirst? then LockSecond else CheckFunds;
    w.(locks := w.locks[x := sid],
       sessions := w.sessions[sid := s.(stage := stage, held := s.held[x := w.db.wallets[x]])])
  }

  function CommitSession(w: World, sid: Sid): World
    requires sid in w.sessions
  {
    var s := w.sessions[sid];
    Over(w.(db := Flush(w.db, s.delta), log := w.log + [Ticket(sid, OrderOf(s), ReceiptOf(s))]),
         sid, Committed(ReceiptOf(s)))
  }

  /** Generated keys collide with no committed or uncommitted row; a collision is a Fail instead. */
  predicate KeysAreFree(w: World, sid: Sid, keys: Keys)
    requires sid in w.sessions
  {
    match w.sessions[sid].stage
    case InsertTxn => Free(w, sid, TxnClaim(keys.id))
    case InsertUser => Free(w, sid, UserClaim(keys.id))
    case InsertWallet => Free(w, sid, WalletClaim(keys.wallet))
    case _ => true
  }

  predicate Enabled(w: World, a: Action) {
    && a.sid in w.sessions
    && !w.sessions[a.sid].stage.Done?
    && (a.Advance? ==> !Blocked(w, a.sid) && KeysAreFree(w, a.sid, a.keys))
  }

  function Step(w: World, a: Action): World
    requires Enabled(w, a)
  {
    match a
    case Fail(sid) => Over(w, sid, Failed(Unavailable))
    case Advance(sid, keys) =>
      var s := w.sessions[sid];
      if AtLock(s) then Acquire(w, sid)
      else if s.stage.Commit? then CommitSession(w, sid)
      else
        match Move(w.db, s, keys)
        case Next(s') => w.(sessions := w.sessions[sid := s'])
        case Stop(error) => Over(w, sid, Failed(error))
  }

  /* ---- Runs ---- */

  /** Before any request has done anything: empty tables, no locks, any set of requests to come. */
  ghost predicate Initial(w: World) {
    && w.db == EMPTY && w.locks == map[] && w.log == []
    && forall sid :: sid in w.sessions ==> w.sessions[sid] == Fresh(w.sessions[sid].req)
  }

  ghost predicate IsRun(w: World, run: seq<Action>)
    decreases |run|
  {
    run == [] || (Enabled(w, run[0]) && IsRun(Step(w, run[0]), run[1..]))
  }

  ghost function After(w: World, run: seq<Action>): World
    requires IsRun(w, run)
    decreases |run|
  {
    if run == [] then w else After(Step(w, run[0]), run[1..])
  }

  ghost predicate Reachable(w: World) {
    exists start, run :: Initial(start) && IsRun(start, run) && After(start, run) == w
  }
}
