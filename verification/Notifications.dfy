/**
 From a commit to a notification row: the event is published after the commit, delivered, processed, and
 acked or put back; messages can be delivered again and again. Every row still traces to a commit.
 */
module Notifications {
  import opened Wrappers
  import opened Money
  import opened WalletOrder
  import opened Tables
  import opened Serial
  import opened Sessions
  import opened Serializability
  import opened Guarantees
  import opened Bookkeeping
  import opened Answers

  /**
   Messages on the queue; Garbled stands for a body that does not parse or a bad user ID, AuditEvent for any
   type of event the worker has nothing to do for.
   */
  datatype Event =
    | RegisterEvent(user: UserId, wallet: WalletId)
    | LoginEvent(user: UserId)
    | TopUpEvent(user: UserId, txn: TxnId, wallet: WalletId, amount: real)
    | TransferEvent(user: UserId, txn: TxnId, source: WalletId, target: WalletId, amount: real)
    | AuditEvent
    | Garbled

  /** Rows of notifications, by what their text says. */
  datatype Notice =
    | Welcome(user: UserId, wallet: WalletId)
    | LoggedIn(user: UserId)
    | TopUpDone(user: UserId, txn: TxnId, amount: real)
    | TransferSent(user: UserId, txn: TxnId, amount: real, to: WalletId)
    | TransferReceived(user: UserId, txn: TxnId, amount: real, from: WalletId)

  /** Which of the worker's calls succeed: the first insert, the wallet lookup, the second insert. */
  datatype Luck = Luck(insert: bool, lookup: bool, insertAgain: bool)

  /** notification_worker.go: processMessage; the rows it inserts, and whether it returns without error. */
  function Process(db: Db, event: Event, luck: Luck): (seq<Notice>, bool) {
    match event
    case RegisterEvent(user, wallet) => if luck.insert then ([Welcome(user, wallet)], true) else ([], false)
    case LoginEvent(user) => if luck.insert then ([LoggedIn(user)], true) else ([], false)
    case TopUpEvent(user, txn, _, amount) => if luck.insert then ([TopUpDone(user, txn, amount)], true) else ([], false)
    case TransferEvent(user, txn, source, target, amount) =>
      var sent := if luck.insert then [TransferSent(user, txn, amount, target)] else [];
      if !luck.lookup then (sent, false)
      else if target !in db.wallets then (sent, true)
      else
        var received := TransferReceived(db.wallets[target].owner, txn, amount, source);
        (if luck.insertAgain then sent + [received] else sent, true)
    case AuditEvent => ([], true)
    case Garbled => ([], false)
  }

  /** The row an event promises its user; a transfer promises none. */
  function Promise(event: Event): Option<Notice> {
    match event
    case RegisterEvent(user, wallet) => Some(Welcome(user, wallet))
    case LoginEvent(user) => Some(LoggedIn(user))
    case TopUpEvent(user, txn, _, amount) => Some(TopUpDone(user, txn, amount))
    case _ => None
  }

  /* ---- What the worker owes to each message ---- */

  /** When a message is acknowledged: a transfer needs the wallet lookup only, the other kinds their insert. */
  predicate Works(event: Event, luck: Luck) {
    match event
    case RegisterEvent(_, _) | LoginEvent(_) | TopUpEvent(_, _, _, _) => luck.insert
    case TransferEvent(_, _, _, _, _) => luck.lookup
    case AuditEvent => true
    case Garbled => false
  }

  /** Which message makes a row, and which of the worker's calls must succeed for it. */
  predicate Sends(db: Db, event: Event, luck: Luck, n: Notice) {
    match n
    case Welcome(user, wallet) => event == RegisterEvent(user, wallet) && luck.insert
    case LoggedIn(user) => event == LoginEvent(user) && luck.insert
    case TopUpDone(user, txn, amount) =>
      event.TopUpEvent? && event.user == user && event.txn == txn && event.amount == amount && luck.insert
    case TransferSent(user, txn, amount, to) =>
      && event.TransferEvent? && event.user == user && event.txn == txn && event.amount == amount
      && event.target == to && luck.insert
    case TransferReceived(user, txn, amount, from) =>
      && event.TransferEvent? && event.txn == txn && event.amount == amount && event.source == from
      && IsOwner(db, event.target, user) && luck.lookup && luck.insertAgain
  }

  lemma RowIsSent(db: Db, event: Event, luck: Luck, n: Notice)
    ensures multiset(Process(db, event, luck).0)[n] == if Sends(db, event, luck, n) then 1 else 0
  {
    match event
    case TransferEvent(user, txn, source, target, amount) =>
      var sent := if luck.insert then [TransferSent(user, txn, amount, target)] else [];
      if luck.lookup && luck.insertAgain && target in db.wallets {
        var received := TransferReceived(db.wallets[target].owner, txn, amount, source);
        assert Process(db, event, luck).0 == sent + [received];
      } else {
        assert Process(db, event, luck).0 == sent;
      }
    case _ =>
  }

  /** Processing a message makes each row that it sends once, and no other; it ends without error when it works. */
  lemma ProcessedExactly(db: Db, event: Event, luck: Luck)
    ensures Process(db, event, luck).1 <==> Works(event, luck)
    ensures forall n :: multiset(Process(db, event, luck).0)[n] == if Sends(db, event, luck, n) then 1 else 0
  {
    hide Sends;
    forall n ensures multiset(Process(db, event, luck).0)[n] == if Sends(db, event, luck, n) then 1 else 0 {
      RowIsSent(db, event, luck, n);
      hide Process;
    }
  }

  /** Processing a message adds exactly the rows it sends, each once. */
  ghost predicate Adds(db: Db, event: Event, luck: Luck, before: seq<Notice>, after: seq<Notice>) {
    forall n :: multiset(after)[n] == multiset(before)[n] + if Sends(db, event, luck, n) then 1 else 0
  }

  lemma RowsAreAdded(db: Db, event: Event, luck: Luck, before: seq<Notice>)
    ensures Adds(db, event, luck, before, before + Process(db, event, luck).0)
  {
    ProcessedExactly(db, event, luck);
    hide Process, Sends, Works;
  }

  /** For a registration, a login or a top-up the rows are the one promised or none. */
  lemma PromisedOrNothing(db: Db, event: Event, luck: Luck)
    requires Promise(event).Some?
    ensures Process(db, event, luck) == if luck.insert then ([Promise(event).value], true) else ([], false)
    ensures Sends(db, event, Luck(true, luck.lookup, luck.insertAgain), Promise(event).value)
    ensures event.RegisterEvent? || event.LoginEvent? || event.TopUpEvent?
  {
  }

  /* ---- The worker, as it is written ---- */

  class NotificationWorker {
    var notices: seq<Notice>

    constructor ()
      ensures notices == []
    {
      notices := [];
    }

    method Create(notice: Notice, works: bool) returns (ok: bool)
      modifies this
      ensures ok == works && notices == old(notices) + if works then [notice] else []
    {
      if works {
        notices := notices + [notice];
      }
      ok := works;
    }

    method ProcessMessage(db: Db, event: Event, luck: Luck) returns (ok: bool)
      modifies this
      ensures notices == old(notices) + Process(db, event, luck).0
      ensures ok == Process(db, event, luck).1
      ensures ok <==> Works(event, luck)
      ensures Adds(db, event, luck, old(notices), notices)
    {
      hide Adds;
      RowsAreAdded(db, event, luck, notices);
      match event
      case Garbled =>
        ok := false;
      case RegisterEvent(user, wallet) =>
        ok := Create(Welcome(user, wallet), luck.insert);
      case LoginEvent(user) =>
        ok := Create(LoggedIn(user), luck.insert);
      case TopUpEvent(user, txn, _, amount) =>
        ok := Create(TopUpDone(user, txn, amount), luck.insert);
      case TransferEvent(user, txn, source, target, amount) =>
        var _ := Create(TransferSent(user, txn, amount, target), luck.insert);
        if !luck.lookup {
          return false;
        }
        if target in db.wallets {
          var _ := Create(TransferReceived(db.wallets[target].owner, txn, amount, source), luck.insertAgain);
        }
        assert notices == old(notices) + Process(db, event, luck).0;
        ok := true;
      case AuditEvent =>
        ok := true;
    }

    /** consumeLoop: each delivery is acked, or put back on the queue; none is dropped. */
    method ConsumeLoop(db: Db, deliveries: seq<(Event, Luck)>)
      returns (acked: multiset<Event>, requeued: multiset<Event>)
      modifies this
      ensures notices == old(notices) + RowsOf(db, deliveries)
      ensures acked == Sorted(db, deliveries, true) && requeued == Sorted(db, deliveries, false)
      ensures forall event :: Promise(event).Some? ==>
                multiset(notices[|old(notices)|..])[Promise(event).value] >= acked[event]
      ensures forall event :: acked[event] == Working(deliveries, event)
      ensures forall n :: multiset(notices[|old(notices)|..])[n] == Sent(db, deliveries, n)
    {
      hide Process, Promise, Works, Sends, Working, Sent;
      acked, requeued := multiset{}, multiset{};
      for i := 0 to |deliveries|
        invariant notices == old(notices) + RowsOf(db, deliveries[..i])
        invariant acked == Sorted(db, deliveries[..i], true) && requeued == Sorted(db, deliveries[..i], false)
      {
        var (event, luck) := deliveries[i];
        assert deliveries[..i + 1][..i] == deliveries[..i];
        var ok := ProcessMessage(db, event, luck);
        if !ok {
          requeued := requeued + multiset{event};
        } else {
          acked := acked + multiset{event};
        }
      }
      assert deliveries[..|deliveries|] == deliveries;
      assert notices[|old(notices)|..] == RowsOf(db, deliveries);
      hide RowsOf, Sorted;
      RowsCoverAcks(db, deliveries);
      LoopIsExact(db, deliveries);
    }
  }

  /** The rows that a series of deliveries inserts. */
  function RowsOf(db: Db, deliveries: seq<(Event, Luck)>): seq<Notice>
    decreases |deliveries|
  {
    if deliveries == [] then [] else
    var (event, luck) := deliveries[|deliveries| - 1];
    RowsOf(db, deliveries[..|deliveries| - 1]) + Process(db, event, luck).0
  }

  /** The deliveries that end without error, or the ones that do not. */
  function Sorted(db: Db, deliveries: seq<(Event, Luck)>, ok: bool): multiset<Event>
    decreases |deliveries|
  {
    if deliveries == [] then multiset{} else
    var (event, luck) := deliveries[|deliveries| - 1];
    var rest := Sorted(db, deliveries[..|deliveries| - 1], ok);
    if Process(db, event, luck).1 == ok then rest + multiset{event} else rest
  }

  /** How many deliveries of this message work. */
  function Working(deliveries: seq<(Event, Luck)>, event: Event): nat
    decreases |deliveries|
  {
    if deliveries == [] then 0 else
    var (e, luck) := deliveries[|deliveries| - 1];
    Working(deliveries[..|deliveries| - 1], event) + if e == event && Works(e, luck) then 1 else 0
  }

  /** How many deliveries make this row. */
  function Sent(db: Db, deliveries: seq<(Event, Luck)>, n: Notice): nat
    decreases |deliveries|
  {
    if deliveries == [] then 0 else
    var (e, luck) := deliveries[|deliveries| - 1];
    Sent(db, deliveries[..|deliveries| - 1], n) + if Sends(db, e, luck, n) then 1 else 0
  }

  /** Over a series of deliveries each message is acknowledged as often as it works, each row made as often as sent. */
  lemma {:induction false} LoopIsExact(db: Db, deliveries: seq<(Event, Luck)>)
    ensures forall event :: Sorted(db, deliveries, true)[event] == Working(deliveries, event)
    ensures forall n :: multiset(RowsOf(db, deliveries))[n] == Sent(db, deliveries, n)
    decreases |deliveries|
  {
    if deliveries != [] {
      var (event, luck) := deliveries[|deliveries| - 1];
      LoopIsExact(db, deliveries[..|deliveries| - 1]);
      ProcessedExactly(db, event, luck);
      hide Process, Works, Sends;
    }
  }

  function EventsOf(deliveries: seq<(Event, Luck)>): multiset<Event>
    decreases |deliveries|
  {
    if deliveries == [] then multiset{} else
    EventsOf(deliveries[..|deliveries| - 1]) + multiset{deliveries[|deliveries| - 1].0}
  }

  /** Every delivery is acked or requeued, exactly once; a garbled one is always requeued. */
  lemma {:induction false} DeliveriesAreSorted(db: Db, deliveries: seq<(Event, Luck)>)
    ensures Sorted(db, deliveries, true) + Sorted(db, deliveries, false) == EventsOf(deliveries)
    ensures Garbled !in Sorted(db, deliveries, true)
    decreases |deliveries|
  {
    if deliveries != [] {
      hide Process;
      var event := deliveries[|deliveries| - 1].0;
      var init := deliveries[..|deliveries| - 1];
      DeliveriesAreSorted(db, init);
      GarbledIsRequeued(db, deliveries[|deliveries| - 1].1);
      var acked, requeued := Sorted(db, init, true), Sorted(db, init, false);
      assert acked + multiset{event} + requeued == EventsOf(deliveries) == acked + (requeued + multiset{event});
    }
  }

  lemma GarbledIsRequeued(db: Db, luck: Luck)
    ensures !Process(db, Garbled, luck).1
  {
  }

  /** Each ack has a row of its own: a message acked twice has its row twice. */
  lemma {:induction false} RowsCoverAcks(db: Db, deliveries: seq<(Event, Luck)>)
    ensures forall event :: Promise(event).Some? ==>
              multiset(RowsOf(db, deliveries))[Promise(event).value] >= Sorted(db, deliveries, true)[event]
    decreases |deliveries|
  {
    if deliveries != [] {
      var init := deliveries[..|deliveries| - 1];
      var (event, luck) := deliveries[|deliveries| - 1];
      RowsCoverAcks(db, init);
      if Process(db, event, luck).1 {
        AckedIsNoticed(db, event, luck);
      }
      hide Process, Promise;
    }
  }

  /** Processing without error inserts the promised row; a garbled message never ends without error. */
  lemma AckedIsNoticed(db: Db, event: Event, luck: Luck)
    requires Process(db, event, luck).1
    ensures Promise(event).Some? ==> Promise(event).value in Process(db, event, luck).0
    ensures event != Garbled
  {
  }

  /** A transfer is best effort: it can be acked with neither row inserted. */
  lemma TransferMayGoUnnoticed(db: Db, event: Event)
    requires event.TransferEvent?
    ensures Process(db, event, Luck(false, true, false)) == ([], true)
    ensures forall luck :: Process(db, event, luck).1 <==> luck.lookup
    ensures forall luck: Luck ::
              luck.insert
              <==> TransferSent(event.user, event.txn, event.amount, event.target) in Process(db, event, luck).0
    ensures forall luck, user ::
              TransferReceived(user, event.txn, event.amount, event.source) in Process(db, event, luck).0
              <==> luck.lookup && luck.insertAgain && IsOwner(db, event.target, user)
  {
  }

  /* ---- The whole path ---- */

  /**
   The wallet protocol, the events not yet published, the broker's queue and its unacked messages, the rows
   inserted, and what has been published and acked so far.
   */
  datatype Mail = Mail(w: World, outbox: multiset<Event>, queue: multiset<Event>, inflight: multiset<Event>,
                       notices: seq<Notice>, published: multiset<Event>, acked: multiset<Event>)

  datatype Hop =
    | Protocol(a: Action)             // a step of the wallet protocol; a commit starts a publish
    | LogIn(user: UserId)
    | Foreign(event: Event)           // an audit event, or a body that does not parse, from elsewhere
    | Publish(event: Event)
    | Lose(event: Event)              // publishing fails, which is only logged
    | Deliver(event: Event)
    | Work(event: Event, luck: Luck, confirmed: bool)  // processed; without confirmation the ack is lost
    | Drop(event: Event)              // the channel closes before the message is processed

  function EventOf(t: Ticket): Event {
    match t.receipt
    case Registered(user, _, wallet) => RegisterEvent(user, wallet)
    case Paid(txn, _, amount, source, target, _) =>
      match t.order.req
      case TopUp(user, _) => TopUpEvent(user, txn, target, amount)
      case Transfer(user, _, _) => TransferEvent(user, txn, if source.Some? then source.value else "", target, amount)
      case Register(_) => Garbled
  }

  predicate CanMove(m: Mail, move: Hop) {
    match move
    case Protocol(a) => Enabled(m.w, a)
    case LogIn(user) => user in m.w.db.users
    case Foreign(event) => event.AuditEvent? || event.Garbled?
    case Publish(event) => event in m.outbox
    case Lose(event) => event in m.outbox
    case Deliver(event) => event in m.queue
    case Work(event, _, _) => event in m.inflight
    case Drop(event) => event in m.inflight
  }

  function Moved(m: Mail, move: Hop): Mail
    requires CanMove(m, move)
  {
    match move
    case Protocol(a) =>
      var w := Step(m.w, a);
      m.(w := w, outbox := if |w.log| > |m.w.log| then m.outbox + multiset{EventOf(w.log[|w.log| - 1])} else m.outbox)
    case LogIn(user) => m.(outbox := m.outbox + multiset{LoginEvent(user)})
    case Foreign(event) => m.(queue := m.queue + multiset{event}, published := m.published + multiset{event})
    case Publish(event) =>
      m.(outbox := m.outbox - multiset{event}, queue := m.queue + multiset{event},
         published := m.published + multiset{event})
    case Lose(event) => m.(outbox := m.outbox - multiset{event})
    case Deliver(event) => m.(queue := m.queue - multiset{event}, inflight := m.inflight + multiset{event})
    case Work(event, luck, confirmed) =>
      var (rows, ok) := Process(m.w.db, event, luck);
      var done := m.(notices := m.notices + rows, inflight := m.inflight - multiset{event});
      if ok && confirmed then done.(acked := m.acked + multiset{event})
      else done.(queue := m.queue + multiset{event})
    case Drop(event) => m.(inflight := m.inflight - multiset{event}, queue := m.queue + multiset{event})
  }

  /** The event that tells of a committed request, by what was asked and what came of it. */
  ghost predicate Announces(event: Event, req: Request, r: Receipt) {
    match req
    case Register(_) => r.Registered? && event == RegisterEvent(r.user, r.wallet)
    case TopUp(user, amount) => r.Paid? && event == TopUpEvent(user, r.txn, r.target, amount)
    case Transfer(user, to, amount) =>
      r.Paid? && r.source.Some? && event == TransferEvent(user, r.txn, r.source.value, to, amount)
  }

  lemma ReceiptIsAnnounced(db: Db, t: Ticket)
    requires ReceiptFor(db, t.receipt, t.order.req)
    ensures Announces(EventOf(t), t.order.req, t.receipt)
  {
  }

  /** A commit, and no other step of the protocol, has one event published: the one of its own kind and request. */
  lemma CommitPublishes(m: Mail, a: Action)
    requires Inv(m.w) && Enabled(m.w, a)
    ensures var m', s := Moved(m, Protocol(a)), m.w.sessions[a.sid];
            && m'.w == Step(m.w, a)
            && m'.queue == m.queue && m'.inflight == m.inflight && m'.notices == m.notices
            && m'.published == m.published && m'.acked == m.acked
            && if a.Advance? && s.stage.Commit?
               then exists event :: Announces(event, s.req, ReceiptOf(s)) && m'.outbox == m.outbox + multiset{event}
               else m'.outbox == m.outbox
  {
    var s, w := m.w.sessions[a.sid], Step(m.w, a);
    ProtocolKeepsRest(m, a);
    if a.Advance? && s.stage.Commit? {
      StepKeepsInv(m.w, a);
      CommitIsLogged(m.w, a);
      hide Inv, Enabled, Step, Announces, EventOf, ReceiptOf, ReceiptFor, Booked;
      var t := Ticket(a.sid, OrderOf(s), ReceiptOf(s));
      assert t in w.log;
      ReceiptsStayTrue(w, t);
      ReceiptIsAnnounced(w.db, t);
    } else {
      OnlyCommitsWrite(m.w, a);
      hide Inv, Enabled, Step, EventOf;
    }
  }

  lemma CommitIsLogged(w: World, a: Action)
    requires Enabled(w, a) && a.Advance? && w.sessions[a.sid].stage.Commit?
    ensures Step(w, a).log == w.log + [Ticket(a.sid, OrderOf(w.sessions[a.sid]), ReceiptOf(w.sessions[a.sid]))]
  {
    hide Blocked, Flush, ReceiptOf, OrderOf;
  }

  /**
   A login has its own event published; publishing or losing an event takes it from those to be published; a
   message whose channel closes goes back on the queue.
   */
  lemma OutboxMoves(m: Mail, move: Hop)
    requires CanMove(m, move) && !move.Protocol?
    ensures Moved(m, move).outbox
            == match move
               case LogIn(user) => m.outbox + multiset{LoginEvent(user)}
               case Publish(event) => m.outbox - multiset{event}
               case Lose(event) => m.outbox - multiset{event}
               case _ => m.outbox
    ensures move.LogIn? ==> move.user in m.w.db.users
    ensures move.Drop? ==>
              Moved(m, move)
              == m.(inflight := m.inflight - multiset{move.event}, queue := m.queue + multiset{move.event})
  {
    hide Process, EventOf;
  }

  ghost predicate IsMailRun(m: Mail, moves: seq<Hop>)
    decreases |moves|
  {
    moves == [] || (CanMove(m, moves[0]) && IsMailRun(Moved(m, moves[0]), moves[1..]))
  }

  ghost function MailAfter(m: Mail, moves: seq<Hop>): Mail
    requires IsMailRun(m, moves)
    decreases |moves|
  {
    if moves == [] then m else MailAfter(Moved(m, moves[0]), moves[1..])
  }

  /** What a delivery comes to: acknowledged if it works and the broker learns of it, put back otherwise. */
  lemma WorkIsSettled(m: Mail, event: Event, luck: Luck, confirmed: bool)
    requires event in m.inflight
    ensures var m' := Moved(m, Work(event, luck, confirmed));
            && m'.w == m.w && m'.outbox == m.outbox && m'.published == m.published
            && m'.inflight == m.inflight - multiset{event}
            && (if Works(event, luck) && confirmed
                then m'.acked == m.acked + multiset{event} && m'.queue == m.queue
                else m'.queue == m.queue + multiset{event} && m'.acked == m.acked)
            && Adds(m.w.db, event, luck, m.notices, m'.notices)
  {
    ProcessedExactly(m.w.db, event, luck);
    RowsAreAdded(m.w.db, event, luck, m.notices);
    hide Process, Adds, Works;
  }

  const ALL_WELL := Luck(true, true, true)

  /**
   Whatever has happened to others, an event waiting to be published can be published, delivered and
   acknowledged, in three steps that leave everything else where it is and make its rows.
   */
  lemma EveryEventCanArrive(m: Mail, event: Event) returns (moves: seq<Hop>, m': Mail)
    requires event in m.outbox && event != Garbled
    ensures moves == [Publish(event)] + ([Deliver(event)] + ([Work(event, ALL_WELL, true)] + []))
    ensures IsMailRun(m, moves) && m' == MailAfter(m, moves)
    ensures m' == m.(outbox := m.outbox - multiset{event}, published := m.published + multiset{event},
                     acked := m.acked + multiset{event}, notices := m'.notices)
    ensures Adds(m.w.db, event, ALL_WELL, m.notices, m'.notices)
  {
    hide Moved, Adds, CanMove, IsMailRun, MailAfter;
    var m1 := Published(m, event);
    var m2 := Delivers(m1, event);
    m' := Arrives(m2, event);
    PutAndTaken(m.queue, event);
    PutAndTaken(m.inflight, event);
    HopsOn(m2, Work(event, ALL_WELL, true), []);
    HopsOn(m1, Deliver(event), [Work(event, ALL_WELL, true)] + []);
    HopsOn(m, Publish(event), [Deliver(event)] + ([Work(event, ALL_WELL, true)] + []));
    moves := [Publish(event)] + ([Deliver(event)] + ([Work(event, ALL_WELL, true)] + []));
  }

  lemma PutAndTaken(bag: multiset<Event>, event: Event)
    ensures bag + multiset{event} - multiset{event} == bag
  {
  }

  lemma Arrives(m: Mail, event: Event) returns (m': Mail)
    requires event in m.inflight && event != Garbled
    ensures CanMove(m, Work(event, ALL_WELL, true)) && m' == Moved(m, Work(event, ALL_WELL, true))
    ensures IsMailRun(m', []) && MailAfter(m', []) == m'
    ensures m' == m.(inflight := m.inflight - multiset{event}, acked := m.acked + multiset{event},
                     notices := m'.notices)
    ensures Adds(m.w.db, event, ALL_WELL, m.notices, m'.notices)
  {
    WorkIsSettled(m, event, ALL_WELL, true);
    m' := Moved(m, Work(event, ALL_WELL, true));
    hide Moved, Adds;
  }

  lemma Published(m: Mail, event: Event) returns (m': Mail)
    requires event in m.outbox
    ensures CanMove(m, Publish(event)) && m' == Moved(m, Publish(event))
    ensures m' == m.(outbox := m.outbox - multiset{event}, queue := m.queue + multiset{event},
                     published := m.published + multiset{event})
  {
    m' := Moved(m, Publish(event));
  }

  lemma Delivers(m: Mail, event: Event) returns (m': Mail)
    requires event in m.queue
    ensures CanMove(m, Deliver(event)) && m' == Moved(m, Deliver(event))
    ensures m' == m.(queue := m.queue - multiset{event}, inflight := m.inflight + multiset{event})
  {
    m' := Moved(m, Deliver(event));
  }

  lemma HopsOn(m: Mail, move: Hop, rest: seq<Hop>)
    requires CanMove(m, move) && IsMailRun(Moved(m, move), rest)
    ensures IsMailRun(m, [move] + rest) && MailAfter(m, [move] + rest) == MailAfter(Moved(m, move), rest)
  {
    hide Moved, CanMove;
    assert ([move] + rest)[1..] == rest;
  }

  ghost predicate MailStart(m: Mail) {
    Initial(m.w) && m.outbox == m.queue == m.inflight == m.published == m.acked == multiset{} && m.notices == []
  }

  /* ---- Everything traces to a commit ---- */

  ghost predicate Genuine(w: World, event: Event) {
    match event
    case LoginEvent(user) => user in w.db.users
    case AuditEvent | Garbled => true
    case _ => exists t :: t in w.log && EventOf(t) == event
  }

  /** The row tells of this committed request, to the user it concerns. */
  predicate Tells(db: Db, t: Ticket, n: Notice) {
    match n
    case Welcome(user, wallet) => t.receipt.Registered? && t.receipt.user == user && t.receipt.wallet == wallet
    case LoggedIn(_) => false
    case TopUpDone(user, txn, amount) =>
      t.receipt.Paid? && t.receipt.txn == txn && t.receipt.amount == amount
      && t.order.req.TopUp? && t.order.req.user == user
    case TransferSent(user, txn, amount, to) =>
      t.receipt.Paid? && t.receipt.txn == txn && t.receipt.amount == amount && t.receipt.target == to
      && t.order.req.Transfer? && t.order.req.user == user
    case TransferReceived(user, txn, amount, from) =>
      t.receipt.Paid? && t.order.req.Transfer? && t.receipt.txn == txn && t.receipt.amount == amount
      && (t.receipt.source.Some? ==> t.receipt.source.value == from)
      && t.receipt.target in db.wallets && db.wallets[t.receipt.target].owner == user
  }

  ghost predicate Sourced(w: World, n: Notice) {
    if n.LoggedIn? then n.user in w.db.users
    else exists t :: t in w.log && Tells(w.db, t, n)
  }

  predicate Carries(m: Mail, event: Event) {
    event in m.outbox || event in m.queue || event in m.inflight || event in m.acked
  }

  /** Every message anywhere on the path is genuine, and every row is sourced. */
  ghost predicate Traced(m: Mail) {
    && (forall event :: Carries(m, event) ==> Genuine(m.w, event))
    && (forall n :: n in m.notices ==> Sourced(m.w, n))
  }

  ghost predicate Delivered(m: Mail) {
    && Garbled !in m.acked
    && (forall event :: Promise(event).Some? ==> multiset(m.notices)[Promise(event).value] >= m.acked[event])
    && m.published == m.queue + m.inflight + m.acked
  }

  ghost predicate MailInv(m: Mail) {
    Inv(m.w) && Traced(m) && Delivered(m)
  }

  lemma GenuineStays(w: World, w': World, event: Event)
    requires Grows(w, w') && Genuine(w, event)
    ensures Genuine(w', event)
  {
    hide EventOf;
  }

  lemma SourcedStays(w: World, w': World, n: Notice)
    requires Grows(w, w') && Sourced(w, n)
    ensures Sourced(w', n)
  {
    if !n.LoggedIn? {
      var t :| t in w.log && Tells(w.db, t, n);
      assert t in w'.log && Tells(w'.db, t, n);
    }
  }

  /** A genuine message makes sourced rows only. */
  lemma ProcessIsSourced(w: World, event: Event, luck: Luck, n: Notice)
    requires Genuine(w, event) && n in Process(w.db, event, luck).0
    ensures Sourced(w, n)
  {
    if !n.LoggedIn? {
      var t :| t in w.log && EventOf(t) == event;
      assert Tells(w.db, t, n);
    }
  }

  lemma NewEventIsGenuine(w: World, w': World)
    ensures |w'.log| > |w.log| ==> Genuine(w', EventOf(w'.log[|w'.log| - 1]))
  {
    if |w'.log| > |w.log| {
      assert w'.log[|w'.log| - 1] in w'.log;
    }
  }

  lemma GrowthKeepsTraced(m: Mail, m': Mail)
    requires Traced(m) && Grows(m.w, m'.w) && m'.notices == m.notices
    requires forall event :: Carries(m', event) ==> Carries(m, event) || Genuine(m'.w, event)
    ensures Traced(m')
  {
    hide Genuine, Sourced, Grows, Carries;
    forall event | Carries(m', event) ensures Genuine(m'.w, event) {
      if Carries(m, event) {
        GenuineStays(m.w, m'.w, event);
      }
    }
    forall n | n in m'.notices ensures Sourced(m'.w, n) {
      SourcedStays(m.w, m'.w, n);
    }
  }

  lemma ProtocolCarries(m: Mail, a: Action, event: Event)
    requires Enabled(m.w, a) && Carries(Moved(m, Protocol(a)), event)
    ensures var log := Step(m.w, a).log;
            Carries(m, event) || (|log| > |m.w.log| && event == EventOf(log[|log| - 1]))
  {
    hide Enabled, Step, EventOf;
  }

  lemma ProtocolKeepsRest(m: Mail, a: Action)
    requires Enabled(m.w, a)
    ensures Moved(m, Protocol(a)).w == Step(m.w, a)
    ensures Moved(m, Protocol(a)).notices == m.notices
    ensures Delivered(m) ==> Delivered(Moved(m, Protocol(a)))
  {
    hide Enabled, Step, EventOf, Promise;
  }

  lemma ProtocolKeepsTraced(m: Mail, a: Action)
    requires Traced(m) && Enabled(m.w, a) && Grows(m.w, Step(m.w, a))
    ensures Traced(Moved(m, Protocol(a)))
  {
    hide Enabled, Step, EventOf, Grows, Traced, Carries, Moved, Genuine;
    var m' := Moved(m, Protocol(a));
    ProtocolKeepsRest(m, a);
    NewEventIsGenuine(m.w, m'.w);
    forall event | Carries(m', event) ensures Carries(m, event) || Genuine(m'.w, event) {
      ProtocolCarries(m, a, event);
    }
    GrowthKeepsTraced(m, m');
  }

  lemma ProtocolMoveKeepsInv(m: Mail, a: Action)
    requires MailInv(m) && Enabled(m.w, a)
    ensures MailInv(Moved(m, Protocol(a)))
  {
    hide Inv, Enabled, Step, Grows, Traced, Delivered, Moved;
    StepKeepsInv(m.w, a);
    StepGrows(m.w, a);
    ProtocolKeepsRest(m, a);
    ProtocolKeepsTraced(m, a);
  }

  lemma HopCarries(m: Mail, move: Hop, event: Event)
    requires CanMove(m, move) && !move.Protocol? && Carries(Moved(m, move), event)
    ensures Carries(m, event) || Genuine(m.w, event)
  {
    hide Process, EventOf, Carries;
    if move.Work? {
      WorkCarries(m, move, event);
    } else {
      TransitCarries(m, move, event);
    }
  }

  lemma WorkCarries(m: Mail, move: Hop, event: Event)
    requires CanMove(m, move) && move.Work? && Carries(Moved(m, move), event)
    ensures Carries(m, event)
  {
    hide Process;
  }

  lemma TransitCarries(m: Mail, move: Hop, event: Event)
    requires CanMove(m, move) && !move.Protocol? && !move.Work? && Carries(Moved(m, move), event)
    ensures Carries(m, event) || Genuine(m.w, event)
  {
    hide Process, EventOf;
    if move.LogIn? || move.Foreign? {
      NewMessageIsGenuine(m, move, event);
    } else {
      hide Genuine;
    }
  }

  lemma NewMessageIsGenuine(m: Mail, move: Hop, event: Event)
    requires CanMove(m, move) && (move.LogIn? || move.Foreign?) && Carries(Moved(m, move), event)
    ensures Carries(m, event) || Genuine(m.w, event)
  {
    hide Process, EventOf;
  }

  lemma HopNotices(m: Mail, move: Hop, n: Notice)
    requires CanMove(m, move) && !move.Protocol? && n in Moved(m, move).notices
    ensures n in m.notices || (move.Work? && n in Process(m.w.db, move.event, move.luck).0)
  {
    hide Process, EventOf;
  }

  lemma HopKeepsWorld(m: Mail, move: Hop)
    requires CanMove(m, move) && !move.Protocol?
    ensures Moved(m, move).w == m.w
    ensures move.Work? ==> Carries(m, move.event)
  {
    hide Process;
  }

  lemma HopKeepsTraced(m: Mail, move: Hop)
    requires Traced(m) && CanMove(m, move) && !move.Protocol?
    ensures Traced(Moved(m, move))
  {
    hide Sourced, Genuine, Process, Carries, Moved, CanMove;
    var m' := Moved(m, move);
    HopKeepsWorld(m, move);
    forall event | Carries(m', event) ensures Genuine(m.w, event) {
      HopCarries(m, move, event);
    }
    forall n | n in m'.notices ensures Sourced(m.w, n) {
      HopNotices(m, move, n);
      if n !in m.notices {
        ProcessIsSourced(m.w, move.event, move.luck, n);
      }
    }
  }

  lemma HopKeepsBags(m: Mail, move: Hop)
    requires m.published == m.queue + m.inflight + m.acked && CanMove(m, move) && !move.Protocol?
    ensures var m' := Moved(m, move); m'.published == m'.queue + m'.inflight + m'.acked
  {
    hide Process, EventOf;
  }

  lemma HopAcks(m: Mail, move: Hop)
    requires CanMove(m, move) && !move.Protocol?
    ensures var m' := Moved(m, move);
            || (m'.acked == m.acked && m.notices <= m'.notices)
            || (move.Work? && Process(m.w.db, move.event, move.luck).1 && m'.acked == m.acked + multiset{move.event}
                && m'.notices == m.notices + Process(m.w.db, move.event, move.luck).0)
  {
    hide Process, EventOf;
  }

  /** More rows keep what was promised. */
  lemma RowsOnlyAdd(rows: seq<Notice>, rows': seq<Notice>, n: Notice)
    requires rows <= rows'
    ensures multiset(rows')[n] == multiset(rows)[n] + multiset(rows'[|rows|..])[n]
  {
    assert rows' == rows + rows'[|rows|..];
  }

  lemma HopKeepsDelivered(m: Mail, move: Hop)
    requires Delivered(m) && CanMove(m, move) && !move.Protocol?
    ensures Delivered(Moved(m, move))
  {
    HopKeepsBags(m, move);
    HopAcks(m, move);
    hide Process, Promise, Moved, CanMove;
    var m' := Moved(m, move);
    if m'.acked != m.acked {
      AckedIsNoticed(m.w.db, move.event, move.luck);
    }
    forall event | Promise(event).Some? ensures multiset(m'.notices)[Promise(event).value] >= m'.acked[event] {
      RowsOnlyAdd(m.notices, m'.notices, Promise(event).value);
      assert multiset(m.notices)[Promise(event).value] >= m.acked[event];
      if m'.acked[event] != m.acked[event] {
        assert event == move.event;
        assert Promise(event).value in m'.notices[|m.notices|..];
      }
    }
  }

  lemma HopKeepsInv(m: Mail, move: Hop)
    requires MailInv(m) && CanMove(m, move) && !move.Protocol?
    ensures MailInv(Moved(m, move))
  {
    HopKeepsWorld(m, move);
    hide Inv, Traced, Delivered, Moved, CanMove;
    HopKeepsTraced(m, move);
    HopKeepsDelivered(m, move);
  }

  lemma {:induction false} MailRunKeepsInv(m: Mail, moves: seq<Hop>)
    requires MailInv(m) && IsMailRun(m, moves)
    ensures MailInv(MailAfter(m, moves))
    decreases |moves|
  {
    if moves != [] {
      hide MailInv, Moved;
      if moves[0].Protocol? {
        ProtocolMoveKeepsInv(m, moves[0].a);
      } else {
        HopKeepsInv(m, moves[0]);
      }
      MailRunKeepsInv(Moved(m, moves[0]), moves[1..]);
    }
  }

  ghost predicate MailReachable(m: Mail) {
    exists start, moves :: MailStart(start) && IsMailRun(start, moves) && MailAfter(start, moves) == m
  }

  lemma MailHoldsInv(m: Mail)
    requires MailReachable(m)
    ensures MailInv(m)
  {
    hide Moved, CanMove, SessionOk, LocksOk, ClaimsOk, LogOk, Replay;
    var start, moves :| MailStart(start) && IsMailRun(start, moves) && MailAfter(start, moves) == m;
    InitialHoldsInv(start.w);
    MailRunKeepsInv(start, moves);
  }

  /**
   Delivery: whatever is lost, dropped, refused or redelivered, a published message is queued, in flight or
   acked, and each ack of a registration, login or top-up message has a row of its own.
   */
  lemma DeliveryIsAtLeastOnce(m: Mail)
    requires MailReachable(m)
    ensures m.published == m.queue + m.inflight + m.acked
    ensures forall event :: Promise(event).Some? ==> multiset(m.notices)[Promise(event).value] >= m.acked[event]
    ensures Garbled !in m.acked
  {
    hide MailReachable, Promise, Inv, Genuine, Sourced;
    MailHoldsInv(m);
  }

  /* ---- Rows, commits, and transaction rows ---- */

  lemma ApplyKeepsOwners(db: Db, o: Order)
    requires Apply(db, o).Accepted?
    ensures forall x :: x in db.wallets ==>
              x in Apply(db, o).db.wallets && Apply(db, o).db.wallets[x].owner == db.wallets[x].owner
  {
    hide AmountFits, BalanceFits, Round, HasTxn;
  }

  function Payer(r: Receipt): WalletId
    requires r.Paid?
  {
    if r.source.Some? then r.source.value else r.target
  }

  /** The caller of a committed payment owns the wallet it was made from, or for a top-up the one it went to. */
  ghost predicate PaidByOwner(db: Db, t: Ticket) {
    t.receipt.Paid? ==>
      && (t.order.req.TopUp? <==> t.receipt.kind == TopUpKind)
      && (t.order.req.Transfer? <==> t.receipt.kind == TransferKind)
      && (t.receipt.source.Some? <==> t.order.req.Transfer?)
      && !t.order.req.Register?
      && Payer(t.receipt) in db.wallets && db.wallets[Payer(t.receipt)].owner == t.order.req.user
  }

  lemma ApplyIsPaidByOwner(db: Db, t: Ticket)
    requires Consistent(db) && Apply(db, t.order).Accepted? && Apply(db, t.order).receipt == t.receipt
    ensures PaidByOwner(Apply(db, t.order).db, t)
  {
    hide AmountFits, BalanceFits, Round, HasTxn;
  }

  lemma {:induction false} ReplayIsPaidByOwner(log: seq<Ticket>, t: Ticket)
    requires Replay(log).Some? && t in log
    ensures PaidByOwner(Replay(log).value, t)
    decreases |log|
  {
    var init, last := log[..|log| - 1], log[|log| - 1];
    assert log == init + [last];
    ReplayIsConsistent(init);
    var before := Replay(init).value;
    ApplyKeepsOwners(before, last.order);
    if t in init {
      ReplayIsPaidByOwner(init, t);
      hide Apply, Consistent;
    } else {
      ApplyIsPaidByOwner(before, t);
    }
  }

  /** The transaction row behind a committed payment. */
  lemma TicketHasTxn(w: World, t: Ticket) returns (row: Txn)
    requires Inv(w) && t in w.log && t.receipt.Paid?
    ensures row in w.db.txns && IsTxnOf(row, t.receipt) && PaidByOwner(w.db, t)
  {
    hide SessionOk, LocksOk, ClaimsOk, LogOk, Replay, PaidByOwner;
    row := Txn(t.receipt.txn, t.receipt.kind, Completed, Round(t.receipt.amount), t.receipt.source, t.receipt.target);
    TxnsAreReceipts(w.log, row);
    ReplayIsPaidByOwner(w.log, t);
  }

  /** The row that a notification of a payment speaks of: its kind, its stored amount, and whose wallet it is on. */
  predicate Documents(db: Db, row: Txn, n: Notice) {
    && row.status == Completed
    && match n
       case TopUpDone(user, txn, amount) =>
         row.id == txn && row.kind == TopUpKind && row.amount == Round(amount)
         && row.target in db.wallets && db.wallets[row.target].owner == user
       case TransferSent(user, txn, amount, to) =>
         row.id == txn && row.kind == TransferKind && row.amount == Round(amount) && row.target == to
         && row.source.Some? && row.source.value in db.wallets && db.wallets[row.source.value].owner == user
       case TransferReceived(user, txn, amount, from) =>
         row.id == txn && row.kind == TransferKind && row.amount == Round(amount) && row.source == Some(from)
         && row.target in db.wallets && db.wallets[row.target].owner == user
       case _ => false
  }

  /**
   Traceability: every notification of a top-up or a transfer, however often its message was delivered, is
   about a committed transaction of that amount, and went to the user who made it or received it.
   */
  lemma NoticesTraceToTransactions(m: Mail, n: Notice)
    requires MailReachable(m) && n in m.notices && !n.LoggedIn? && !n.Welcome?
    ensures exists row :: row in m.w.db.txns && Documents(m.w.db, row, n)
  {
    MailHoldsInv(m);
    assert Sourced(m.w, n);
    var t :| t in m.w.log && Tells(m.w.db, t, n);
    hide MailInv, MailReachable, Inv;
    assert Inv(m.w) by {
      MailInvHasInv(m);
    }
    var row := TicketHasTxn(m.w, t);
    hide Round;
    assert Documents(m.w.db, row, n);
  }

  /** A welcome goes to the stored user whose registration committed, and names that user's own wallet. */
  lemma WelcomesTraceToUsers(m: Mail, n: Notice)
    requires MailReachable(m) && n in m.notices && (n.Welcome? || n.LoggedIn?)
    ensures n.user in m.w.db.users
    ensures n.Welcome? ==> IsOwner(m.w.db, n.wallet, n.user)
  {
    MailHoldsInv(m);
    assert Sourced(m.w, n);
    if n.Welcome? {
      var t :| t in m.w.log && Tells(m.w.db, t, n);
      hide MailInv, MailReachable, Inv, Booked;
      assert Inv(m.w) by {
        MailInvHasInv(m);
      }
      ReceiptsStayTrue(m.w, t);
    }
  }

  lemma MailInvHasInv(m: Mail)
    requires MailReachable(m)
    ensures Inv(m.w)
  {
    hide Inv, Genuine, Sourced, Promise, MailReachable;
    MailHoldsInv(m);
  }
}
