/**
 The order in which requests are served does not matter to any wallet: two serial orders of the same
 requests, both accepted throughout, end with the same wallets and balances, whatever the amounts and
 whatever transaction IDs the database draws in either run.
 */
module OrderIndependence {
  import opened Money
  import opened WalletOrder
  import opened Tables
  import opened Serial
  import opened Bookkeeping

  type Index = map<UserId, WalletId>

  ghost predicate Extends(big: Index, small: Index) {
    forall u :: u in small ==> u in big && big[u] == small[u]
  }

  /** What a request does to wallet `x`, given who owns what; it does not depend on any balance. */
  function Effect(o: Order, x: WalletId, owners: Index): int {
    match o.req
    case TopUp(user, amount) => if user in owners && owners[user] == x then Round(amount) else 0
    case Transfer(user, to, amount) =>
      (if to == x then Round(amount) else 0)
      - (if user in owners && owners[user] == x then Round(amount) - Spare(amount) else 0)
    case Register(_) => 0
  }

  function Effects(orders: seq<Order>, x: WalletId, owners: Index): int
    decreases |orders|
  {
    if orders == [] then 0 else
    Effects(orders[..|orders| - 1], x, owners) + Effect(orders[|orders| - 1], x, owners)
  }

  /**
   The request without what the database draws for it: a payment loses its transaction ID. A registration
   keeps the keys of the user and the wallet, since these are what other requests name.
   */
  function Core(o: Order): Order {
    if o.req.Register? then o else Order(o.req, 0, "")
  }

  function Cores(orders: seq<Order>): (cores: seq<Order>)
    ensures |cores| == |orders| && forall i :: 0 <= i < |orders| ==> cores[i] == Core(orders[i])
    decreases |orders|
  {
    if orders == [] then [] else Cores(orders[..|orders| - 1]) + [Core(orders[|orders| - 1])]
  }

  lemma {:induction false} EffectsOfCores(orders: seq<Order>, x: WalletId, owners: Index)
    ensures Effects(Cores(orders), x, owners) == Effects(orders, x, owners)
    decreases |orders|
  {
    if orders != [] {
      var init := orders[..|orders| - 1];
      EffectsOfCores(init, x, owners);
      assert Cores(orders)[..|orders| - 1] == Cores(init);
    }
  }

  lemma ApplyHasEffect(db: Db, o: Order, x: WalletId, owners: Index)
    requires Consistent(db) && Apply(db, o).Accepted?
    requires Extends(owners, Apply(db, o).db.byOwner)
    ensures BalanceOf(Apply(db, o).db, x) == BalanceOf(db, x) + Effect(o, x, owners)
  {
    if !o.req.Register? {
      PaymentAppends(db, o);
      ApplyMovesBalance(db, o, x);
      LinesSum(Apply(db, o).db.txns[|db.txns|], x);
      hide Round, Spare, AmountFits, BalanceFits, SumFor, Lines, HasTxn;
    }
  }

  lemma ApplyExtends(db: Db, o: Order)
    requires Apply(db, o).Accepted?
    ensures Extends(Apply(db, o).db.byOwner, db.byOwner)
  {
    hide AmountFits, BalanceFits, Round, HasTxn;
  }

  lemma {:induction false} PlayHasEffects(db: Db, orders: seq<Order>, x: WalletId, owners: Index)
    requires Consistent(db) && Play(db, orders).Some? && Extends(owners, Play(db, orders).value.byOwner)
    ensures BalanceOf(Play(db, orders).value, x) == BalanceOf(db, x) + Effects(orders, x, owners)
    decreases |orders|
  {
    if orders != [] {
      var init, last := orders[..|orders| - 1], orders[|orders| - 1];
      var before := Play(db, init).value;
      ApplyExtends(before, last);
      PlayKeepsConsistent(db, init);
      hide Apply, Effect, BalanceOf, Consistent;
      PlayHasEffects(db, init, x, owners);
      ApplyHasEffect(before, last, x, owners);
    }
  }

  /* ---- The sum of effects depends on the requests only ---- */

  lemma {:induction false} EffectsSplit(a: seq<Order>, b: seq<Order>, x: WalletId, owners: Index)
    ensures Effects(a + b, x, owners) == Effects(a, x, owners) + Effects(b, x, owners)
    decreases |b|
  {
    if b == [] {
      assert a + b == a;
    } else {
      hide Effect;
      EffectsSplit(a, b[..|b| - 1], x, owners);
      assert (a + b)[..|a + b| - 1] == a + b[..|b| - 1];
    }
  }

  lemma EffectsPluck(front: seq<Order>, o: Order, back: seq<Order>, x: WalletId, owners: Index)
    ensures Effects(front + [o] + back, x, owners) == Effects(front + back, x, owners) + Effect(o, x, owners)
  {
    EffectsSplit(front, back, x, owners);
    EffectsSplit(front + [o], back, x, owners);
    assert (front + [o])[..|front|] == front;
  }

  lemma PluckKeepsOthers<T>(init: seq<T>, last: T, front: seq<T>, back: seq<T>)
    requires multiset(init + [last]) == multiset(front + [last] + back)
    ensures multiset(init) == multiset(front + back)
  {
    assert multiset(init) == multiset(init + [last]) - multiset{last};
    assert multiset(front + back) == multiset(front + [last] + back) - multiset{last};
  }

  lemma {:induction false} EffectsOfPermutation(a: seq<Order>, b: seq<Order>, x: WalletId, owners: Index)
    requires multiset(a) == multiset(b)
    ensures Effects(a, x, owners) == Effects(b, x, owners)
    decreases |a|
  {
    if a == [] {
      assert |multiset(b)| == 0;
    } else {
      hide Effect;
      var init, last := a[..|a| - 1], a[|a| - 1];
      assert a == init + [last];
      assert last in multiset(b);
      var i :| 0 <= i < |b| && b[i] == last;
      var front, back := b[..i], b[i + 1..];
      assert b == front + [last] + back;
      PluckKeepsOthers(init, last, front, back);
      EffectsPluck(front, last, back, x, owners);
      EffectsOfPermutation(init, front + back, x, owners);
    }
  }

  /* ---- Who owns what depends on the registrations only ---- */

  predicate Registers(o: Order, u: UserId, x: WalletId) {
    o.req.Register? && o.id == u && o.wallet == x
  }

  lemma ApplyOwners(db: Db, o: Order, u: UserId, x: WalletId)
    requires Apply(db, o).Accepted?
    ensures var owners := Apply(db, o).db.byOwner;
            (u in owners && owners[u] == x) <==> (u in db.byOwner && db.byOwner[u] == x) || Registers(o, u, x)
  {
    hide AmountFits, BalanceFits, Round, HasTxn;
  }

  lemma {:induction false} PlayOwners(db: Db, orders: seq<Order>, u: UserId, x: WalletId)
    requires Play(db, orders).Some?
    ensures var owners := Play(db, orders).value.byOwner;
            (u in owners && owners[u] == x) <==>
            (u in db.byOwner && db.byOwner[u] == x) || exists o :: o in orders && Registers(o, u, x)
    decreases |orders|
  {
    if orders != [] {
      var init, last := orders[..|orders| - 1], orders[|orders| - 1];
      PlayOwners(db, init, u, x);
      ApplyOwners(Play(db, init).value, last, u, x);
      hide Apply, Registers;
      assert forall o :: o in orders <==> o in init || o == last;
    }
  }

  lemma RegistersOfCores(orders: seq<Order>, u: UserId, x: WalletId)
    ensures (exists o :: o in orders && Registers(o, u, x))
            <==> exists o :: o in multiset(Cores(orders)) && Registers(o, u, x)
  {
    if o :| o in orders && Registers(o, u, x) {
      var i :| 0 <= i < |orders| && orders[i] == o;
      assert Cores(orders)[i] == o;
    }
    if o :| o in multiset(Cores(orders)) && Registers(o, u, x) {
      var i :| 0 <= i < |orders| && Cores(orders)[i] == o;
      assert orders[i] in orders && Registers(orders[i], u, x);
    }
  }

  lemma SameOwner(db: Db, a: seq<Order>, b: seq<Order>, u: UserId, x: WalletId)
    requires multiset(Cores(a)) == multiset(Cores(b)) && Play(db, a).Some? && Play(db, b).Some?
    requires u in Play(db, a).value.byOwner && Play(db, a).value.byOwner[u] == x
    ensures u in Play(db, b).value.byOwner && Play(db, b).value.byOwner[u] == x
  {
    hide Play, Registers, Cores;
    PlayOwners(db, a, u, x);
    PlayOwners(db, b, u, x);
    RegistersOfCores(a, u, x);
    RegistersOfCores(b, u, x);
  }

  lemma SameOwners(db: Db, a: seq<Order>, b: seq<Order>)
    requires multiset(Cores(a)) == multiset(Cores(b)) && Play(db, a).Some? && Play(db, b).Some?
    ensures Play(db, a).value.byOwner == Play(db, b).value.byOwner
  {
    hide Play, Cores;
    var f, g := Play(db, a).value.byOwner, Play(db, b).value.byOwner;
    forall u | u in f ensures u in g && g[u] == f[u] {
      SameOwner(db, a, b, u, f[u]);
    }
    forall u | u in g ensures u in f && f[u] == g[u] {
      SameOwner(db, b, a, u, g[u]);
    }
  }

  /** Order independence, with registrations among the requests; each run draws its own transaction IDs. */
  lemma OrderDoesNotMatter(db: Db, a: seq<Order>, b: seq<Order>)
    requires Consistent(db) && multiset(Cores(a)) == multiset(Cores(b))
    requires Play(db, a).Some? && Play(db, b).Some?
    ensures Play(db, a).value.wallets == Play(db, b).value.wallets
  {
    hide Play, Effects, Cores;
    var d, e := Play(db, a).value, Play(db, b).value;
    SameOwners(db, a, b);
    PlayKeepsConsistent(db, a);
    PlayKeepsConsistent(db, b);
    forall x ensures x in d.wallets <==> x in e.wallets {
    }
    forall x | x in d.wallets ensures d.wallets[x] == e.wallets[x] {
      PlayHasEffects(db, a, x, d.byOwner);
      PlayHasEffects(db, b, x, d.byOwner);
      EffectsOfCores(a, x, d.byOwner);
      EffectsOfCores(b, x, d.byOwner);
      EffectsOfPermutation(Cores(a), Cores(b), x, d.byOwner);
    }
  }
}
