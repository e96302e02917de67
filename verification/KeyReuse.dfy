/**
 The key alone is the identity of a call: neither the user nor the request is part of it. A call that repeats
 a key is answered for what it asks exactly when the call it repeats asked the same.
 */
module KeyReuse {
  import opened Wrappers
  import opened Money
  import opened Tables
  import opened Serial
  import opened Answers
  import opened Idempotency

  /** On a hit nothing depends on what is asked, or by whom. */
  lemma HitIgnoresRequest(site: Site, call: Call, order: Order)
    requires call.key != "" && Lookup(site.cache, call.key, call.at).Some?
    ensures Serve(site, call.(order := order)) == Serve(site, call)
    ensures Serve(site, call).0 == site
  {
  }

  /* ---- When a repeated key is answered for the request at hand ---- */

  /** A receipt is for one request only, since no two users share a wallet. */
  lemma ForOneRequest(db: Db, r: Receipt, a: Request, b: Request)
    requires Consistent(db) && ReceiptFor(db, r, a) && ReceiptFor(db, r, b)
    ensures a == b
  {
    if a.TopUp? && b.TopUp? {
      assert db.wallets[r.target].owner == a.user == b.user;
    } else if a.Transfer? && b.Transfer? {
      assert db.wallets[r.source.value].owner == a.user == b.user;
    }
  }

  lemma {:induction false} ReceiptsStay(db: Db, calls: seq<Call>, j: nat, i: nat)
    requires Consistent(db) && j <= i <= |calls|
    ensures Consistent(Before(db, calls, i)) && Keeps(Before(db, calls, j), Before(db, calls, i))
  {
    if i > 0 {
      ReceiptsStay(db, calls, if j == i then i - 1 else j, i - 1);
      HandleKeeps(Before(db, calls, i - 1), calls[i - 1]);
      hide Handle, Consistent, Runs;
    }
  }

  lemma HandleKeeps(db: Db, call: Call)
    requires Consistent(db)
    ensures var after := Handle(db, call.order, call.fault).0;
            Consistent(after) && Keeps(db, after)
  {
    hide Apply, Consistent;
    if Apply(db, call.order).Accepted? {
      ApplyKeepsConsistent(db, call.order);
      ApplyKeeps(db, call.order);
    }
  }

  /** A repeated call is answered by the receipt of the call it repeats. */
  lemma RepeatShowsReceipt(db: Db, calls: seq<Call>, j: nat, i: nat)
    requires Sequential(calls) && j < i < |calls| && calls[i].key != "" && Repeats(db, calls, j, i)
    ensures var v := Apply(Before(db, calls, j), calls[j].order);
            v.Accepted? && Answer(db, calls, i).body == [ReceiptChunk(v.receipt)]
  {
    SequentialCallsAreDeduplicated(db, calls);
    assert !Runs(db, calls, i);
    var k :| 0 <= k < i && Repeats(db, calls, k, i)
             && Answer(db, calls, i) == Handle(Before(db, calls, k), calls[k].order, calls[k].fault).1;
    RepeatsOnlyOne(db, calls, j, k, i);
    SuccessMeansEffect(Before(db, calls, j), calls[j].order, calls[j].fault);
    hide Answer, Handle, Apply, Before, Runs;
  }

  /** Right after the success that a call repeats, the tables are those of its request. */
  lemma SuccessIsBefore(db: Db, calls: seq<Call>, j: nat, i: nat)
    requires j < i < |calls| && Repeats(db, calls, j, i)
    ensures var v := Apply(Before(db, calls, j), calls[j].order);
            v.Accepted? && Before(db, calls, j + 1) == v.db
  {
    SuccessMeansEffect(Before(db, calls, j), calls[j].order, calls[j].fault);
    hide Handle, Apply;
  }

  /**
   The receipt that a repeated call gets is for its own request if and only if the call it repeats made that
   very request. Otherwise it is somebody's receipt for something else, and its own request is not made.
   */
  lemma OwnReceiptIff(db: Db, calls: seq<Call>, j: nat, i: nat)
    requires Consistent(db) && Sequential(calls)
    requires j < i < |calls| && calls[i].key != "" && Repeats(db, calls, j, i)
    ensures var body := Answer(db, calls, i).body;
            && |body| == 1 && body[0].ReceiptChunk?
            && (ReceiptFor(Before(db, calls, i), body[0].receipt, calls[i].order.req)
                <==> calls[j].order.req == calls[i].order.req)
  {
    hide Answer, Apply, Before, Repeats, Runs, ReceiptFor, Booked, Consistent, Keeps, Sequential;
    RepeatShowsReceipt(db, calls, j, i);
    var r := Apply(Before(db, calls, j), calls[j].order).receipt;
    ReceiptsStay(db, calls, j, j);
    ReceiptsStay(db, calls, j + 1, i);
    AcceptedIsFor(Before(db, calls, j), calls[j].order);
    SuccessIsBefore(db, calls, j, i);
    StaysFor(Before(db, calls, j + 1), Before(db, calls, i), r, calls[j].order.req);
    if ReceiptFor(Before(db, calls, i), r, calls[i].order.req) {
      ForOneRequest(Before(db, calls, i), r, calls[i].order.req, calls[j].order.req);
    }
  }

  /* ---- An input on which it is not ---- */

  const TWO_USERS := Db(map[0 := "a", 1 := "b"], map["a" := 0, "b" := 1],
                        map["A" := Wallet(0, 0), "B" := Wallet(1, 0)], map[0 := "A", 1 := "B"], [], [])

  const ONE_KEY := [Call("k", Order(TopUp(0, 500.0), 7, ""), false, 0.0, 1.0),
                    Call("k", Order(TopUp(1, 900.0), 8, ""), false, 2.0, 3.0)]

  /** If not, it may not be: the second user's top-up gets the first one's receipt and is not made. */
  lemma KeyReuseAnswersForAnother()
    ensures Sequential(ONE_KEY)
    ensures Answer(TWO_USERS, ONE_KEY, 1) == Response(200, [ReceiptChunk(Paid(7, TopUpKind, 500.0, None, "A", 500.0))])
    ensures SiteAfter(TWO_USERS, ONE_KEY).db.wallets == map["A" := Wallet(0, 500), "B" := Wallet(1, 0)]
  {
    var first, second := ONE_KEY[0], ONE_KEY[1];
    assert ONE_KEY[..1] == [first] && ONE_KEY[..1][..0] == [];
    var site := SiteAfter(TWO_USERS, []);
    assert Round(500.0) == 500;
    assert Handle(TWO_USERS, first.order, false).1
        == Response(200, [ReceiptChunk(Paid(7, TopUpKind, 500.0, None, "A", 500.0))]);
    assert SiteAfter(TWO_USERS, ONE_KEY[..1]) == Serve(site, first).0;
    hide Handle;
    assert Lookup(Serve(site, first).0.cache, "k", 2.0).Some?;
    assert SiteAfter(TWO_USERS, ONE_KEY) == Serve(SiteAfter(TWO_USERS, ONE_KEY[..1]), second).0;
  }
}
