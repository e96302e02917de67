/**
 The order in which rows are locked. Go compares strings byte by byte; Dafny's `<` on strings is the
 prefix order, so the lexicographic one is defined here and shown to be a strict total order.
 */
module WalletOrder {
  type WalletId = string

  predicate Less(a: WalletId, b: WalletId) {
    if b == [] then false
    else if a == [] then true
    else if a[0] != b[0] then a[0] < b[0]
    else Less(a[1..], b[1..])
  }

  /** `k` is where the IDs part, and `a` ends there or has the lesser character. */
  predicate PartsBelow(a: WalletId, b: WalletId, k: nat) {
    k <= |a| && k < |b| && a[..k] == b[..k] && (k == |a| || a[k] < b[k])
  }

  /** The order is the lexicographic one: it is decided by the first character in which the IDs differ. */
  lemma LessIff(a: WalletId, b: WalletId)
    ensures Less(a, b) <==> exists k :: PartsBelow(a, b, k)
  {
    if Less(a, b) {
      var k := LessParts(a, b);
    }
    if k :| PartsBelow(a, b, k) {
      PartsAreLess(a, b, k);
    }
  }

  lemma {:induction false} LessParts(a: WalletId, b: WalletId) returns (k: nat)
    requires Less(a, b)
    ensures PartsBelow(a, b, k)
  {
    k := 0;
    if a != [] && a[0] == b[0] {
      var rest := LessParts(a[1..], b[1..]);
      k := rest + 1;
      assert a[..k] == [a[0]] + a[1..][..rest] && b[..k] == [b[0]] + b[1..][..rest];
    }
  }

  lemma {:induction false} PartsAreLess(a: WalletId, b: WalletId, k: nat)
    requires PartsBelow(a, b, k)
    ensures Less(a, b)
  {
    if k > 0 {
      assert a[0] == a[..k][0] == b[..k][0] == b[0];
      assert a[1..][..k - 1] == a[..k][1..] == b[..k][1..] == b[1..][..k - 1];
      PartsAreLess(a[1..], b[1..], k - 1);
    }
  }

  lemma {:induction false} LessIsIrreflexive(a: WalletId)
    ensures !Less(a, a)
  {
    if a != [] {
      LessIsIrreflexive(a[1..]);
    }
  }

  lemma {:induction false} LessIsTransitive(a: WalletId, b: WalletId, c: WalletId)
    requires Less(a, b) && Less(b, c)
    ensures Less(a, c)
  {
    if a != [] && a[0] == b[0] == c[0] {
      LessIsTransitive(a[1..], b[1..], c[1..]);
    }
  }

  lemma {:induction false} LessIsTotal(a: WalletId, b: WalletId)
    ensures Less(a, b) || a == b || Less(b, a)
  {
    if a != [] && b != [] && a[0] == b[0] {
      LessIsTotal(a[1..], b[1..]);
      assert a == [a[0]] + a[1..] && b == [b[0]] + b[1..];
    }
  }

  /** A non-empty finite set of wallet IDs has a greatest one. */
  lemma {:induction false} Greatest(ids: set<WalletId>) returns (top: WalletId)
    requires ids != {}
    ensures top in ids && forall x :: x in ids ==> !Less(top, x)
  {
    var x :| x in ids;
    if ids == {x} {
      top := x;
      LessIsIrreflexive(x);
    } else {
      var rest := Greatest(ids - {x});
      if Less(rest, x) {
        top := x;
        LessIsIrreflexive(x);
        forall y | y in ids ensures !Less(top, y) {
          if y != x && Less(x, y) {
            LessIsTransitive(rest, x, y);
          }
        }
      } else {
        top := rest;
      }
    }
  }

  /** Wallet IDs never run out: some ID lies outside any finite set. */
  lemma {:induction false} FreshId(ids: set<WalletId>) returns (x: WalletId)
    ensures x !in ids && forall y :: y in ids ==> |y| < |x|
  {
    if ids == {} {
      x := [];
    } else {
      var z :| z in ids;
      var rest := FreshId(ids - {z});
      x := seq(if |z| < |rest| then |rest| else |z| + 1, i => 'A');
      forall y | y in ids ensures |y| < |x| {
        if y != z {
          assert y in ids - {z};
        }
      }
    }
  }
}
