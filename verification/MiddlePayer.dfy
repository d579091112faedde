/** Payment by last name: who pays, said without the listing. */
module MiddlePayer {
  import opened Tables
  import opened Transactions

  /** The ids of a district's customers with a last name. */
  ghost function Named(db: Db, cw: int, cd: int, last: string): set<int> {
    set k | k in db.customer && k.w == cw && k.d == cd && db.customer[k].last == last :: k.c
  }

  ghost function FirstOf(db: Db, cw: int, cd: int, c: int): string {
    if CustomerKey(cw, cd, c) in db.customer then db.customer[CustomerKey(cw, cd, c)].first else ""
  }

  /** Those of them whose first names come before that of `c`, and after it. */
  ghost function Before(db: Db, cw: int, cd: int, last: string, c: int): set<int> {
    set x | x in Named(db, cw, cd, last) && LexLess(FirstOf(db, cw, cd, x), FirstOf(db, cw, cd, c))
  }

  ghost function Behind(db: Db, cw: int, cd: int, last: string, c: int): set<int> {
    set x | x in Named(db, cw, cd, last) && LexLess(FirstOf(db, cw, cd, c), FirstOf(db, cw, cd, x))
  }

  ghost function Elements(s: seq<int>): set<int> {
    set x | x in s
  }

  lemma {:induction false} ElementsSize(s: seq<int>)
    ensures |Elements(s)| <= |s|
    ensures (forall i, j :: 0 <= i < j < |s| ==> s[i] != s[j]) ==> |Elements(s)| == |s|
  {
    if s != [] {
      var front, x := s[..|s| - 1], s[|s| - 1];
      ElementsSize(front);
      assert s == front + [x];
      assert Elements(s) == Elements(front) + {x};
    }
  }

  lemma SubsetSize(a: set<int>, b: set<int>)
    requires a <= b
    ensures |a| <= |b|
  {
    assert b == a + (b - a);
  }

  lemma ListingIsNamed(db: Db, cw: int, cd: int, last: string, ids: seq<int>)
    requires IsListing(db, cw, cd, last, ids)
    ensures Elements(ids) == Named(db, cw, cd, last) && |Named(db, cw, cd, last)| == |ids|
  {
    ElementsSize(ids);
    forall c
      ensures c in Elements(ids) <==> c in Named(db, cw, cd, last)
    {
      if c in ids { assert CustomerKey(cw, cd, c) in db.customer; }
    }
  }

  /** At most m of the listed customers come before the one at position m by first name, the others do not. */
  lemma ListingSplits(db: Db, cw: int, cd: int, last: string, ids: seq<int>, m: nat)
    requires IsListing(db, cw, cd, last, ids) && m < |ids|
    ensures |Before(db, cw, cd, last, ids[m])| <= m
    ensures |Behind(db, cw, cd, last, ids[m])| <= |ids| - 1 - m
  {
    ListingIsNamed(db, cw, cd, last, ids);
    NotLessThanItself(FirstOf(db, cw, cd, ids[m]));
    var lower, upper := ids[..m], ids[m + 1..];
    forall x | x in Before(db, cw, cd, last, ids[m])
      ensures x in Elements(lower)
    {
      var i :| 0 <= i < |ids| && ids[i] == x;
      assert i < m;
      assert lower[i] == x;
    }
    forall x | x in Behind(db, cw, cd, last, ids[m])
      ensures x in Elements(upper)
    {
      var i :| 0 <= i < |ids| && ids[i] == x;
      assert i > m;
      assert upper[i - m - 1] == x;
    }
    ElementsSize(lower);
    ElementsSize(upper);
    SubsetSize(Before(db, cw, cd, last, ids[m]), Elements(lower));
    SubsetSize(Behind(db, cw, cd, last, ids[m]), Elements(upper));
  }

  lemma {:induction false} NotLessThanItself(s: string)
    ensures !LexLess(s, s)
  {
    if s != "" { NotLessThanItself(s[1..]); }
  }

  /** Given the ordered answer of the query by last name, the payment is made by a customer of that name with at
      most (n - 1) / 2 of the n before him by first name and at most n / 2 behind; it fails for want of a customer
      only if nobody bears the name, and then it cannot succeed. */
  lemma PayerIsInTheMiddle(db: Db, inp: PaymentInput, last: string)
    requires inp.c == 0 && IsListing(db, inp.cw, inp.cd, last, inp.listing)
    ensures var r := Payment(db, inp); var n := |Named(db, inp.cw, inp.cd, last)|;
            && (r == Aborted(StatementFailed("PAYMENT_5")) ==> n == 0)
            && (n == 0 ==> r.Aborted?)
            && r != Aborted(StatementFailed("PAYMENT_6"))
            && (r.Committed? ==>
                  && r.result in Named(db, inp.cw, inp.cd, last)
                  && |Before(db, inp.cw, inp.cd, last, r.result)| <= (n - 1) / 2
                  && |Behind(db, inp.cw, inp.cd, last, r.result)| <= n / 2)
  {
    ListingIsNamed(db, inp.cw, inp.cd, last, inp.listing);
    if |inp.listing| > 0 {
      ListingSplits(db, inp.cw, inp.cd, last, inp.listing, (|inp.listing| - 1) / 2);
      assert inp.listing[(|inp.listing| - 1) / 2] in Elements(inp.listing);
    }
  }
}
