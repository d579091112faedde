/** Sums over finite sets of row keys, the meaning of SQL's SUM and COUNT in the consistency conditions. */
module FiniteSums {

  ghost function Sum<T>(s: set<T>, f: T -> int): int
    decreases s
  {
    if s == {} then 0 else
      var x :| x in s;
      f(x) + Sum(s - {x}, f)
  }

  /** The sum does not depend on the order in which the elements are visited. */
  lemma {:induction false} SumRemove<T>(s: set<T>, f: T -> int, x: T)
    requires x in s
    ensures Sum(s, f) == f(x) + Sum(s - {x}, f)
    decreases s
  {
    var y :| y in s && Sum(s, f) == f(y) + Sum(s - {y}, f);
    if y != x {
      SumRemove(s - {y}, f, x);
      SumRemove(s - {x}, f, y);
      assert s - {y} - {x} == s - {x} - {y};
    }
  }

  lemma SumInsert<T>(s: set<T>, f: T -> int, x: T)
    requires x !in s
    ensures Sum(s + {x}, f) == Sum(s, f) + f(x)
  {
    SumRemove(s + {x}, f, x);
    assert s + {x} - {x} == s;
  }

  lemma {:induction false} SumCongruent<T>(s: set<T>, f: T -> int, g: T -> int)
    requires forall x :: x in s ==> f(x) == g(x)
    ensures Sum(s, f) == Sum(s, g)
    decreases s
  {
    if s != {} {
      var x :| x in s;
      SumRemove(s, f, x);
      SumRemove(s, g, x);
      SumCongruent(s - {x}, f, g);
    }
  }

  /** Changing one summand changes the sum by the difference. */
  lemma SumChange<T>(s: set<T>, f: T -> int, g: T -> int, x: T)
    requires x in s
    requires forall y :: y in s && y != x ==> f(y) == g(y)
    ensures Sum(s, g) == Sum(s, f) + g(x) - f(x)
  {
    SumRemove(s, f, x);
    SumRemove(s, g, x);
    SumCongruent(s - {x}, f, g);
  }

  lemma {:induction false} SumUnion<T>(a: set<T>, b: set<T>, f: T -> int)
    requires a !! b
    ensures Sum(a + b, f) == Sum(a, f) + Sum(b, f)
    decreases b
  {
    if b == {} {
      assert a + b == a;
    } else {
      var x :| x in b;
      SumUnion(a, b - {x}, f);
      SumRemove(b, f, x);
      SumInsert(a + (b - {x}), f, x);
      assert a + (b - {x}) + {x} == a + b;
    }
  }

  lemma {:induction false} SumZero<T>(s: set<T>, f: T -> int)
    requires forall x :: x in s ==> f(x) == 0
    ensures Sum(s, f) == 0
    decreases s
  {
    if s != {} {
      var x :| x in s;
      SumRemove(s, f, x);
      SumZero(s - {x}, f);
    }
  }

  ghost function Members<T, G>(rows: set<T>, group: T -> G, g: G): set<T> {
    set x | x in rows && group(x) == g
  }

  /** Counting rows by the group they belong to: the group sizes add up. */
  lemma {:induction false} CountByGroup<T, G>(rows: set<T>, groups: set<G>, group: T -> G, size: G -> int)
    requires forall x :: x in rows ==> group(x) in groups
    requires forall g :: g in groups ==> |Members(rows, group, g)| == size(g)
    ensures |rows| == Sum(groups, size)
    decreases groups
  {
    if groups == {} {
      assert rows == {};
    } else {
      var g :| g in groups;
      var ours := Members(rows, group, g);
      forall h | h in groups - {g}
        ensures |Members(rows - ours, group, h)| == size(h)
      {
        assert Members(rows - ours, group, h) == Members(rows, group, h);
      }
      CountByGroup(rows - ours, groups - {g}, group, size);
      SumRemove(groups, size, g);
      SizeOfRest(rows, ours);
    }
  }

  lemma SizeOfRest<T>(rows: set<T>, part: set<T>)
    requires part <= rows
    ensures |rows| == |part| + |rows - part|
  {
    assert rows == part + (rows - part);
  }

  /** The integers of an interval, and how many there are. */
  ghost function Interval(lo: int, hi: int): (s: set<int>)
    ensures forall i :: i in s <==> lo <= i < hi
    decreases hi - lo
  {
    if lo >= hi then {} else Interval(lo, hi - 1) + {hi - 1}
  }

  lemma {:induction false} IntervalSize(lo: int, hi: int)
    requires lo <= hi
    ensures |Interval(lo, hi)| == hi - lo
    decreases hi - lo
  {
    if lo < hi {
      IntervalSize(lo, hi - 1);
    }
  }

  ghost function Member<T>(s: set<T>): (x: T)
    requires s != {}
    ensures x in s
  {
    var x :| x in s; x
  }

  /** A finite non-empty set of integers has a least element. */
  lemma {:induction false} LeastExists(s: set<int>) returns (m: int)
    requires s != {}
    ensures m in s && forall x :: x in s ==> m <= x
    decreases s
  {
    var x := Member(s);
    m := x;
    assert forall y :: y in s ==> y == x || y in s - {x};
    if s - {x} != {} {
      var rest := LeastExists(s - {x});
      if rest < x { m := rest; }
    }
  }

  // ------------------------------------------------------------- weights of the values of a map

  ghost function Weight<K, V>(m: map<K, V>, weight: V -> int): K -> int {
    k => if k in m then weight(m[k]) else 0
  }

  /** The sum of the weights of all values. */
  ghost function Total<K, V>(m: map<K, V>, weight: V -> int): int {
    Sum(m.Keys, Weight(m, weight))
  }

  ghost function WeightAt<K, V>(m: map<K, V>, weight: V -> int, k: K): int {
    if k in m then weight(m[k]) else 0
  }

  lemma TotalRemove<K, V>(m: map<K, V>, weight: V -> int, k: K)
    ensures Total(m - {k}, weight) == Total(m, weight) - WeightAt(m, weight, k)
  {
    var rest := m - {k};
    assert rest.Keys == m.Keys - {k};
    SumCongruent(rest.Keys, Weight(rest, weight), Weight(m, weight));
    if k in m {
      SumRemove(m.Keys, Weight(m, weight), k);
    } else {
      assert rest.Keys == m.Keys;
    }
  }

  lemma TotalUpdate<K, V>(m: map<K, V>, weight: V -> int, k: K, v: V)
    ensures Total(m[k := v], weight) == Total(m, weight) - WeightAt(m, weight, k) + weight(v)
  {
    var next := m[k := v];
    TotalRemove(m, weight, k);
    TotalRemove(next, weight, k);
    assert next - {k} == m - {k};
  }

  lemma TotalZero<K, V>(m: map<K, V>, weight: V -> int)
    requires forall k :: k in m ==> weight(m[k]) == 0
    ensures Total(m, weight) == 0
  {
    SumZero(m.Keys, Weight(m, weight));
  }

  lemma {:induction false} SumNonNegative<T>(s: set<T>, f: T -> int)
    requires forall x :: x in s ==> f(x) >= 0
    ensures Sum(s, f) >= 0
    decreases s
  {
    if s != {} {
      var x :| x in s;
      SumRemove(s, f, x);
      SumNonNegative(s - {x}, f);
    }
  }

  /** No single weight exceeds the total. */
  lemma TotalAtLeast<K, V>(m: map<K, V>, weight: V -> int, k: K)
    requires forall j :: j in m ==> weight(m[j]) >= 0
    ensures Total(m, weight) >= WeightAt(m, weight, k)
  {
    SumNonNegative(m.Keys, Weight(m, weight));
    if k in m {
      SumRemove(m.Keys, Weight(m, weight), k);
      SumNonNegative(m.Keys - {k}, Weight(m, weight));
    }
  }
}
