/** The random list of customer numbers behind o_c_id (src/datagen.c): number k is inserted before
    position get_random(k) of the list of 1..k-1. */
module RandomInsertion {
  import opened Lcg
  import opened Pcg
  import opened Doubles
  import opened RandomDraws

  // --------------------------------------------------- draws and permutations

  function InsertAt<T>(list: seq<T>, at: nat, value: T): (r: seq<T>)
    requires at <= |list|
    ensures |r| == |list| + 1
    ensures r[at] == value
    ensures forall i :: 0 <= i < at ==> r[i] == list[i]
    ensures forall i :: at < i < |r| ==> r[i] == list[i - 1]
  {
    list[..at] + [value] + list[at..]
  }

  /** Draw number i (from 0) places the value i + 2 and lies in [0, i + 2). */
  predicate ValidDraws(draws: seq<nat>) {
    forall i :: 0 <= i < |draws| ==> draws[i] < i + 2
  }

  /** The list after all insertions; 1 is there from the start. */
  function Inserted(draws: seq<nat>): (list: seq<int>)
    requires ValidDraws(draws)
    ensures |list| == |draws| + 1
  {
    if |draws| == 0 then [1]
    else InsertAt(Inserted(Front(draws)), Last(draws), |draws| + 1)
  }

  function Front(draws: seq<nat>): seq<nat>
    requires |draws| > 0
  {
    draws[..|draws| - 1]
  }

  function Last(draws: seq<nat>): nat
    requires |draws| > 0
  {
    draws[|draws| - 1]
  }

  /** A list of exactly the numbers 1..n, each once. */
  ghost predicate IsPermutation(list: seq<int>, n: nat) {
    && |list| == n
    && (forall i :: 0 <= i < n ==> 1 <= list[i] <= n)
    && (forall i, j :: 0 <= i < j < n ==> list[i] != list[j])
    && (forall v :: 1 <= v <= n ==> v in list)
  }

  lemma {:induction false} InsertedIsPermutation(draws: seq<nat>)
    requires ValidDraws(draws)
    ensures IsPermutation(Inserted(draws), |draws| + 1)
  {
    if |draws| > 0 {
      InsertedIsPermutation(Front(draws));
      InsertKeepsPermutation(Inserted(Front(draws)), Last(draws), |draws|);
    }
  }

  function Position(list: seq<int>, value: int): (p: nat)
    requires value in list
    ensures p < |list| && list[p] == value
  {
    if list[0] == value then 0 else 1 + Position(list[1..], value)
  }

  lemma InsertKeepsPermutation(list: seq<int>, at: nat, n: nat)
    requires IsPermutation(list, n) && at <= n
    ensures IsPermutation(InsertAt(list, at, n + 1), n + 1)
  {
    var r := InsertAt(list, at, n + 1);
    assert r[at] == n + 1;
    forall v | 1 <= v <= n ensures v in r {
      var i := Position(list, v);
      assert r[if i < at then i else i + 1] == v;
    }
  }

  // ------------------------------------------------- recovering the draws from the list

  function RemoveAt(list: seq<int>, at: nat): (r: seq<int>)
    requires at < |list|
    ensures |r| == |list| - 1
  {
    list[..at] + list[at + 1..]
  }

  /** The draws that would have produced the permutation: take the largest number out, again and again. */
  ghost function Recovered(list: seq<int>): (draws: seq<nat>)
    requires |list| > 0 && IsPermutation(list, |list|)
    ensures |draws| == |list| - 1
  {
    if |list| == 1 then []
    else
      var at := Position(list, |list|);
      RemoveKeepsPermutation(list, at);
      Recovered(RemoveAt(list, at)) + [at]
  }

  lemma RemoveKeepsPermutation(list: seq<int>, at: nat)
    requires |list| > 0 && IsPermutation(list, |list|) && at < |list| && list[at] == |list|
    ensures IsPermutation(RemoveAt(list, at), |list| - 1)
  {
    var r := RemoveAt(list, at);
    forall v | 1 <= v <= |list| - 1 ensures v in r {
      var i := Position(list, v);
      assert r[if i < at then i else i - 1] == v;
    }
    forall i | 0 <= i < |r| ensures 1 <= r[i] <= |r| {
      assert r[i] == list[if i < at then i else i + 1];
    }
  }

  lemma InsertUndoesRemove(list: seq<int>, at: nat)
    requires at < |list|
    ensures InsertAt(RemoveAt(list, at), at, list[at]) == list
  {
  }

  lemma RecoveredNext(list: seq<int>, at: nat)
    requires |list| > 1 && IsPermutation(list, |list|) && at < |list| && list[at] == |list|
    ensures IsPermutation(RemoveAt(list, at), |list| - 1)
    ensures Recovered(list) == Recovered(RemoveAt(list, at)) + [at]
  {
    RemoveKeepsPermutation(list, at);
    PositionIs(list, at);
  }

  lemma InsertedNext(draws: seq<nat>, at: nat)
    requires ValidDraws(draws) && at < |draws| + 2
    ensures ValidDraws(draws + [at])
    ensures Inserted(draws + [at]) == InsertAt(Inserted(draws), at, |draws| + 2)
  {
    hide InsertAt;
    OneMoreDraw(draws, at);
  }

  lemma OneMoreDraw(draws: seq<nat>, at: nat)
    requires ValidDraws(draws) && at < |draws| + 2
    ensures ValidDraws(draws + [at]) && Front(draws + [at]) == draws && Last(draws + [at]) == at
  {
  }

  lemma SingleNumber(list: seq<int>)
    requires |list| == 1 && IsPermutation(list, 1)
    ensures list == [1] == Inserted([]) && Recovered(list) == []
  {
  }

  lemma {:induction false} RecoveredProduces(list: seq<int>)
    requires |list| > 0 && IsPermutation(list, |list|)
    ensures ValidDraws(Recovered(list)) && Inserted(Recovered(list)) == list
    decreases |list|, 1
  {
    if |list| == 1 {
      SingleNumber(list);
    } else {
      RecoveredProducesStep(list, LargestAt(list));
    }
  }

  ghost function LargestAt(list: seq<int>): (at: nat)
    requires |list| > 0 && IsPermutation(list, |list|)
    ensures at < |list| && list[at] == |list|
  {
    Position(list, |list|)
  }

  lemma {:induction false} RecoveredProducesStep(list: seq<int>, at: nat)
    requires |list| > 1 && IsPermutation(list, |list|) && at < |list| && list[at] == |list|
    ensures ValidDraws(Recovered(list)) && Inserted(Recovered(list)) == list
    decreases |list|, 0
  {
    hide IsPermutation, Inserted, Recovered, ValidDraws, InsertAt, RemoveAt;
    RecoveredNext(list, at);
    RecoveredProduces(RemoveAt(list, at));
    InsertedNext(Recovered(RemoveAt(list, at)), at);
    InsertUndoesRemove(list, at);
  }

  lemma NoDraws(draws: seq<nat>)
    requires |draws| == 0
    ensures IsPermutation(Inserted(draws), 1) && Recovered(Inserted(draws)) == draws
  {
  }

  lemma SplitDraws(draws: seq<nat>)
    requires |draws| > 0 && ValidDraws(draws)
    ensures draws == Front(draws) + [Last(draws)] && |Front(draws)| == |draws| - 1
    ensures ValidDraws(Front(draws)) && Last(draws) < |draws| + 1
  {
  }

  lemma {:induction false} ProducedIsRecovered(draws: seq<nat>)
    requires ValidDraws(draws)
    ensures IsPermutation(Inserted(draws), |draws| + 1) && Recovered(Inserted(draws)) == draws
    decreases |draws|
  {
    hide IsPermutation, Inserted, Recovered, ValidDraws, Front, Last;
    if |draws| == 0 {
      NoDraws(draws);
    } else {
      SplitDraws(draws);
      ProducedIsRecovered(Front(draws));
      RecoveredAfterInsert(Front(draws), Last(draws));
    }
  }

  lemma RecoveredAfterInsert(draws: seq<nat>, at: nat)
    requires ValidDraws(draws) && at < |draws| + 2
    requires IsPermutation(Inserted(draws), |draws| + 1) && Recovered(Inserted(draws)) == draws
    ensures ValidDraws(draws + [at]) && IsPermutation(Inserted(draws + [at]), |draws| + 2)
    ensures Recovered(Inserted(draws + [at])) == draws + [at]
  {
    hide IsPermutation, Inserted, Recovered, ValidDraws, InsertAt, RemoveAt;
    InsertedNext(draws, at);
    InsertedIsPermutation(draws + [at]);
    RecoveredNext(Inserted(draws + [at]), at);
    RemoveUndoesInsert(Inserted(draws), at, |draws| + 2);
  }

  lemma PositionIs(list: seq<int>, at: nat)
    requires at < |list| && list[at] == |list| && IsPermutation(list, |list|)
    ensures Position(list, |list|) == at
  {
  }

  lemma RemoveUndoesInsert(list: seq<int>, at: nat, value: int)
    requires at <= |list|
    ensures RemoveAt(InsertAt(list, at, value), at) == list
  {
  }

  /** One draw sequence for every permutation of 1..n, and no other. */
  lemma EveryPermutationOnce(list: seq<int>, draws: seq<nat>)
    requires |list| > 0 && IsPermutation(list, |list|)
    ensures ValidDraws(Recovered(list)) && |Recovered(list)| == |list| - 1
    ensures ValidDraws(draws) ==> (Inserted(draws) == list <==> draws == Recovered(list))
  {
    RecoveredProduces(list);
    if ValidDraws(draws) { ProducedIsRecovered(draws); }
  }

  /** How many numbers smaller than `v` stand before it. */
  function SmallerBefore(list: seq<int>, v: int): nat {
    if |list| == 0 || list[0] == v then 0
    else SmallerBefore(list[1..], v) + if list[0] < v then 1 else 0
  }

  lemma {:induction false} LargerInsertedKeeps(list: seq<int>, at: nat, big: int, v: int)
    requires at <= |list| && v < big && v in list
    ensures SmallerBefore(InsertAt(list, at, big), v) == SmallerBefore(list, v)
  {
    if at == 0 {
      assert InsertAt(list, 0, big)[1..] == list;
    } else {
      assert InsertAt(list, at, big)[1..] == InsertAt(list[1..], at - 1, big);
      if list[0] != v { LargerInsertedKeeps(list[1..], at - 1, big, v); }
    }
  }

  lemma {:induction false} AllSmallerBefore(list: seq<int>, at: nat, big: int)
    requires at <= |list| && forall i :: 0 <= i < |list| ==> list[i] < big
    ensures SmallerBefore(InsertAt(list, at, big), big) == at
  {
    if at > 0 {
      assert InsertAt(list, at, big)[1..] == InsertAt(list[1..], at - 1, big);
      AllSmallerBefore(list[1..], at - 1, big);
    }
  }

  /** What the draws mean for the finished list: before the number k + 2 stand as many smaller numbers as draw k
      says. */
  lemma {:induction false} DrawsCountSmaller(draws: seq<nat>, k: nat)
    requires ValidDraws(draws) && k < |draws|
    ensures k + 2 in Inserted(draws) && SmallerBefore(Inserted(draws), k + 2) == draws[k]
    decreases |draws|
  {
    hide InsertAt, SmallerBefore;
    var front := Front(draws);
    InsertedIsPermutation(draws);
    InsertedIsPermutation(front);
    if k == |draws| - 1 {
      AllSmallerBefore(Inserted(front), Last(draws), |draws| + 1);
    } else {
      DrawsCountSmaller(front, k);
      LargerInsertedKeeps(Inserted(front), Last(draws), |draws| + 1, k + 2);
    }
  }

  // --------------------------------------------------------- the linked list itself

  class ListNode {
    var value: int
    var next: ListNode?

    constructor (value: int)
      ensures this.value == value && next == null
    {
      this.value := value;
      next := null;
    }
  }

  /** `nodes` are the nodes reached from `head`, in order. */
  ghost predicate Linked(head: ListNode?, nodes: seq<ListNode>)
    reads nodes
  {
    && (forall i, j :: 0 <= i < j < |nodes| ==> nodes[i] != nodes[j])
    && head == At(nodes, 0)
    && (forall i :: 0 <= i < |nodes| ==> nodes[i].next == At(nodes, i + 1))
  }

  ghost function At(nodes: seq<ListNode>, i: nat): ListNode? {
    if i < |nodes| then nodes[i] else null
  }

  ghost function Values(nodes: seq<ListNode>): (s: seq<int>)
    reads nodes
    ensures |s| == |nodes| && forall i :: 0 <= i < |s| ==> s[i] == nodes[i].value
  {
    if |nodes| == 0 then [] else Values(nodes[..|nodes| - 1]) + [nodes[|nodes| - 1].value]
  }

  /** Follow `iter0` links, remembering the node before. */
  method Walk(head: ListNode, ghost nodes: seq<ListNode>, iter0: nat)
    returns (prev: ListNode, current: ListNode?)
    requires Linked(head, nodes) && iter0 <= |nodes|
    ensures current == At(nodes, iter0) && prev == At(nodes, if iter0 == 0 then 0 else iter0 - 1)
  {
    var before: ListNode? := head;
    current := head;
    var iter := iter0;
    while iter > 0
      invariant 0 <= iter <= iter0
      invariant current == At(nodes, iter0 - iter)
      invariant before == At(nodes, if iter0 == iter then 0 else iter0 - iter - 1)
    {
      before := current;
      if current != null {
        current := current.next;
      }
      iter := iter - 1;
    }
    prev := before;
  }

  /** Linking in a new node after `at` links gives the longer list. */
  lemma Spliced(nodes: seq<ListNode>, at: nat, newHead: ListNode, newNode: ListNode)
    requires 0 < |nodes| && at <= |nodes| && newNode !in nodes
    requires forall i, j :: 0 <= i < j < |nodes| ==> nodes[i] != nodes[j]
    requires newNode.next == At(nodes, at) && newHead == if at == 0 then newNode else nodes[0]
    requires forall i :: 0 <= i < |nodes| ==> nodes[i].next == if i + 1 == at then newNode else At(nodes, i + 1)
    ensures Linked(newHead, InsertAt(nodes, at, newNode))
  {
    hide InsertAt;
    var newNodes := InsertAt(nodes, at, newNode);
    forall i | 0 <= i < |newNodes| ensures newNodes[i].next == At(newNodes, i + 1) {
      if i > at {
        assert newNodes[i] == nodes[i - 1];
      } else if i < at {
        assert newNodes[i] == nodes[i];
      }
    }
  }

  lemma ValuesSpliced(nodes: seq<ListNode>, at: nat, newNode: ListNode, values: seq<int>)
    requires at <= |nodes| == |values| && forall i :: 0 <= i < |nodes| ==> nodes[i].value == values[i]
    ensures Values(InsertAt(nodes, at, newNode)) == InsertAt(values, at, newNode.value)
  {
    hide Values, InsertAt;
  }

  lemma LinkedMeans(head: ListNode, nodes: seq<ListNode>)
    requires Linked(head, nodes)
    ensures |nodes| > 0 && nodes[0] == head
    ensures forall i, j :: 0 <= i < j < |nodes| ==> nodes[i] != nodes[j]
    ensures forall i :: 0 <= i < |nodes| ==> nodes[i].next == At(nodes, i + 1)
  {
  }

  /** Put a new node after `iter0` links: at the head, in the middle or at the tail. */
  method InsertNode(head: ListNode, ghost nodes: seq<ListNode>, iter0: nat, value: int)
    returns (newHead: ListNode, ghost newNodes: seq<ListNode>)
    requires Linked(head, nodes) && iter0 <= |nodes|
    modifies nodes
    ensures Linked(newHead, newNodes)
    ensures Values(newNodes) == InsertAt(old(Values(nodes)), iter0, value)
    ensures |newNodes| == |nodes| + 1 && fresh(newNodes[iter0])
    ensures newNodes == InsertAt(nodes, iter0, newNodes[iter0])
  {
    hide Values, InsertAt, Linked;
    LinkedMeans(head, nodes);
    var prev, current := Walk(head, nodes, iter0);
    var newNode := new ListNode(value);
    newHead := head;
    newNodes := InsertAt(nodes, iter0, newNode);
    if current == prev {
      newNode.next := head;
      newHead := newNode;
    } else if current == null {
      prev.next := newNode;
      newNode.next := null;
    } else {
      prev.next := newNode;
      newNode.next := current;
    }
    Spliced(nodes, iter0, newHead, newNode);
    ValuesSpliced(nodes, iter0, newNode, old(Values(nodes)));
  }

  /** Draw i of the insertion loop: get_random(i + 2). */
  ghost function Pick(state: nat, i: nat): (at: nat)
    requires state < MODULUS && i + 2 <= MANTISSA
    ensures at < i + 2
  {
    ScaledInRange(i + 2, Draw(state, i));
    Scaled(i + 2, Draw(state, i))
  }

  ghost function Picks(state: nat, n: nat): (draws: seq<nat>)
    requires state < MODULUS && n + 1 <= MANTISSA
    ensures |draws| == n && ValidDraws(draws)
  {
    if n == 0 then [] else Picks(state, n - 1) + [Pick(state, n - 1)]
  }

  lemma PickIs(state: nat, i: nat)
    requires state < MODULUS && i + 2 <= MANTISSA
    ensures Pick(state, i) == Scaled(i + 2, Draw(state, i))
  {
    hide Scaled, StateAfter, Draw;
  }

  lemma NextPick(state: nat, n: nat)
    requires state < MODULUS && n + 2 <= MANTISSA
    ensures Inserted(Picks(state, n + 1)) == InsertAt(Inserted(Picks(state, n)), Pick(state, n), n + 2)
  {
    hide Pick;
    assert Front(Picks(state, n + 1)) == Picks(state, n);
  }

  /** How many draws building the list takes: none for the first number. */
  function PickCount(customers: nat): nat {
    if customers == 0 then 0 else customers - 1
  }

  lemma {:induction false} PicksAre(state: nat, n: nat, k: nat)
    requires state < MODULUS && k < n && n + 1 <= MANTISSA
    ensures Picks(state, n)[k] == Scaled(k + 2, Draw(state, k))
    decreases n
  {
    hide Scaled, StateAfter, Draw;
    if k < n - 1 { PicksAre(state, n - 1, k); }
  }

  /** The finished list, from the draws alone: before customer k + 2 stand as many customers with smaller numbers
      as get_random(k + 2) says. */
  lemma ListFromDraws(state: nat, n: nat, k: nat)
    requires state < MODULUS && k < n && n + 1 <= MANTISSA
    ensures IsPermutation(Inserted(Picks(state, n)), n + 1)
    ensures SmallerBefore(Inserted(Picks(state, n)), k + 2) == Scaled(k + 2, Draw(state, k))
  {
    hide Scaled, StateAfter, Draw, SmallerBefore, Inserted;
    InsertedIsPermutation(Picks(state, n));
    DrawsCountSmaller(Picks(state, n), k);
    PicksAre(state, n, k);
  }

  lemma FirstNode(head: ListNode, state: nat)
    requires head.value == 1 && head.next == null && state < MODULUS
    ensures Linked(head, [head]) && Values([head]) == Inserted(Picks(state, 0))
  {
    assert Values([head]) == [1];
  }

  /** Insert `k` at a random place of the list. */
  method InsertDrawn(rng: Rng, head: ListNode, ghost nodes: seq<ListNode>, k: nat)
    returns (newHead: ListNode, ghost newNodes: seq<ListNode>, ghost at: nat)
    requires rng.Valid() && Linked(head, nodes) && 2 <= k == |nodes| + 1 && k <= MANTISSA
    modifies rng, nodes
    ensures rng.Valid() && rng.state == StateAfter(old(rng.state), 1)
    ensures at == Scaled(k, Draw(old(rng.state), 0)) && at < |nodes| + 1 == |newNodes|
    ensures Linked(newHead, newNodes) && Values(newNodes) == InsertAt(old(Values(nodes)), at, k)
    ensures fresh(newNodes[at]) && newNodes == InsertAt(nodes, at, newNodes[at])
  {
    hide StateAfter, Draw, Scaled, Values, Linked, InsertAt;
    var iter := GetRandom(rng, k);
    at := iter;
    newHead, newNodes := InsertNode(head, nodes, iter, k);
  }

  /** The whole list for one district. */
  method BuildList(rng: Rng, customers: nat) returns (head: ListNode, ghost nodes: seq<ListNode>)
    requires rng.Valid() && customers <= MANTISSA
    modifies rng
    ensures rng.Valid() && rng.state == StateAfter(old(rng.state), PickCount(customers))
    ensures Linked(head, nodes)
    ensures Values(nodes) == Inserted(Picks(old(rng.state), PickCount(customers)))
  {
    hide Pow2, Scaled, StateAfter, Draw, Inserted, Pick, Picks, Values, Linked, InsertAt, ValidDraws;
    ghost var start := rng.state;
    StartsHere(start);
    head := new ListNode(1);
    nodes := [head];
    ghost var created := {head};
    FirstNode(head, start);
    var k := 2;
    while k <= customers
      invariant 2 <= k <= customers + 1 || (customers == 0 && k == 2)
      invariant rng.Valid() && rng.state == StateAfter(start, k - 2)
      invariant fresh(created) && forall i :: 0 <= i < |nodes| ==> nodes[i] in created
      invariant Linked(head, nodes) && |nodes| == k - 1
      invariant Values(nodes) == Inserted(Picks(start, k - 2))
    {
      NextDraw(start, k - 2);
      PickIs(start, k - 2);
      NextPick(start, k - 2);
      ghost var at;
      head, nodes, at := InsertDrawn(rng, head, nodes, k);
      created := created + {nodes[at]};
      k := k + 1;
    }
  }
}
