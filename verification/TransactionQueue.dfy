/** The two linked lists of the client on the heap: the transaction queue (transaction_queue.c) and the
    free list (listener.c). Nodes move between them and keep a stale next pointer while a thread has them. */
module TransactionQueue {
  import opened Common

  class Node {
    var s: int
    var id: int
    var txn: nat
    var next: Node?

    constructor (s: int)
      ensures this.s == s && txn == 0
    {
      this.s := s;
      this.txn := 0;
    }
  }

  ghost function At(nodes: seq<Node>, i: int): Node? {
    if 0 <= i < |nodes| then nodes[i] else null
  }

  /** A singly linked list with pointers to both ends; `contents` is what it holds. */
  class NodeList {
    var head: Node?
    var tail: Node?
    ghost var contents: seq<Node>

    ghost predicate Valid()
      reads this, contents
    {
      && head == At(contents, 0)
      && tail == At(contents, |contents| - 1)
      && (forall i, j :: 0 <= i < j < |contents| ==> contents[i] != contents[j])
      && (forall i :: 0 <= i < |contents| ==> contents[i].next == At(contents, i + 1))
    }

    constructor ()
      ensures Valid() && contents == []
    {
      head, tail := null, null;
      contents := [];
    }

    /** Link a node in behind the tail, whatever its next pointer was. */
    method Append(node: Node)
      requires Valid() && node !in contents
      modifies this, node`next, contents`next
      ensures Valid() && contents == old(contents) + [node]
    {
      node.next := null;
      if tail != null {
        tail.next := node;
        tail := node;
      } else {
        head := node;
        tail := node;
      }
      contents := contents + [node];
    }

    /** Take the head off; its next pointer is left as it was. */
    method Pop() returns (node: Node?)
      requires Valid()
      modifies this
      ensures Valid()
      ensures old(contents) == [] ==> node == null && contents == []
      ensures old(contents) != [] ==> node == old(contents)[0] && contents == old(contents)[1..]
      ensures node != null && contents != [] ==> node.next == contents[0]
    {
      node := head;
      if head == null {
      } else if head.next == null {
        head, tail := null, null;
        contents := contents[1..];
      } else {
        head := head.next;
        contents := contents[1..];
      }
    }
  }

  /** Appending to one list leaves another one with other nodes as it is. */
  method AppendBeside(list: NodeList, other: NodeList, node: Node)
    requires list != other && list.Valid() && other.Valid()
    requires node !in list.contents && node !in other.contents
    requires forall n :: n in list.contents ==> n !in other.contents
    modifies list, node`next, list.contents`next
    ensures list.Valid() && list.contents == old(list.contents) + [node]
    ensures other.Valid() && other.contents == old(other.contents)
  {
    list.Append(node);
    assert forall n :: n in other.contents ==> n.next == old(n.next);
  }

  /** Both lists, the last id given out, and the counters of requests queued and executing by type. */
  class Client {
    const queue: NodeList
    const free: NodeList
    var transactionId: nat
    const queued: array<int>
    const executing: array<int>

    ghost predicate Valid()
      reads this, queue, free, queue.contents, free.contents, queued, executing
    {
      && queue != free && queue.Valid() && free.Valid()
      && queued != executing && queued.Length == executing.Length == TRANSACTIONS
      && (forall n :: n in queue.contents ==> n !in free.contents)
      && |queue.contents| <= transactionId
      && (forall i :: 0 <= i < |queue.contents| ==>
            queue.contents[i].txn < TRANSACTIONS
            && queue.contents[i].id == transactionId - |queue.contents| + 1 + i)
    }

    constructor ()
      ensures Valid() && fresh(queue) && fresh(free) && fresh(queued) && fresh(executing)
      ensures queue.contents == [] && free.contents == [] && transactionId == 0
      ensures queued[..] == executing[..] == [0, 0, 0, 0, 0]
    {
      queue := new NodeList();
      free := new NodeList();
      transactionId := 0;
      queued := new int[TRANSACTIONS](_ => 0);
      executing := new int[TRANSACTIONS](_ => 0);
    }

    /** enqueue_transaction */
    method Enqueue(node: Node)
      requires Valid() && node !in queue.contents && node !in free.contents && node.txn < TRANSACTIONS
      modifies this, queue, queued, node`next, node`id, queue.contents`next
      ensures Valid()
      ensures queue.contents == old(queue.contents) + [node] && free.contents == old(free.contents)
      ensures node.id == transactionId == old(transactionId) + 1
      ensures queued[..] == old(queued[..])[node.txn := old(queued[node.txn]) + 1]
    {
      queued[node.txn] := queued[node.txn] + 1;
      AppendNumbered(node);
    }

    /** The section of enqueue_transaction under mutex_queue. */
    method AppendNumbered(node: Node)
      requires Valid() && node !in queue.contents && node !in free.contents && node.txn < TRANSACTIONS
      modifies `transactionId, queue, node`next, node`id, queue.contents`next
      ensures Valid()
      ensures queue.contents == old(queue.contents) + [node] && free.contents == old(free.contents)
      ensures node.id == transactionId == old(transactionId) + 1
    {
      transactionId := transactionId + 1;
      node.id := transactionId;
      AppendBeside(queue, free, node);
    }

    /** dequeue_transaction after its wait: null only if the queue is empty. */
    method Dequeue() returns (node: Node?)
      requires Valid()
      modifies queue, queued, executing
      ensures Valid()
      ensures free.contents == old(free.contents) && transactionId == old(transactionId)
      ensures node == null <==> old(queue.contents) == []
      ensures node == null ==>
        queue.contents == [] && queued[..] == old(queued[..]) && executing[..] == old(executing[..])
      ensures node != null ==>
        && node == old(queue.contents)[0] && queue.contents == old(queue.contents)[1..]
        && node.id == transactionId - |queue.contents| && node.txn < TRANSACTIONS
        && queued[..] == old(queued[..])[node.txn := old(queued[..])[node.txn] - 1]
        && executing[..] == old(executing[..])[node.txn := old(executing[..])[node.txn] + 1]
    {
      node := queue.Pop();
      if node != null {
        queued[node.txn] := queued[node.txn] - 1;
        executing[node.txn] := executing[node.txn] + 1;
      }
    }

    /** The end of db_worker's loop: uncount the transaction and recycle its node. */
    method Finish(node: Node)
      requires Valid() && node !in queue.contents && node !in free.contents && node.txn < TRANSACTIONS
      modifies free, executing, node`next, free.contents`next
      ensures Valid()
      ensures free.contents == old(free.contents) + [node] && queue.contents == old(queue.contents)
      ensures executing[..] == old(executing[..])[node.txn := old(executing[node.txn]) - 1]
    {
      executing[node.txn] := executing[node.txn] - 1;
      AppendBeside(free, queue, node);
    }

    /** get_node after its wait. */
    method GetNode() returns (node: Node?)
      requires Valid()
      modifies free
      ensures Valid() && queue.contents == old(queue.contents)
      ensures node == null <==> old(free.contents) == []
      ensures node == null ==> free.contents == []
      ensures node != null ==> node == old(free.contents)[0] && free.contents == old(free.contents)[1..]
    {
      node := free.Pop();
    }
  }
}
