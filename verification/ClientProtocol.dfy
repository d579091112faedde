/** The threaded client as a state machine: every mutex section and every semaphore operation of
    listener.c, transaction_queue.c and db_threadpool.c is one step, interleaved in any order. */
module ClientProtocol {
  import opened Common
  type Id = nat

  /** Where a node is, recorded with every move; no step looks at it. */
  datatype Place = OfListener(t: Id) | InQueue | OfWorker(w: Id) | InFree

  datatype Node = Node(socket: Id, id: nat, txn: nat, request: nat, place: Place)

  /** A listener thread, between two of its steps. */
  datatype Listener =
    | Receiving(node: Id)  // receive_transaction_data
    | Received(node: Id)   // about to count the request as queued
    | Appending(node: Id)  // about to lock the queue
    | Posting              // has appended, holds the queue lock
    | Waiting              // get_node: sem_wait(&free_count)
    | Popping              // has passed the wait

  /** A database worker, between two of its steps. */
  datatype Worker =
    | Idle                 // dequeue_transaction: sem_wait(&queue_length)
    | Taking               // has passed the wait
    | Taken(node: Id)      // about to uncount the request as queued
    | Shifting(node: Id)   // about to count it as executing
    | Executing(node: Id)  // process_transaction, send_transaction_data
    | Replied(node: Id)    // about to uncount it as executing
    | Recycling(node: Id)  // about to lock the free list
    | Freeing              // has recycled, holds the free list lock

  /** A request as it was read: from which socket, and of which type. */
  datatype Request = Request(socket: Id, txn: nat)

  /** A reply: to which socket, after a transaction of which type, and to which request. */
  datatype Answer = Answer(socket: Id, txn: nat, request: nat)

  datatype State = State(
    nodes: map<Id, Node>,
    listeners: map<Id, Listener>,
    workers: map<Id, Worker>,
    queue: seq<Id>,
    queueLength: nat,       // the semaphore
    queueLock: Option<Id>,
    free: seq<Id>,
    freeCount: nat,         // the semaphore
    freeLock: Option<Id>,
    transactionId: nat,
    queued: seq<int>,       // transaction_counter[REQ_QUEUED]
    executing: seq<int>,    // transaction_counter[REQ_EXECUTING]
    crashed: bool,
    received: seq<Request>, // every request read so far
    answers: seq<Answer>,   // every reply sent so far
    dequeued: seq<nat>,     // the id of every node taken off the queue so far
    recycled: seq<Id>,      // every node put on the free list so far
    reused: seq<Id>)        // every node taken off the free list so far

  datatype Event =
    | Accept(t: Id, n: Id, socket: Id)
    | Receive(t: Id, txn: nat)
    | ReceiveFails(t: Id)
    | Close(t: Id)
    | CountQueued(t: Id)
    | Append(t: Id)
    | PostQueue(t: Id)
    | WaitFree(t: Id)
    | PopFree(t: Id)
    | WaitQueue(w: Id)
    | PopQueue(w: Id)
    | UncountQueued(w: Id)
    | CountExecuting(w: Id)
    | Reply(w: Id)
    | UncountExecuting(w: Id)
    | Recycle(w: Id)
    | PostFree(w: Id)

  function Start(workers: set<Id>): State {
    State(map[], map[], map w | w in workers :: Idle, [], 0, None, [], 0, None, 0,
          [0, 0, 0, 0, 0], [0, 0, 0, 0, 0], false, [], [], [], [], [])
  }

  // ------------------------------------------------------------- the steps

  /** Steps of listener threads; the others are steps of workers. */
  predicate ListenerStep(e: Event) {
    match e
    case Accept(_, _, _) => true
    case Receive(_, _) => true
    case ReceiveFails(_) => true
    case Close(_) => true
    case CountQueued(_) => true
    case Append(_) => true
    case PostQueue(_) => true
    case WaitFree(_) => true
    case PopFree(_) => true
    case _ => false
  }

  predicate Listening(s: State, t: Id) { t in s.listeners && !s.crashed }

  predicate Working(s: State, w: Id) { w in s.workers && !s.crashed }

  /** The thread is at this step and nothing it waits for holds it back. */
  predicate Enabled(s: State, e: Event) {
    match e
    case Accept(t, n, socket) =>
      && !s.crashed && t !in s.listeners && n !in s.nodes
      && forall m :: m in s.nodes ==> s.nodes[m].socket != socket
    case Receive(t, txn) => Listening(s, t) && s.listeners[t].Receiving? && txn < TRANSACTIONS
    case ReceiveFails(t) => Listening(s, t) && s.listeners[t].Receiving?
    case Close(t) => Listening(s, t) && s.listeners[t].Receiving?
    case CountQueued(t) => Listening(s, t) && s.listeners[t].Received?
    case Append(t) => Listening(s, t) && s.listeners[t].Appending? && s.queueLock.None?
    case PostQueue(t) => Listening(s, t) && s.listeners[t].Posting?
    case WaitFree(t) => Listening(s, t) && s.listeners[t].Waiting? && s.freeCount > 0
    case PopFree(t) => Listening(s, t) && s.listeners[t].Popping? && s.freeLock.None?
    case WaitQueue(w) => Working(s, w) && s.workers[w].Idle? && s.queueLength > 0
    case PopQueue(w) => Working(s, w) && s.workers[w].Taking? && s.queueLock.None?
    case UncountQueued(w) => Working(s, w) && s.workers[w].Taken?
    case CountExecuting(w) => Working(s, w) && s.workers[w].Shifting?
    case Reply(w) => Working(s, w) && s.workers[w].Executing?
    case UncountExecuting(w) => Working(s, w) && s.workers[w].Replied?
    case Recycle(w) => Working(s, w) && s.workers[w].Recycling? && s.freeLock.None?
    case PostFree(w) => Working(s, w) && s.workers[w].Freeing?
  }

  /** exit(1), or a pointer to a freed node followed, or an index outside the counters. */
  function Crash(s: State): State { s.(crashed := true) }

  /** The node may be followed and its transaction type indexes the counters. */
  predicate Usable(s: State, n: Id) {
    n in s.nodes && s.nodes[n].txn < |s.queued| && s.nodes[n].txn < |s.executing|
  }

  /** Thread `t` goes on to `phase`, with node `n` in place `p`. */
  function ListenerGoes(s: State, t: Id, phase: Listener): State { s.(listeners := s.listeners[t := phase]) }

  function WorkerGoes(s: State, w: Id, phase: Worker): State { s.(workers := s.workers[w := phase]) }

  function Moved(s: State, n: Id, p: Place): State
    requires n in s.nodes
  {
    s.(nodes := s.nodes[n := s.nodes[n].(place := p)])
  }

  function Bump(s: State, n: Id, d: int): seq<int>
    requires Usable(s, n)
  {
    s.queued[s.nodes[n].txn := s.queued[s.nodes[n].txn] + d]
  }

  function BumpExecuting(s: State, n: Id, d: int): seq<int>
    requires Usable(s, n)
  {
    s.executing[s.nodes[n].txn := s.executing[s.nodes[n].txn] + d]
  }

  function Apply(s: State, e: Event): State
    requires Enabled(s, e)
  {
    match e
    case Accept(t, n, socket) =>
      ListenerGoes(s, t, Receiving(n)).(nodes := s.nodes[n := Node(socket, 0, 0, 0, OfListener(t))])
    case Receive(t, txn) =>
      var n := s.listeners[t].node;
      if n !in s.nodes then Crash(s)
      else
        ListenerGoes(s, t, Received(n)).(
          nodes := s.nodes[n := s.nodes[n].(txn := txn, request := |s.received|)],
          received := s.received + [Request(s.nodes[n].socket, txn)])
    case ReceiveFails(t) => s
    case Close(t) => s.(listeners := s.listeners - {t}, nodes := s.nodes - {s.listeners[t].node})
    case CountQueued(t) =>
      var n := s.listeners[t].node;
      if !Usable(s, n) then Crash(s) else ListenerGoes(s, t, Appending(n)).(queued := Bump(s, n, 1))
    case Append(t) =>
      var n := s.listeners[t].node;
      if n !in s.nodes then Crash(s)
      else
        ListenerGoes(s, t, Posting).(
          nodes := s.nodes[n := s.nodes[n].(id := s.transactionId + 1, place := InQueue)],
          queue := s.queue + [n], transactionId := s.transactionId + 1, queueLock := Some(t))
    case PostQueue(t) => ListenerGoes(s, t, Waiting).(queueLength := s.queueLength + 1, queueLock := None)
    case WaitFree(t) => ListenerGoes(s, t, Popping).(freeCount := s.freeCount - 1)
    case PopFree(t) =>
      if s.free == [] || s.free[0] !in s.nodes then Crash(s)
      else
        ListenerGoes(Moved(s, s.free[0], OfListener(t)), t, Receiving(s.free[0])).(
          free := s.free[1..], reused := s.reused + [s.free[0]])
    case WaitQueue(w) => WorkerGoes(s, w, Taking).(queueLength := s.queueLength - 1)
    case PopQueue(w) =>
      if s.queue == [] then WorkerGoes(s, w, Idle)
      else if s.queue[0] !in s.nodes then Crash(s)
      else
        WorkerGoes(Moved(s, s.queue[0], OfWorker(w)), w, Taken(s.queue[0])).(
          queue := s.queue[1..], dequeued := s.dequeued + [s.nodes[s.queue[0]].id])
    case UncountQueued(w) =>
      var n := s.workers[w].node;
      if !Usable(s, n) then Crash(s) else WorkerGoes(s, w, Shifting(n)).(queued := Bump(s, n, -1))
    case CountExecuting(w) =>
      var n := s.workers[w].node;
      if !Usable(s, n) then Crash(s) else WorkerGoes(s, w, Executing(n)).(executing := BumpExecuting(s, n, 1))
    case Reply(w) =>
      var n := s.workers[w].node;
      if n !in s.nodes then Crash(s)
      else WorkerGoes(s, w, Replied(n)).(
          answers := s.answers + [Answer(s.nodes[n].socket, s.nodes[n].txn, s.nodes[n].request)])
    case UncountExecuting(w) =>
      var n := s.workers[w].node;
      if !Usable(s, n) then Crash(s) else WorkerGoes(s, w, Recycling(n)).(executing := BumpExecuting(s, n, -1))
    case Recycle(w) =>
      var n := s.workers[w].node;
      if n !in s.nodes then Crash(s)
      else
        WorkerGoes(Moved(s, n, InFree), w, Freeing).(
          free := s.free + [n], freeLock := Some(w), recycled := s.recycled + [n])
    case PostFree(w) => WorkerGoes(s, w, Idle).(freeCount := s.freeCount + 1, freeLock := None)
  }

  /** Any interleaving: the steps one after the other, as long as each is possible where it is taken. */
  function After(s: State, events: seq<Event>): Option<State> {
    if |events| == 0 then Some(s)
    else
      match After(s, events[..|events| - 1])
      case None => None
      case Some(mid) => Next(mid, events[|events| - 1])
  }

  function Next(s: State, e: Event): Option<State> {
    if Enabled(s, e) then Some(Apply(s, e)) else None
  }
}
