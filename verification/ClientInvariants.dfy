/** What every step of the client keeps: who has which node, how many wait, and which requests are answered. */
module ClientInvariants {
  import opened Common
  import opened FiniteSums
  import opened ClientProtocol

  // ------------------------------------------------------------- the invariants

  predicate Listens(l: Listener) { l.Receiving? || l.Received? || l.Appending? }

  predicate Works(w: Worker) { !w.Idle? && !w.Taking? && !w.Freeing? }

  predicate Placed(s: State, n: Id, p: Place) { n in s.nodes && s.nodes[n].place == p }

  /** A node that a thread or a list has is where the node's place says. */
  ghost predicate ListenersHold(s: State) {
    forall t :: t in s.listeners && Listens(s.listeners[t]) ==> Placed(s, s.listeners[t].node, OfListener(t))
  }

  ghost predicate WorkersHold(s: State) {
    forall w :: w in s.workers && Works(s.workers[w]) ==> Placed(s, s.workers[w].node, OfWorker(w))
  }

  ghost predicate QueueHolds(s: State) {
    forall i :: 0 <= i < |s.queue| ==> Placed(s, s.queue[i], InQueue)
  }

  ghost predicate FreeHolds(s: State) {
    forall i :: 0 <= i < |s.free| ==> Placed(s, s.free[i], InFree)
  }

  predicate In(s: State, n: Id, p: Place) {
    match p
    case OfListener(t) => t in s.listeners && Listens(s.listeners[t]) && s.listeners[t].node == n
    case OfWorker(w) => w in s.workers && Works(s.workers[w]) && s.workers[w].node == n
    case InQueue => n in s.queue
    case InFree => n in s.free
  }

  /** Every node is where its place says: with a thread, or in a list. */
  ghost predicate FoundWithThreads(s: State) {
    forall n :: n in s.nodes && (s.nodes[n].place.OfListener? || s.nodes[n].place.OfWorker?) ==>
      In(s, n, s.nodes[n].place)
  }

  ghost predicate FoundInLists(s: State) {
    forall n :: n in s.nodes && (s.nodes[n].place.InQueue? || s.nodes[n].place.InFree?) ==>
      In(s, n, s.nodes[n].place)
  }

  ghost predicate Found(s: State) { FoundWithThreads(s) && FoundInLists(s) }

  ghost predicate Distinct(list: seq<Id>) { forall i, j :: 0 <= i < j < |list| ==> list[i] != list[j] }

  ghost predicate Lists(s: State) { Distinct(s.queue) && Distinct(s.free) }

  ghost predicate Sockets(s: State) {
    forall m, n :: m in s.nodes && n in s.nodes && s.nodes[m].socket == s.nodes[n].socket ==> m == n
  }

  ghost predicate Sane(s: State) {
    && !s.crashed && |s.queued| == TRANSACTIONS && |s.executing| == TRANSACTIONS
    && forall n :: n in s.nodes ==> s.nodes[n].txn < TRANSACTIONS
  }

  ghost predicate Nodes(s: State) {
    ListenersHold(s) && WorkersHold(s) && QueueHolds(s) && FreeHolds(s) && Found(s) && Lists(s) && Sockets(s)
    && Sane(s)
  }

  /** A step that takes a node to another place. */
  predicate Rehouses(e: Event) { e.Accept? || e.Close? || e.Append? || e.PopFree? || e.PopQueue? || e.Recycle? }

  lemma ListenerKeepsListenersHold(s: State, e: Event)
    requires Enabled(s, e) && Nodes(s) && ListenerStep(e)
    ensures ListenersHold(Apply(s, e))
  {
  }

  lemma WorkerKeepsListenersHold(s: State, e: Event)
    requires Enabled(s, e) && Nodes(s) && !ListenerStep(e)
    ensures ListenersHold(Apply(s, e))
  {
  }

  lemma ListenerKeepsWorkersHold(s: State, e: Event)
    requires Enabled(s, e) && Nodes(s) && ListenerStep(e)
    ensures WorkersHold(Apply(s, e))
  {
  }

  lemma WorkerKeepsWorkersHoldWhenRehousing(s: State, e: Event)
    requires Enabled(s, e) && Nodes(s) && !ListenerStep(e)
    requires Rehouses(e)
    ensures WorkersHold(Apply(s, e))
  {
  }

  lemma WorkerKeepsWorkersHoldInPlace(s: State, e: Event)
    requires Enabled(s, e) && Nodes(s) && !ListenerStep(e)
    requires !Rehouses(e)
    ensures WorkersHold(Apply(s, e))
  {
  }

  lemma WorkerKeepsWorkersHold(s: State, e: Event)
    requires Enabled(s, e) && Nodes(s) && !ListenerStep(e)
    ensures WorkersHold(Apply(s, e))
  {
    hide Apply, Enabled;
    if Rehouses(e) { WorkerKeepsWorkersHoldWhenRehousing(s, e); } else { WorkerKeepsWorkersHoldInPlace(s, e); }
  }

  lemma ListenerKeepsQueueHolds(s: State, e: Event)
    requires Enabled(s, e) && Nodes(s) && ListenerStep(e)
    ensures QueueHolds(Apply(s, e))
  {
  }

  lemma WorkerKeepsQueueHolds(s: State, e: Event)
    requires Enabled(s, e) && Nodes(s) && !ListenerStep(e)
    ensures QueueHolds(Apply(s, e))
  {
  }

  lemma ListenerKeepsFreeHolds(s: State, e: Event)
    requires Enabled(s, e) && Nodes(s) && ListenerStep(e)
    ensures FreeHolds(Apply(s, e))
  {
  }

  lemma WorkerKeepsFreeHolds(s: State, e: Event)
    requires Enabled(s, e) && Nodes(s) && !ListenerStep(e)
    ensures FreeHolds(Apply(s, e))
  {
  }

  lemma ListenerKeepsFoundWithThreadsWhenRehousing(s: State, e: Event)
    requires Enabled(s, e) && Nodes(s) && ListenerStep(e)
    requires Rehouses(e)
    ensures FoundWithThreads(Apply(s, e))
  {
  }

  lemma ListenerKeepsFoundWithThreadsInPlace(s: State, e: Event)
    requires Enabled(s, e) && Nodes(s) && ListenerStep(e)
    requires !Rehouses(e)
    ensures FoundWithThreads(Apply(s, e))
  {
  }

  lemma ListenerKeepsFoundWithThreads(s: State, e: Event)
    requires Enabled(s, e) && Nodes(s) && ListenerStep(e)
    ensures FoundWithThreads(Apply(s, e))
  {
    hide Apply, Enabled;
    if Rehouses(e) {
      ListenerKeepsFoundWithThreadsWhenRehousing(s, e);
    } else {
      ListenerKeepsFoundWithThreadsInPlace(s, e);
    }
  }

  lemma WorkerKeepsFoundWithThreadsWhenRehousing(s: State, e: Event)
    requires Enabled(s, e) && Nodes(s) && !ListenerStep(e)
    requires Rehouses(e)
    ensures FoundWithThreads(Apply(s, e))
  {
  }

  lemma WorkerKeepsFoundWithThreadsInPlace(s: State, e: Event)
    requires Enabled(s, e) && Nodes(s) && !ListenerStep(e)
    requires !Rehouses(e)
    ensures FoundWithThreads(Apply(s, e))
  {
  }

  lemma WorkerKeepsFoundWithThreads(s: State, e: Event)
    requires Enabled(s, e) && Nodes(s) && !ListenerStep(e)
    ensures FoundWithThreads(Apply(s, e))
  {
    hide Apply, Enabled;
    if Rehouses(e) {
      WorkerKeepsFoundWithThreadsWhenRehousing(s, e);
    } else {
      WorkerKeepsFoundWithThreadsInPlace(s, e);
    }
  }

  lemma ListenerKeepsFoundInLists(s: State, e: Event)
    requires Enabled(s, e) && Nodes(s) && ListenerStep(e)
    ensures FoundInLists(Apply(s, e))
  {
  }

  lemma WorkerKeepsFoundInLists(s: State, e: Event)
    requires Enabled(s, e) && Nodes(s) && !ListenerStep(e)
    ensures FoundInLists(Apply(s, e))
  {
  }

  lemma ListenerKeepsLists(s: State, e: Event)
    requires Enabled(s, e) && Nodes(s) && ListenerStep(e)
    ensures Lists(Apply(s, e))
  {
  }

  lemma WorkerKeepsLists(s: State, e: Event)
    requires Enabled(s, e) && Nodes(s) && !ListenerStep(e)
    ensures Lists(Apply(s, e))
  {
  }

  lemma ListenerKeepsSockets(s: State, e: Event)
    requires Enabled(s, e) && Nodes(s) && ListenerStep(e)
    ensures Sockets(Apply(s, e))
  {
  }

  lemma WorkerKeepsSockets(s: State, e: Event)
    requires Enabled(s, e) && Nodes(s) && !ListenerStep(e)
    ensures Sockets(Apply(s, e))
  {
  }

  // ------------------------------------------------------------- semaphores and waiting threads

  function Waits(l: Listener): int { if Listens(l) then 0 else 1 }
  function Pops(l: Listener): int { if l.Popping? then 1 else 0 }
  function IsBusy(w: Worker): int { if Works(w) then 1 else 0 }
  function Takes(w: Worker): int { if w.Taking? then 1 else 0 }
  function Locked(lock: Option<Id>): int { if lock.Some? then 1 else 0 }

  /** Listeners without a node = nodes queued, in the hands of a worker, or free. */
  ghost predicate Flow(s: State) {
    Total(s.listeners, Waits) == |s.queue| + Total(s.workers, IsBusy) + |s.free|
  }

  /** Each semaphore and the threads that have passed its wait but not popped make up the list, but for an append
      that is not posted yet. */
  ghost predicate QueueCount(s: State) {
    s.queueLength + Total(s.workers, Takes) + Locked(s.queueLock) == |s.queue|
  }

  ghost predicate FreeCount(s: State) {
    s.freeCount + Total(s.listeners, Pops) + Locked(s.freeLock) == |s.free|
  }

  ghost predicate Semaphores(s: State) { QueueCount(s) && FreeCount(s) }

  /** A lock is held by the one thread that has appended and not posted. */
  ghost predicate QueueLocks(s: State) {
    && (forall t :: t in s.listeners && s.listeners[t].Posting? ==> s.queueLock == Some(t))
    && (s.queueLock.Some? ==> s.queueLock.value in s.listeners && s.listeners[s.queueLock.value].Posting?)
  }

  ghost predicate FreeLocks(s: State) {
    && (forall w :: w in s.workers && s.workers[w].Freeing? ==> s.freeLock == Some(w))
    && (s.freeLock.Some? ==> s.freeLock.value in s.workers && s.workers[s.freeLock.value].Freeing?)
  }

  ghost predicate Locks(s: State) { QueueLocks(s) && FreeLocks(s) }

  ghost predicate Counts(s: State) { Flow(s) && Semaphores(s) && Locks(s) }

  lemma ListenerKeepsQueueLocks(s: State, e: Event)
    requires Enabled(s, e) && QueueLocks(s) && ListenerStep(e)
    ensures QueueLocks(Apply(s, e))
  {
  }

  lemma ListenerKeepsFreeLocks(s: State, e: Event)
    requires Enabled(s, e) && FreeLocks(s) && ListenerStep(e)
    ensures FreeLocks(Apply(s, e))
  {
  }

  lemma WorkerKeepsQueueLocks(s: State, e: Event)
    requires Enabled(s, e) && QueueLocks(s) && !ListenerStep(e)
    ensures QueueLocks(Apply(s, e))
  {
  }

  lemma WorkerKeepsFreeLocks(s: State, e: Event)
    requires Enabled(s, e) && FreeLocks(s) && !ListenerStep(e)
    ensures FreeLocks(Apply(s, e))
  {
  }

  lemma PoppersFind(s: State, t: Id)
    requires FreeCount(s) && t in s.listeners && s.listeners[t].Popping? && s.freeLock.None?
    ensures s.free != []
  {
    TotalAtLeast(s.listeners, Pops, t);
  }

  lemma TakersFind(s: State, w: Id)
    requires QueueCount(s) && w in s.workers && s.workers[w].Taking? && s.queueLock.None?
    ensures s.queue != []
  {
    TotalAtLeast(s.workers, Takes, w);
  }

  lemma ListenerKeepsSane(s: State, e: Event)
    requires Enabled(s, e) && Nodes(s) && Semaphores(s) && ListenerStep(e)
    ensures Sane(Apply(s, e))
  {
    if e.PopFree? { PoppersFind(s, e.t); }
    hide Semaphores, Found, Lists, Sockets;
  }

  lemma WorkerKeepsSane(s: State, e: Event)
    requires Enabled(s, e) && Nodes(s) && !ListenerStep(e)
    ensures Sane(Apply(s, e))
  {
    hide Found, Lists, Sockets;
  }

  /** How one step changes the weights of the threads. */
  lemma ListenerWeights(s: State, e: Event, weight: Listener -> int)
    requires Enabled(s, e) && ListenerStep(e) && !Apply(s, e).crashed && !e.ReceiveFails?
    ensures Total(Apply(s, e).listeners, weight)
         == Total(s.listeners, weight) - WeightAt(s.listeners, weight, e.t)
          + WeightAt(Apply(s, e).listeners, weight, e.t)
  {
    var r := Apply(s, e);
    if e.Close? {
      TotalRemove(s.listeners, weight, e.t);
    } else {
      assert r.listeners == s.listeners[e.t := r.listeners[e.t]];
      TotalUpdate(s.listeners, weight, e.t, r.listeners[e.t]);
    }
  }

  lemma WorkerWeights(s: State, e: Event, weight: Worker -> int)
    requires Enabled(s, e) && !ListenerStep(e) && !Apply(s, e).crashed
    ensures Total(Apply(s, e).workers, weight)
         == Total(s.workers, weight) - weight(s.workers[e.w]) + weight(Apply(s, e).workers[e.w])
  {
    var r := Apply(s, e);
    assert r.workers == s.workers[e.w := r.workers[e.w]];
    TotalUpdate(s.workers, weight, e.w, r.workers[e.w]);
  }

  lemma ListenerKeepsFlow(s: State, e: Event)
    requires Enabled(s, e) && ListenerStep(e) && !Apply(s, e).crashed && Flow(s)
    ensures Flow(Apply(s, e))
  {
    hide Total;
    if !e.ReceiveFails? { ListenerWeights(s, e, Waits); }
  }

  lemma ListenerKeepsQueueCount(s: State, e: Event)
    requires Enabled(s, e) && ListenerStep(e) && !Apply(s, e).crashed && QueueCount(s) && QueueLocks(s)
    ensures QueueCount(Apply(s, e))
  {
    hide Total;
  }

  lemma ListenerKeepsFreeCount(s: State, e: Event)
    requires Enabled(s, e) && ListenerStep(e) && !Apply(s, e).crashed && FreeCount(s)
    ensures FreeCount(Apply(s, e))
  {
    hide Total;
    if !e.ReceiveFails? { ListenerWeights(s, e, Pops); }
  }

  lemma ListenerKeepsCounts(s: State, e: Event)
    requires Enabled(s, e) && ListenerStep(e) && Nodes(s) && Counts(s)
    ensures Flow(Apply(s, e)) && Semaphores(Apply(s, e))
  {
    hide Apply, Enabled, Nodes, Flow, QueueCount, FreeCount;
    ListenerKeepsSane(s, e);
    NoCrash(Apply(s, e));
    ListenerKeepsFlow(s, e);
    ListenerKeepsQueueCount(s, e);
    ListenerKeepsFreeCount(s, e);
  }

  lemma NoCrash(s: State)
    requires Sane(s)
    ensures !s.crashed
  {
  }

  lemma WorkerKeepsFlowWhenRehousing(s: State, e: Event)
    requires Enabled(s, e) && !ListenerStep(e) && !Apply(s, e).crashed && Flow(s) && QueueCount(s)
    requires Rehouses(e)
    ensures Flow(Apply(s, e))
  {
    hide Total;
    WorkerWeights(s, e, IsBusy);
  }

  lemma WorkerKeepsFlowInPlace(s: State, e: Event)
    requires Enabled(s, e) && !ListenerStep(e) && !Apply(s, e).crashed && Flow(s) && QueueCount(s)
    requires !Rehouses(e)
    ensures Flow(Apply(s, e))
  {
    hide Total;
    WorkerWeights(s, e, IsBusy);
  }

  lemma WorkerKeepsFlow(s: State, e: Event)
    requires Enabled(s, e) && !ListenerStep(e) && !Apply(s, e).crashed && Flow(s) && QueueCount(s)
    ensures Flow(Apply(s, e))
  {
    hide Apply, Enabled;
    if Rehouses(e) { WorkerKeepsFlowWhenRehousing(s, e); } else { WorkerKeepsFlowInPlace(s, e); }
  }

  lemma WorkerKeepsQueueCount(s: State, e: Event)
    requires Enabled(s, e) && !ListenerStep(e) && !Apply(s, e).crashed && QueueCount(s)
    ensures QueueCount(Apply(s, e))
  {
    hide Total;
    WorkerWeights(s, e, Takes);
    if e.PopQueue? { TakersFind(s, e.w); }
  }

  lemma WorkerKeepsFreeCountWhenRehousing(s: State, e: Event)
    requires Enabled(s, e) && !ListenerStep(e) && !Apply(s, e).crashed && FreeCount(s) && FreeLocks(s)
    requires Rehouses(e)
    ensures FreeCount(Apply(s, e))
  {
    hide Total;
  }

  lemma WorkerKeepsFreeCountInPlace(s: State, e: Event)
    requires Enabled(s, e) && !ListenerStep(e) && !Apply(s, e).crashed && FreeCount(s) && FreeLocks(s)
    requires !Rehouses(e)
    ensures FreeCount(Apply(s, e))
  {
    hide Total;
  }

  lemma WorkerKeepsFreeCount(s: State, e: Event)
    requires Enabled(s, e) && !ListenerStep(e) && !Apply(s, e).crashed && FreeCount(s) && FreeLocks(s)
    ensures FreeCount(Apply(s, e))
  {
    hide Apply, Enabled, FreeCount, FreeLocks;
    if Rehouses(e) { WorkerKeepsFreeCountWhenRehousing(s, e); } else { WorkerKeepsFreeCountInPlace(s, e); }
  }

  lemma WorkerKeepsCounts(s: State, e: Event)
    requires Enabled(s, e) && !ListenerStep(e) && Nodes(s) && Counts(s)
    ensures Flow(Apply(s, e)) && Semaphores(Apply(s, e))
  {
    hide Apply, Enabled, Nodes, Flow, QueueCount, FreeCount;
    WorkerKeepsSane(s, e);
    NoCrash(Apply(s, e));
    WorkerKeepsFlow(s, e);
    WorkerKeepsQueueCount(s, e);
    WorkerKeepsFreeCount(s, e);
  }

  // ------------------------------------------------------------- first in, first out

  /** Queue ids are consecutive, and the nodes taken off so far carried 1, 2, 3, ... */
  ghost predicate Ids(s: State) {
    && s.transactionId == |s.dequeued| + |s.queue|
    && (forall i :: 0 <= i < |s.dequeued| ==> s.dequeued[i] == i + 1)
    && (forall i :: 0 <= i < |s.queue| && s.queue[i] in s.nodes ==> s.nodes[s.queue[i]].id == |s.dequeued| + 1 + i)
  }

  lemma ListenerKeepsIds(s: State, e: Event)
    requires Enabled(s, e) && Nodes(s) && Ids(s) && ListenerStep(e)
    ensures Ids(Apply(s, e))
  {
    hide Found, Sockets, WorkersHold;
  }

  lemma WorkerKeepsIds(s: State, e: Event)
    requires Enabled(s, e) && Nodes(s) && Ids(s) && !ListenerStep(e)
    ensures Ids(Apply(s, e))
  {
    hide Found, Sockets, ListenersHold;
  }

  /** Nodes leave the free list in the order in which they were put there. */
  ghost predicate Spares(s: State) { s.recycled == s.reused + s.free }

  lemma ListenerKeepsSpares(s: State, e: Event)
    requires Enabled(s, e) && Spares(s) && ListenerStep(e)
    ensures Spares(Apply(s, e))
  {
  }

  lemma WorkerKeepsSpares(s: State, e: Event)
    requires Enabled(s, e) && Spares(s) && !ListenerStep(e)
    ensures Spares(Apply(s, e))
  {
  }

  // ------------------------------------------------------------- the way of a node

  datatype Stage =
    Absent | Reading | Read | Counted | InLine | Off | Uncounted | Running | Answered | Finished | Spare

  function AtListener(l: Listener): Stage {
    match l
    case Receiving(_) => Reading
    case Received(_) => Read
    case Appending(_) => Counted
    case _ => Absent
  }

  function AtWorker(w: Worker): Stage {
    match w
    case Taken(_) => Off
    case Shifting(_) => Uncounted
    case Executing(_) => Running
    case Replied(_) => Answered
    case Recycling(_) => Finished
    case _ => Absent
  }

  /** How far node `n` has come. */
  function StageOf(s: State, n: Id): Stage {
    if n !in s.nodes then Absent
    else
      match s.nodes[n].place
      case OfListener(t) => if t in s.listeners then AtListener(s.listeners[t]) else Absent
      case OfWorker(w) => if w in s.workers then AtWorker(s.workers[w]) else Absent
      case InQueue => InLine
      case InFree => Spare
  }

  /** The node that a step moves on. */
  function Mover(s: State, e: Event): Option<Id>
    requires Enabled(s, e)
  {
    match e
    case Accept(_, n, _) => Some(n)
    case Receive(t, _) => Some(s.listeners[t].node)
    case Close(t) => Some(s.listeners[t].node)
    case CountQueued(t) => Some(s.listeners[t].node)
    case Append(t) => Some(s.listeners[t].node)
    case PopFree(t) => if s.free == [] then None else Some(s.free[0])
    case PopQueue(w) => if s.queue == [] then None else Some(s.queue[0])
    case UncountQueued(w) => Some(s.workers[w].node)
    case CountExecuting(w) => Some(s.workers[w].node)
    case Reply(w) => Some(s.workers[w].node)
    case UncountExecuting(w) => Some(s.workers[w].node)
    case Recycle(w) => Some(s.workers[w].node)
    case _ => None
  }

  /** From where to where. */
  function Passage(e: Event): (Stage, Stage) {
    match e
    case Accept(_, _, _) => (Absent, Reading)
    case Receive(_, _) => (Reading, Read)
    case Close(_) => (Reading, Absent)
    case CountQueued(_) => (Read, Counted)
    case Append(_) => (Counted, InLine)
    case PopQueue(_) => (InLine, Off)
    case UncountQueued(_) => (Off, Uncounted)
    case CountExecuting(_) => (Uncounted, Running)
    case Reply(_) => (Running, Answered)
    case UncountExecuting(_) => (Answered, Finished)
    case Recycle(_) => (Finished, Spare)
    case PopFree(_) => (Spare, Reading)
    case _ => (Absent, Absent)
  }

  function PlaceBefore(e: Event): Place {
    if e.PopFree? then InFree else if e.PopQueue? then InQueue
    else if ListenerStep(e) then OfListener(e.t) else OfWorker(e.w)
  }

  /** What the invariants say about node `n` and about the node that the step moves. */
  predicate Ready(s: State, e: Event, n: Id)
    requires Enabled(s, e)
  {
    && (n in s.nodes && (s.nodes[n].place.OfListener? || s.nodes[n].place.OfWorker?) ==> In(s, n, s.nodes[n].place))
    && (Mover(s, e).Some? && !e.Accept? ==> Placed(s, Mover(s, e).value, PlaceBefore(e)))
  }

  lemma NodesReady(s: State, e: Event, n: Id)
    requires Enabled(s, e) && Nodes(s)
    ensures Ready(s, e, n)
  {
    hide Lists, Sockets;
  }

  predicate SameData(a: Node, b: Node) {
    a.socket == b.socket && a.txn == b.txn && a.request == b.request
  }

  /** Each step moves one node one stage on, and leaves the stage of all others. */
  lemma NewNode(s: State, e: Event, n: Id)
    requires Enabled(s, e) && e.Accept? && Mover(s, e) == Some(n)
    ensures StageOf(s, n) == Passage(e).0
  {
  }

  lemma MoverBefore(s: State, e: Event, n: Id)
    requires Enabled(s, e) && Ready(s, e, n) && !e.Accept? && Mover(s, e) == Some(n)
    ensures StageOf(s, n) == Passage(e).0
  {
  }

  lemma ListenerMoves(s: State, e: Event, n: Id)
    requires Enabled(s, e) && Ready(s, e, n) && ListenerStep(e) && !Apply(s, e).crashed && Mover(s, e) == Some(n)
    ensures StageOf(Apply(s, e), n) == Passage(e).1
  {
  }

  lemma ListenerLeaves(s: State, e: Event, n: Id)
    requires Enabled(s, e) && Ready(s, e, n) && ListenerStep(e) && !Apply(s, e).crashed && Mover(s, e) != Some(n)
    ensures StageOf(Apply(s, e), n) == StageOf(s, n)
  {
    hide Apply, Enabled, Ready, Mover;
    ListenerOtherPlaces(s, e, n);
    if n in s.nodes && s.nodes[n].place == OfListener(e.t) { ListenerAtRest(s, e, n); }
  }

  /** A listener's step changes that listener and the place of the node it moves, no other. */
  lemma ListenerOtherPlaces(s: State, e: Event, n: Id)
    requires Enabled(s, e) && ListenerStep(e) && !Apply(s, e).crashed && Mover(s, e) != Some(n)
    ensures Apply(s, e).workers == s.workers
    ensures forall t :: t != e.t ==> (t in Apply(s, e).listeners <==> t in s.listeners)
    ensures forall t :: t != e.t && t in s.listeners ==> Apply(s, e).listeners[t] == s.listeners[t]
    ensures n in Apply(s, e).nodes <==> n in s.nodes
    ensures n in s.nodes ==> Apply(s, e).nodes[n] == s.nodes[n]
  {
  }

  lemma ListenerAtRest(s: State, e: Event, n: Id)
    requires Enabled(s, e) && Ready(s, e, n) && ListenerStep(e) && n in s.nodes && s.nodes[n].place == OfListener(e.t)
    ensures Mover(s, e) == Some(n) || Apply(s, e) == s
  {
  }

  lemma WorkerMovesWhenRehousing(s: State, e: Event, n: Id)
    requires Enabled(s, e) && Ready(s, e, n) && !ListenerStep(e) && !Apply(s, e).crashed && Mover(s, e) == Some(n)
    requires Rehouses(e)
    ensures StageOf(Apply(s, e), n) == Passage(e).1
  {
  }

  lemma WorkerMovesInPlace(s: State, e: Event, n: Id)
    requires Enabled(s, e) && Ready(s, e, n) && !ListenerStep(e) && !Apply(s, e).crashed && Mover(s, e) == Some(n)
    requires !Rehouses(e)
    ensures StageOf(Apply(s, e), n) == Passage(e).1
  {
  }

  lemma WorkerMoves(s: State, e: Event, n: Id)
    requires Enabled(s, e) && Ready(s, e, n) && !ListenerStep(e) && !Apply(s, e).crashed && Mover(s, e) == Some(n)
    ensures StageOf(Apply(s, e), n) == Passage(e).1
  {
    hide Apply, Enabled, Mover, Ready;
    if Rehouses(e) { WorkerMovesWhenRehousing(s, e, n); } else { WorkerMovesInPlace(s, e, n); }
  }

  lemma WorkerLeaves(s: State, e: Event, n: Id)
    requires Enabled(s, e) && Ready(s, e, n) && !ListenerStep(e) && !Apply(s, e).crashed && Mover(s, e) != Some(n)
    ensures StageOf(Apply(s, e), n) == StageOf(s, n)
  {
    hide Apply, Enabled, Ready, Mover;
    WorkerOtherPlaces(s, e, n);
    if n in s.nodes && s.nodes[n].place == OfWorker(e.w) { WorkerAtRest(s, e, n); }
  }

  /** A worker's step changes that worker and the place of the node it moves, no other. */
  lemma WorkerOtherPlaces(s: State, e: Event, n: Id)
    requires Enabled(s, e) && !ListenerStep(e) && !Apply(s, e).crashed && Mover(s, e) != Some(n)
    ensures Apply(s, e).listeners == s.listeners
    ensures forall w :: w != e.w ==> (w in Apply(s, e).workers <==> w in s.workers)
    ensures forall w :: w != e.w && w in s.workers ==> Apply(s, e).workers[w] == s.workers[w]
    ensures n in Apply(s, e).nodes <==> n in s.nodes
    ensures n in s.nodes ==> Apply(s, e).nodes[n] == s.nodes[n]
  {
  }

  lemma WorkerAtRest(s: State, e: Event, n: Id)
    requires Enabled(s, e) && Ready(s, e, n) && !ListenerStep(e) && n in s.nodes && s.nodes[n].place == OfWorker(e.w)
    ensures Mover(s, e) == Some(n)
  {
  }

  lemma ListenerKeepsData(s: State, e: Event, n: Id)
    requires Enabled(s, e) && ListenerStep(e) && n in s.nodes && n in Apply(s, e).nodes
    requires !(e.Receive? && Mover(s, e) == Some(n))
    ensures SameData(s.nodes[n], Apply(s, e).nodes[n])
  {
  }

  lemma WorkerKeepsData(s: State, e: Event, n: Id)
    requires Enabled(s, e) && !ListenerStep(e) && n in s.nodes && n in Apply(s, e).nodes
    ensures SameData(s.nodes[n], Apply(s, e).nodes[n])
  {
  }

  lemma StepKeepsData(s: State, e: Event, n: Id)
    requires Enabled(s, e) && n in s.nodes && n in Apply(s, e).nodes && !(e.Receive? && Mover(s, e) == Some(n))
    ensures SameData(s.nodes[n], Apply(s, e).nodes[n])
  {
    hide Enabled, Apply, Mover;
    if ListenerStep(e) { ListenerKeepsData(s, e, n); } else { WorkerKeepsData(s, e, n); }
  }

  /** Both kinds of steps, from the invariants. */
  lemma StepMoves(s: State, e: Event, n: Id)
    requires Enabled(s, e) && Nodes(s) && !Apply(s, e).crashed
    ensures Mover(s, e) == Some(n) ==> StageOf(s, n) == Passage(e).0 && StageOf(Apply(s, e), n) == Passage(e).1
    ensures Mover(s, e) != Some(n) ==> StageOf(Apply(s, e), n) == StageOf(s, n)
    ensures n in Apply(s, e).nodes && Mover(s, e) != Some(n) ==> n in s.nodes
  {
    hide Nodes, Enabled, Ready, StageOf, Passage, In;
    NodesReady(s, e, n);
    if Mover(s, e) == Some(n) {
      if e.Accept? { NewNode(s, e, n); } else { MoverBefore(s, e, n); }
      if ListenerStep(e) { ListenerMoves(s, e, n); } else { WorkerMoves(s, e, n); }
    } else if ListenerStep(e) {
      ListenerLeaves(s, e, n);
    } else {
      WorkerLeaves(s, e, n);
    }
  }

  // ------------------------------------------------------------- the counters

  /** Between ++transaction_counter[REQ_QUEUED] and its --. */
  predicate CountsQueued(g: Stage) { g == Counted || g == InLine || g == Off }

  /** Between ++transaction_counter[REQ_EXECUTING] and its --. */
  predicate CountsExecuting(g: Stage) { g == Running || g == Answered }

  lemma OneMore(a: set<Id>, b: set<Id>, n: Id)
    requires n !in a && b == a + {n}
    ensures |b| == |a| + 1
  {
  }

  /** Nodes of one type within a window of stages. */
  ghost function Within(s: State, window: Stage -> bool, txn: nat): set<Id> {
    set n | n in s.nodes && window(StageOf(s, n)) && s.nodes[n].txn == txn
  }

  function One(b: bool): int { if b then 1 else 0 }

  /** The node that a step moves on is of type `txn`. */
  predicate Moves(s: State, e: Event, txn: nat)
    requires Enabled(s, e)
  {
    Mover(s, e).Some? && Mover(s, e).value in s.nodes && s.nodes[Mover(s, e).value].txn == txn
  }

  /** By how much a step changes the number of nodes within a window. */
  function Change(s: State, e: Event, window: Stage -> bool, txn: nat): int
    requires Enabled(s, e)
  {
    if Moves(s, e, txn) then One(window(Passage(e).1)) - One(window(Passage(e).0)) else 0
  }

  lemma PresentIf(s: State, n: Id)
    ensures n !in s.nodes ==> StageOf(s, n) == Absent
  {
  }

  lemma OthersStayWithin(s: State, e: Event, window: Stage -> bool, txn: nat, n: Id)
    requires Enabled(s, e) && Nodes(s) && !Apply(s, e).crashed && !window(Absent) && Mover(s, e) != Some(n)
    ensures n in Within(Apply(s, e), window, txn) <==> n in Within(s, window, txn)
  {
    hide Apply, Nodes, Enabled, StageOf, Passage, Mover;
    StepMoves(s, e, n);
    PresentIf(s, n);
    PresentIf(Apply(s, e), n);
    if n in s.nodes && n in Apply(s, e).nodes { StepKeepsData(s, e, n); }
  }

  lemma MoverWithin(s: State, e: Event, window: Stage -> bool, txn: nat, n: Id)
    requires Enabled(s, e) && Nodes(s) && !Apply(s, e).crashed && Mover(s, e) == Some(n)
    requires !window(Absent) && !window(Reading) && !window(Read)
    ensures n in Within(s, window, txn) <==> Moves(s, e, txn) && window(Passage(e).0)
    ensures n in Within(Apply(s, e), window, txn) <==> Moves(s, e, txn) && window(Passage(e).1)
  {
    hide Apply, Nodes, Enabled, StageOf, Mover;
    StepMoves(s, e, n);
    PresentIf(s, n);
    PresentIf(Apply(s, e), n);
    if n in s.nodes && n in Apply(s, e).nodes && !e.Receive? { StepKeepsData(s, e, n); }
  }

  /** A window gains or loses the one node that a step moves across its border. */
  lemma WindowChanges(s: State, e: Event, window: Stage -> bool, txn: nat)
    requires Enabled(s, e) && Nodes(s) && !Apply(s, e).crashed && !window(Absent) && !window(Reading) && !window(Read)
    ensures |Within(Apply(s, e), window, txn)| == |Within(s, window, txn)| + Change(s, e, window, txn)
  {
    hide Apply, Nodes, Enabled, Within, Passage, Mover;
    var a, b := Within(s, window, txn), Within(Apply(s, e), window, txn);
    forall n: Id | Mover(s, e) != Some(n)
      ensures n in a <==> n in b
    {
      OthersStayWithin(s, e, window, txn, n);
    }
    if Mover(s, e).Some? {
      var m := Mover(s, e).value;
      MoverWithin(s, e, window, txn, m);
      if m in a && m !in b {
        OneMore(b, a, m);
      } else if m in b && m !in a {
        OneMore(a, b, m);
      } else {
        assert a == b;
      }
    } else {
      assert a == b;
    }
  }

  /** Each counter is the number of nodes of its type between its ++ and its --. */
  ghost predicate Counters(s: State) {
    && (forall x :: 0 <= x < |s.queued| ==> s.queued[x] == |Within(s, CountsQueued, x)|)
    && (forall x :: 0 <= x < |s.executing| ==> s.executing[x] == |Within(s, CountsExecuting, x)|)
  }

  /** The counters change as the windows do. */
  lemma ListenerQueuedChange(s: State, e: Event, x: nat)
    requires Enabled(s, e) && ListenerStep(e) && Sane(s) && !Apply(s, e).crashed && x < TRANSACTIONS
    ensures |Apply(s, e).queued| == TRANSACTIONS
    ensures Apply(s, e).queued[x] == s.queued[x] + Change(s, e, CountsQueued, x)
  {
  }

  lemma ListenerExecutingChange(s: State, e: Event, x: nat)
    requires Enabled(s, e) && ListenerStep(e) && Sane(s) && !Apply(s, e).crashed && x < TRANSACTIONS
    ensures |Apply(s, e).executing| == TRANSACTIONS
    ensures Apply(s, e).executing[x] == s.executing[x] + Change(s, e, CountsExecuting, x)
  {
  }

  lemma WorkerQueuedChange(s: State, e: Event, x: nat)
    requires Enabled(s, e) && !ListenerStep(e) && Sane(s) && !Apply(s, e).crashed && x < TRANSACTIONS
    ensures |Apply(s, e).queued| == TRANSACTIONS
    ensures Apply(s, e).queued[x] == s.queued[x] + Change(s, e, CountsQueued, x)
  {
  }

  lemma WorkerExecutingChangeWhenRehousing(s: State, e: Event, x: nat)
    requires Enabled(s, e) && !ListenerStep(e) && Sane(s) && !Apply(s, e).crashed && x < TRANSACTIONS
    requires Rehouses(e)
    ensures |Apply(s, e).executing| == TRANSACTIONS
    ensures Apply(s, e).executing[x] == s.executing[x] + Change(s, e, CountsExecuting, x)
  {
  }

  lemma WorkerExecutingChangeInPlace(s: State, e: Event, x: nat)
    requires Enabled(s, e) && !ListenerStep(e) && Sane(s) && !Apply(s, e).crashed && x < TRANSACTIONS
    requires !Rehouses(e)
    ensures |Apply(s, e).executing| == TRANSACTIONS
    ensures Apply(s, e).executing[x] == s.executing[x] + Change(s, e, CountsExecuting, x)
  {
  }

  lemma WorkerExecutingChange(s: State, e: Event, x: nat)
    requires Enabled(s, e) && !ListenerStep(e) && Sane(s) && !Apply(s, e).crashed && x < TRANSACTIONS
    ensures |Apply(s, e).executing| == TRANSACTIONS
    ensures Apply(s, e).executing[x] == s.executing[x] + Change(s, e, CountsExecuting, x)
  {
    hide Apply, Enabled;
    if Rehouses(e) { WorkerExecutingChangeWhenRehousing(s, e, x); } else { WorkerExecutingChangeInPlace(s, e, x); }
  }

  lemma CountersChange(s: State, e: Event, x: nat)
    requires Enabled(s, e) && Sane(s) && !Apply(s, e).crashed && x < TRANSACTIONS
    ensures |Apply(s, e).queued| == |Apply(s, e).executing| == TRANSACTIONS
    ensures Apply(s, e).queued[x] == s.queued[x] + Change(s, e, CountsQueued, x)
    ensures Apply(s, e).executing[x] == s.executing[x] + Change(s, e, CountsExecuting, x)
  {
    hide Apply, Enabled, Change;
    if ListenerStep(e) {
      ListenerQueuedChange(s, e, x);
      ListenerExecutingChange(s, e, x);
    } else {
      WorkerQueuedChange(s, e, x);
      WorkerExecutingChange(s, e, x);
    }
  }

  lemma StepKeepsCounters(s: State, e: Event)
    requires Enabled(s, e) && Nodes(s) && !Apply(s, e).crashed && Counters(s)
    ensures Counters(Apply(s, e))
  {
    hide Apply, Enabled, Within, Change, CountsQueued, CountsExecuting;
    var r := Apply(s, e);
    CountersChange(s, e, 0);
    forall x: nat | x < TRANSACTIONS
      ensures r.queued[x] == |Within(r, CountsQueued, x)| && r.executing[x] == |Within(r, CountsExecuting, x)|
    {
      CountersChange(s, e, x);
      Windows();
      WindowChanges(s, e, CountsQueued, x);
      WindowChanges(s, e, CountsExecuting, x);
    }
  }

  lemma Windows()
    ensures !CountsQueued(Absent) && !CountsQueued(Reading) && !CountsQueued(Read)
    ensures !CountsExecuting(Absent) && !CountsExecuting(Reading) && !CountsExecuting(Read)
  {
  }

  // ------------------------------------------------------------- requests and answers

  predicate IsPending(g: Stage) {
    g == Read || g == Counted || g == InLine || g == Off || g == Uncounted || g == Running
  }

  /** Node `n` is on its way with request `q`. */
  predicate Carries(s: State, n: Id, q: nat) {
    n in s.nodes && IsPending(StageOf(s, n)) && s.nodes[n].request == q
  }

  ghost predicate IsAnswered(s: State, q: nat) {
    exists i :: 0 <= i < |s.answers| && s.answers[i].request == q
  }

  /** Request `q` was read from `socket` and asks for a transaction of type `txn`. */
  predicate CameFrom(s: State, q: nat, socket: Id, txn: nat) {
    q < |s.received| && s.received[q] == Request(socket, txn)
  }

  /** The same socket and transaction type. */
  predicate SameOrigin(a: Node, b: Node) { a.socket == b.socket && a.txn == b.txn }

  /** A node on its way still has to answer the socket it read from. */
  ghost predicate Owed(s: State) {
    forall n, q :: Carries(s, n, q) ==> CameFrom(s, q, s.nodes[n].socket, s.nodes[n].txn) && !IsAnswered(s, q)
  }

  ghost predicate OneCarrier(s: State) {
    forall m, n, q :: Carries(s, m, q) && Carries(s, n, q) ==> m == n
  }

  /** No request is lost. */
  ghost predicate NoneLost(s: State) {
    forall q :: 0 <= q < |s.received| ==> IsAnswered(s, q) || exists n :: Carries(s, n, q)
  }

  /** Every reply went to the socket its request came from, and no request was answered twice. */
  ghost predicate Replies(s: State) {
    && (forall i :: 0 <= i < |s.answers| ==> CameFrom(s, s.answers[i].request, s.answers[i].socket, s.answers[i].txn))
    && (forall i, j :: 0 <= i < j < |s.answers| ==> s.answers[i].request != s.answers[j].request)
  }

  ghost predicate Answers(s: State) { Owed(s) && OneCarrier(s) && NoneLost(s) && Replies(s) }

  lemma OthersCarry(s: State, e: Event, n: Id, q: nat)
    requires Enabled(s, e) && Nodes(s) && !Apply(s, e).crashed && Mover(s, e) != Some(n)
    ensures Carries(Apply(s, e), n, q) <==> Carries(s, n, q)
    ensures n in s.nodes && n in Apply(s, e).nodes ==> SameOrigin(Apply(s, e).nodes[n], s.nodes[n])
  {
    hide Apply, Nodes, Enabled, StageOf, Mover, Passage;
    StepMoves(s, e, n);
    PresentIf(s, n);
    PresentIf(Apply(s, e), n);
    if n in s.nodes && n in Apply(s, e).nodes { StepKeepsData(s, e, n); }
  }

  lemma MoverCarries(s: State, e: Event, n: Id, q: nat)
    requires Enabled(s, e) && Nodes(s) && !Apply(s, e).crashed && Mover(s, e) == Some(n) && !e.Receive?
    ensures Carries(Apply(s, e), n, q) <==> Carries(s, n, q) && !e.Reply?
    ensures n in s.nodes && n in Apply(s, e).nodes ==> SameOrigin(Apply(s, e).nodes[n], s.nodes[n])
  {
    hide Apply, Nodes, Enabled, StageOf, Mover;
    StepMoves(s, e, n);
    PresentIf(s, n);
    PresentIf(Apply(s, e), n);
    if n in s.nodes && n in Apply(s, e).nodes { StepKeepsData(s, e, n); }
  }

  lemma ReceiverCarries(s: State, e: Event, n: Id, q: nat)
    requires Enabled(s, e) && Nodes(s) && !Apply(s, e).crashed && Mover(s, e) == Some(n) && e.Receive?
    ensures n in s.nodes && n in Apply(s, e).nodes && Apply(s, e).nodes[n].socket == s.nodes[n].socket
    ensures Carries(Apply(s, e), n, q) <==> q == |s.received|
    ensures !Carries(s, n, q) && Apply(s, e).received == s.received + [Request(s.nodes[n].socket, e.txn)]
    ensures Apply(s, e).nodes[n].txn == e.txn
  {
    hide Nodes, StageOf;
    StepMoves(s, e, n);
    PresentIf(s, n);
  }

  lemma ListenerHistory(s: State, e: Event)
    requires Enabled(s, e) && ListenerStep(e)
    ensures !e.Receive? ==> Apply(s, e).received == s.received
    ensures Apply(s, e).answers == s.answers
  {
  }

  lemma WorkerHistory(s: State, e: Event)
    requires Enabled(s, e) && !ListenerStep(e)
    ensures Apply(s, e).received == s.received
    ensures !e.Reply? ==> Apply(s, e).answers == s.answers
  {
  }

  lemma HistoryChanges(s: State, e: Event)
    requires Enabled(s, e)
    ensures !e.Receive? ==> Apply(s, e).received == s.received
    ensures !e.Reply? ==> Apply(s, e).answers == s.answers
  {
    hide Apply, Enabled;
    if ListenerStep(e) { ListenerHistory(s, e); } else { WorkerHistory(s, e); }
  }

  /** All requests are carried on as before. */
  ghost predicate SameCarriers(s: State, r: State) {
    && s.received == r.received && s.answers == r.answers
    && (forall n, q :: Carries(r, n, q) <==> Carries(s, n, q))
    && (forall n :: n in s.nodes && n in r.nodes ==> SameOrigin(r.nodes[n], s.nodes[n]))
  }

  lemma StepCarriesOn(s: State, e: Event)
    requires Enabled(s, e) && Nodes(s) && !Apply(s, e).crashed && !e.Receive? && !e.Reply?
    ensures SameCarriers(s, Apply(s, e))
  {
    hide Apply, Nodes, Enabled, StageOf, Mover, Carries;
    var r := Apply(s, e);
    HistoryChanges(s, e);
    forall n, q: nat
      ensures Carries(r, n, q) <==> Carries(s, n, q)
      ensures n in s.nodes && n in r.nodes ==> SameOrigin(r.nodes[n], s.nodes[n])
    {
      if Mover(s, e) == Some(n) { MoverCarries(s, e, n, q); } else { OthersCarry(s, e, n, q); }
    }
    forall n | n in s.nodes && n in r.nodes
      ensures SameOrigin(r.nodes[n], s.nodes[n])
    {
      assert Carries(r, n, 0) <==> Carries(s, n, 0);
    }
  }

  lemma SameCarriersKeep(s: State, r: State)
    requires SameCarriers(s, r) && Answers(s)
    ensures Answers(r)
  {
    hide StageOf;
    assert forall q :: IsAnswered(s, q) <==> IsAnswered(r, q);
  }

  /** A new request: the next number, carried by the node that read it. */
  ghost predicate ReadBy(s: State, r: State, m: Id) {
    && m in r.nodes && r.received == s.received + [Request(r.nodes[m].socket, r.nodes[m].txn)] && s.answers == r.answers
    && (forall n, q :: Carries(r, n, q) <==> if n == m then q == |s.received| else Carries(s, n, q))
    && (forall q :: !Carries(s, m, q))
    && (forall n :: n != m && n in s.nodes && n in r.nodes ==> SameOrigin(r.nodes[n], s.nodes[n]))
  }

  /** The carried request leaves with its answer. */
  ghost predicate AnsweredBy(s: State, r: State, m: Id) {
    && m in s.nodes && r.received == s.received
    && r.answers == s.answers + [Answer(s.nodes[m].socket, s.nodes[m].txn, s.nodes[m].request)]
    && (forall n, q :: Carries(r, n, q) <==> n != m && Carries(s, n, q))
    && Carries(s, m, s.nodes[m].request)
    && (forall n :: n in s.nodes && n in r.nodes ==> SameOrigin(r.nodes[n], s.nodes[n]))
  }

  lemma HasMover(s: State, e: Event)
    requires Enabled(s, e) && Nodes(s) && (e.Receive? || e.Reply?)
    ensures Mover(s, e).Some? && Mover(s, e).value in s.nodes
  {
    hide Found, Lists, Sockets;
  }

  lemma ReceiveReads(s: State, e: Event)
    requires Enabled(s, e) && Nodes(s) && !Apply(s, e).crashed && e.Receive?
    ensures Mover(s, e).Some? && ReadBy(s, Apply(s, e), Mover(s, e).value)
  {
    hide Apply, Nodes, Enabled, StageOf, Carries, Mover;
    HasMover(s, e);
    var r, m := Apply(s, e), Mover(s, e).value;
    HistoryChanges(s, e);
    ReceiverCarries(s, e, m, |s.received|);
    forall n, q: nat
      ensures Carries(r, n, q) <==> if n == m then q == |s.received| else Carries(s, n, q)
      ensures n == m ==> !Carries(s, n, q)
    {
      if n == m { ReceiverCarries(s, e, n, q); } else { OthersCarry(s, e, n, q); }
    }
    forall n | n != m && n in s.nodes && n in r.nodes
      ensures SameOrigin(r.nodes[n], s.nodes[n])
    {
      OthersCarry(s, e, n, 0);
    }
  }

  lemma ReplyAnswers(s: State, e: Event)
    requires Enabled(s, e) && Nodes(s) && !Apply(s, e).crashed && e.Reply?
    ensures Mover(s, e).Some? && AnsweredBy(s, Apply(s, e), Mover(s, e).value)
  {
    HasMover(s, e);
    StepMoves(s, e, Mover(s, e).value);
    ReplyIs(s, e, Mover(s, e).value);
    hide Apply, Nodes, Enabled, StageOf, Mover;
    var r, m := Apply(s, e), Mover(s, e).value;
    HistoryChanges(s, e);
    forall n, q: nat
      ensures Carries(r, n, q) <==> n != m && Carries(s, n, q)
    {
      if n == m { MoverCarries(s, e, n, q); } else { OthersCarry(s, e, n, q); }
    }
    forall n | n in s.nodes && n in r.nodes
      ensures SameOrigin(r.nodes[n], s.nodes[n])
    {
      if n == m { MoverCarries(s, e, n, 0); } else { OthersCarry(s, e, n, 0); }
    }
  }

  lemma ReplyIs(s: State, e: Event, m: Id)
    requires Enabled(s, e) && e.Reply? && Mover(s, e) == Some(m) && m in s.nodes && !Apply(s, e).crashed
    ensures Apply(s, e).answers == s.answers + [Answer(s.nodes[m].socket, s.nodes[m].txn, s.nodes[m].request)]
  {
  }

  lemma NotYetAnswered(s: State)
    requires Replies(s)
    ensures !IsAnswered(s, |s.received|)
  {
  }

  lemma ReadingKeepsAnswers(s: State, r: State, m: Id)
    requires ReadBy(s, r, m) && Answers(s)
    ensures Answers(r)
  {
    hide StageOf;
    NotYetAnswered(s);
    assert forall q :: IsAnswered(s, q) <==> IsAnswered(r, q);
    assert Carries(r, m, |s.received|);
    forall q | 0 <= q < |r.received| && !IsAnswered(r, q)
      ensures exists n :: Carries(r, n, q)
    {
      if q < |s.received| {
        var n :| Carries(s, n, q);
        assert Carries(r, n, q);
      }
    }
  }

  lemma AnsweringKeepsAnswers(s: State, r: State, m: Id)
    requires AnsweredBy(s, r, m) && Answers(s)
    ensures Answers(r)
  {
    hide StageOf;
    var a := s.nodes[m].request;
    forall q
      ensures IsAnswered(r, q) <==> IsAnswered(s, q) || q == a
    {
      if q == a { assert r.answers[|s.answers|].request == q; }
      if IsAnswered(s, q) {
        var i :| 0 <= i < |s.answers| && s.answers[i].request == q;
        assert r.answers[i].request == q;
      }
    }
    forall q | 0 <= q < |r.received| && !IsAnswered(r, q)
      ensures exists n :: Carries(r, n, q)
    {
      var n :| Carries(s, n, q);
      assert Carries(r, n, q);
    }
    assert CameFrom(s, a, s.nodes[m].socket, s.nodes[m].txn) && !IsAnswered(s, a);
  }

  lemma StepKeepsAnswers(s: State, e: Event)
    requires Enabled(s, e) && Nodes(s) && !Apply(s, e).crashed && Answers(s)
    ensures Answers(Apply(s, e))
  {
    hide Apply, Nodes, Enabled, Answers, ReadBy, AnsweredBy, SameCarriers, Mover;
    if e.Receive? {
      ReceiveReads(s, e);
      ReadingKeepsAnswers(s, Apply(s, e), Mover(s, e).value);
    } else if e.Reply? {
      ReplyAnswers(s, e);
      AnsweringKeepsAnswers(s, Apply(s, e), Mover(s, e).value);
    } else {
      StepCarriesOn(s, e);
      SameCarriersKeep(s, Apply(s, e));
    }
  }

  // ------------------------------------------------------------- every reachable state

  ghost predicate Invariant(s: State) {
    Nodes(s) && Counts(s) && Ids(s) && Spares(s) && Counters(s) && Answers(s)
  }

  lemma StartCounts(workers: set<Id>)
    ensures Counts(Start(workers))
  {
    var s := Start(workers);
    TotalZero(s.workers, IsBusy);
    TotalZero(s.workers, Takes);
    assert s.listeners == map[];
    TotalZero(s.listeners, Waits);
    TotalZero(s.listeners, Pops);
  }

  lemma StartCounters(workers: set<Id>)
    ensures Counters(Start(workers))
  {
    var s := Start(workers);
    forall x | 0 <= x < TRANSACTIONS
      ensures Within(s, CountsQueued, x) == {} && Within(s, CountsExecuting, x) == {}
    {
    }
  }

  lemma StartHolds(workers: set<Id>)
    ensures Invariant(Start(workers))
  {
    hide Counts, Counters;
    StartCounts(workers);
    StartCounters(workers);
  }

  lemma StepKeepsNodes(s: State, e: Event)
    requires Enabled(s, e) && Nodes(s) && Semaphores(s)
    ensures Nodes(Apply(s, e))
  {
    hide Apply, Enabled, Semaphores, ListenersHold, WorkersHold, QueueHolds, FreeHolds, FoundWithThreads,
         FoundInLists, Lists, Sockets, Sane;
    if ListenerStep(e) {
      ListenerKeepsListenersHold(s, e);
      ListenerKeepsWorkersHold(s, e);
      ListenerKeepsQueueHolds(s, e);
      ListenerKeepsFreeHolds(s, e);
      ListenerKeepsFoundWithThreads(s, e);
      ListenerKeepsFoundInLists(s, e);
      ListenerKeepsLists(s, e);
      ListenerKeepsSockets(s, e);
      ListenerKeepsSane(s, e);
    } else {
      WorkerKeepsListenersHold(s, e);
      WorkerKeepsWorkersHold(s, e);
      WorkerKeepsQueueHolds(s, e);
      WorkerKeepsFreeHolds(s, e);
      WorkerKeepsFoundWithThreads(s, e);
      WorkerKeepsFoundInLists(s, e);
      WorkerKeepsLists(s, e);
      WorkerKeepsSockets(s, e);
      WorkerKeepsSane(s, e);
    }
  }

  lemma StepKeepsCounts(s: State, e: Event)
    requires Enabled(s, e) && Nodes(s) && Counts(s)
    ensures Counts(Apply(s, e))
  {
    hide Apply, Enabled, Nodes, Flow, Semaphores, QueueLocks, FreeLocks;
    if ListenerStep(e) {
      ListenerKeepsCounts(s, e);
      ListenerKeepsQueueLocks(s, e);
      ListenerKeepsFreeLocks(s, e);
    } else {
      WorkerKeepsCounts(s, e);
      WorkerKeepsQueueLocks(s, e);
      WorkerKeepsFreeLocks(s, e);
    }
  }

  lemma NotCrashed(s: State)
    requires Nodes(s)
    ensures !s.crashed
  {
  }

  /** Every step of every thread keeps the invariant, whatever the interleaving. */
  lemma StepKeepsInvariant(s: State, e: Event)
    requires Enabled(s, e) && Invariant(s)
    ensures Invariant(Apply(s, e))
  {
    hide Apply, Enabled, Nodes, Flow, Semaphores, Locks, Ids, Spares, Counters, Answers;
    StepKeepsNodes(s, e);
    NotCrashed(Apply(s, e));
    StepKeepsCounts(s, e);
    StepKeepsCounters(s, e);
    StepKeepsAnswers(s, e);
    if ListenerStep(e) {
      ListenerKeepsIds(s, e);
      ListenerKeepsSpares(s, e);
    } else {
      WorkerKeepsIds(s, e);
      WorkerKeepsSpares(s, e);
    }
  }

  lemma {:induction false} RunKeepsInvariant(s: State, events: seq<Event>, r: State)
    requires Invariant(s) && After(s, events) == Some(r)
    ensures Invariant(r)
  {
    hide Apply, Enabled, Invariant;
    if |events| > 0 {
      var mid := After(s, events[..|events| - 1]).value;
      RunKeepsInvariant(s, events[..|events| - 1], mid);
      StepKeepsInvariant(mid, events[|events| - 1]);
    }
  }

  ghost predicate Reachable(s: State) {
    exists workers: set<Id>, events :: After(Start(workers), events) == Some(s)
  }

  lemma ReachableHolds(s: State)
    requires Reachable(s)
    ensures Invariant(s)
  {
    hide Apply, Enabled, Invariant, After, Start;
    var workers: set<Id>, events :| After(Start(workers), events) == Some(s);
    StartHolds(workers);
    RunKeepsInvariant(Start(workers), events, s);
  }

  /** Every live node is in exactly one place, once, and nothing else is anywhere. */
  lemma OnePlace(s: State, n: Id, p: Place)
    requires Reachable(s)
    ensures In(s, n, p) <==> n in s.nodes && p == s.nodes[n].place
    ensures Distinct(s.queue) && Distinct(s.free)
  {
    ReachableHolds(s);
    hide Reachable, Counts, Ids, Counters, Answers, Sockets, Sane;
  }

  /** The "list is empty" branches are never taken and no freed node is followed. */
  lemma EmptyBranchesUnreachable(s: State, t: Id, w: Id)
    requires Reachable(s)
    ensures !s.crashed
    ensures Enabled(s, PopFree(t)) ==> s.free != []
    ensures Enabled(s, PopQueue(w)) ==> s.queue != []
  {
    ReachableHolds(s);
    NotCrashed(s);
    hide Reachable, Nodes, Flow, Ids, Spares, Counters, Answers;
    if Enabled(s, PopFree(t)) { PoppersFind(s, t); }
    if Enabled(s, PopQueue(w)) { TakersFind(s, w); }
  }

  /** While one thread has a list's lock no other appends to the list or takes from it. */
  lemma ListsAreLocked(s: State, t: Id, w: Id, e: Event)
    requires Reachable(s) && Enabled(s, e)
    ensures t in s.listeners && s.listeners[t].Posting? ==> !e.Append? && !e.PopQueue? && (e.PostQueue? ==> e.t == t)
    ensures w in s.workers && s.workers[w].Freeing? ==> !e.Recycle? && !e.PopFree? && (e.PostFree? ==> e.w == w)
  {
    ReachableHolds(s);
    hide Reachable, Nodes, Flow, Semaphores, Ids, Spares, Counters, Answers;
  }

  /** No counter is ever negative. */
  lemma CountersNonNegative(s: State, x: nat)
    requires Reachable(s) && x < TRANSACTIONS
    ensures |s.queued| == |s.executing| == TRANSACTIONS && s.queued[x] >= 0 && s.executing[x] >= 0
  {
    ReachableHolds(s);
    hide Reachable, Counts, Ids, Answers, Sockets, Within;
  }

  /** Listeners without a node = nodes queued, with a worker, or free; and each list is its semaphore, the threads
      past its wait and an append not yet posted. */
  lemma WaitersAreOutstanding(s: State)
    requires Reachable(s)
    ensures Total(s.listeners, Waits) == |s.queue| + Total(s.workers, IsBusy) + |s.free|
    ensures s.queueLength + Total(s.workers, Takes) + Locked(s.queueLock) == |s.queue|
    ensures s.freeCount + Total(s.listeners, Pops) + Locked(s.freeLock) == |s.free|
  {
    ReachableHolds(s);
    hide Reachable, Nodes, Ids, Counters, Answers, Total;
  }

  /** Nodes leave the queue with ids 1, 2, 3, ..., and those in it carry the next ids in order. */
  lemma FirstInFirstOut(s: State, i: nat)
    requires Reachable(s)
    ensures i < |s.dequeued| ==> s.dequeued[i] == i + 1
    ensures i < |s.queue| ==> s.queue[i] in s.nodes && s.nodes[s.queue[i]].id == |s.dequeued| + 1 + i
    ensures s.transactionId == |s.dequeued| + |s.queue|
  {
    ReachableHolds(s);
    hide Reachable, Counts, Counters, Answers, Found, Lists, Sockets;
  }

  /** The nodes on the free list are those put there last: the ones before them have been taken, in that order. */
  lemma SparesInOrder(s: State)
    requires Reachable(s)
    ensures |s.reused| + |s.free| == |s.recycled|
    ensures s.reused == s.recycled[..|s.reused|] && s.free == s.recycled[|s.reused|..]
  {
    ReachableHolds(s);
    hide Reachable, Nodes, Counts, Ids, Counters, Answers;
  }

  /** Every reply went to the socket its request came from, after a transaction of the type requested, no request
      is answered twice, and none is lost. */
  lemma RepliesGoHome(s: State, i: nat, j: nat, q: nat)
    requires Reachable(s)
    ensures i < |s.answers| ==>
      s.answers[i].request < |s.received|
      && s.received[s.answers[i].request] == Request(s.answers[i].socket, s.answers[i].txn)
    ensures i < j < |s.answers| ==> s.answers[i].request != s.answers[j].request
    ensures q < |s.received| ==> IsAnswered(s, q) || exists n :: Carries(s, n, q)
  {
    ReachableHolds(s);
    hide Reachable, Nodes, Counts, Ids, Counters;
  }

  /** No two live nodes share a socket. */
  lemma OneNodePerSocket(s: State, m: Id, n: Id)
    requires Reachable(s) && m in s.nodes && n in s.nodes && s.nodes[m].socket == s.nodes[n].socket
    ensures m == n
  {
    ReachableHolds(s);
    hide Reachable, Counts, Ids, Counters, Answers;
  }
}
