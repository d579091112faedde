/** Nobody waits in vain: the steps still to be taken can be counted, and while any is left one is possible. */
module ClientProgress {
  import opened Common
  import opened FiniteSums
  import opened ClientProtocol
  import opened ClientInvariants

  /** A step that needs no terminal: neither a connection, nor a request, nor a closed socket. */
  predicate Internal(e: Event) { !e.Accept? && !e.Receive? && !e.ReceiveFails? && !e.Close? }

  /** Steps a listener still has to see done before it reads again: its own, and the worker's for a request
      it has not handed over. */
  function ListenerWork(l: Listener): int {
    match l
    case Receiving(_) => 0
    case Received(_) => 13
    case Appending(_) => 12
    case Posting => 11
    case Waiting => 2
    case Popping => 1
  }

  function WorkerWork(w: Worker): int {
    match w
    case Idle => 0
    case Taking => 7
    case Taken(_) => 6
    case Shifting(_) => 5
    case Executing(_) => 4
    case Replied(_) => 3
    case Recycling(_) => 2
    case Freeing => 1
  }

  /** All steps left; a posted request that no worker has waited for needs eight of a worker. */
  ghost function StepsLeft(s: State): int {
    Total(s.listeners, ListenerWork) + Total(s.workers, WorkerWork) + 8 * s.queueLength
  }

  lemma ListenerStepCounts(s: State, e: Event)
    requires Enabled(s, e) && Internal(e) && ListenerStep(e) && !Apply(s, e).crashed
    ensures StepsLeft(Apply(s, e)) == StepsLeft(s) - 1
  {
    hide Total;
    ListenerWeights(s, e, ListenerWork);
  }

  lemma WorkerStepCounts(s: State, e: Event)
    requires Enabled(s, e) && Internal(e) && !ListenerStep(e) && !Apply(s, e).crashed
    requires e.PopQueue? ==> s.queue != []
    ensures StepsLeft(Apply(s, e)) == StepsLeft(s) - 1
  {
    hide Total;
    WorkerWeights(s, e, WorkerWork);
  }

  /** Every internal step, by any thread, brings the end one step nearer. */
  lemma StepCounts(s: State, e: Event)
    requires Invariant(s) && Enabled(s, e) && Internal(e)
    ensures StepsLeft(Apply(s, e)) == StepsLeft(s) - 1
  {
    hide Apply, Ids, Counters, Answers, StepsLeft, Flow, Locks, Found;
    StepKeepsInvariant(s, e);
    NotCrashed(Apply(s, e));
    if e.PopQueue? { TakersFind(s, e.w); }
    if ListenerStep(e) { ListenerStepCounts(s, e); } else { WorkerStepCounts(s, e); }
  }

  lemma NonNegativeWork(s: State)
    ensures StepsLeft(s) >= 0
  {
    SumNonNegative(s.listeners.Keys, Weight(s.listeners, ListenerWork));
    SumNonNegative(s.workers.Keys, Weight(s.workers, WorkerWork));
  }

  // ------------------------------------------------------------- while work is left, a step is possible

  ghost predicate CanStep(s: State) {
    exists e :: Enabled(s, e) && Internal(e)
  }

  lemma Possible(s: State, e: Event)
    requires Enabled(s, e) && Internal(e)
    ensures CanStep(s)
  {
  }

  lemma QueueLockMoves(s: State)
    requires Locks(s) && !s.crashed && s.queueLock.Some?
    ensures CanStep(s)
  {
    Possible(s, PostQueue(s.queueLock.value));
  }

  lemma FreeLockMoves(s: State)
    requires Locks(s) && !s.crashed && s.freeLock.Some?
    ensures CanStep(s)
  {
    Possible(s, PostFree(s.freeLock.value));
  }

  /** A worker that is not idle can go on, or the holder of the lock it needs can. */
  lemma WorkerMoves(s: State, w: Id)
    requires Locks(s) && !s.crashed && w in s.workers && !s.workers[w].Idle?
    ensures CanStep(s)
  {
    if s.queueLock.Some? {
      QueueLockMoves(s);
    } else if s.freeLock.Some? {
      FreeLockMoves(s);
    } else {
      match s.workers[w]
      case Taking => Possible(s, PopQueue(w));
      case Taken(_) => Possible(s, UncountQueued(w));
      case Shifting(_) => Possible(s, CountExecuting(w));
      case Executing(_) => Possible(s, Reply(w));
      case Replied(_) => Possible(s, UncountExecuting(w));
      case Recycling(_) => Possible(s, Recycle(w));
      case Freeing => Possible(s, PostFree(w));
    }
  }

  /** A listener that neither reads nor waits can go on, or the holder of the lock it needs can. */
  lemma ListenerMovesOn(s: State, t: Id)
    requires Locks(s) && !s.crashed && t in s.listeners && !s.listeners[t].Receiving? && !s.listeners[t].Waiting?
    ensures CanStep(s)
  {
    if s.queueLock.Some? {
      QueueLockMoves(s);
    } else if s.freeLock.Some? {
      FreeLockMoves(s);
    } else {
      match s.listeners[t]
      case Received(_) => Possible(s, CountQueued(t));
      case Appending(_) => Possible(s, Append(t));
      case Posting => Possible(s, PostQueue(t));
      case Popping => Possible(s, PopFree(t));
    }
  }

  /** Nothing can move but the terminals. */
  ghost predicate Quiet(s: State) {
    && (forall t :: t in s.listeners ==> s.listeners[t].Receiving?)
    && (forall w :: w in s.workers ==> s.workers[w].Idle?)
    && s.queueLength == 0
  }

  /** With at least one worker, a state in which no step is possible is quiet: no listener waits. */
  lemma StuckIsQuiet(s: State)
    requires Invariant(s) && s.workers != map[] && !CanStep(s)
    ensures Quiet(s)
  {
    hide Ids, Counters, Answers, CanStep, Total;
    NotCrashed(s);
    forall w | w in s.workers
      ensures s.workers[w].Idle?
    {
      if !s.workers[w].Idle? { WorkerMoves(s, w); }
    }
    TotalZero(s.workers, IsBusy);
    TotalZero(s.workers, Takes);
    forall t | t in s.listeners
      ensures s.listeners[t].Receiving? || s.listeners[t].Waiting?
    {
      if !s.listeners[t].Receiving? && !s.listeners[t].Waiting? { ListenerMovesOn(s, t); }
    }
    TotalZero(s.listeners, Pops);
    var w :| w in s.workers;
    if s.queueLength > 0 { Possible(s, WaitQueue(w)); }
    forall t | t in s.listeners
      ensures s.listeners[t].Receiving?
    {
      if s.listeners[t].Waiting? {
        if s.freeCount > 0 { Possible(s, WaitFree(t)); }
        TotalAtLeast(s.listeners, Waits, t);
      }
    }
  }

  lemma NobodyCarries(s: State, n: Id, q: nat)
    requires Found(s) && Quiet(s) && s.queue == []
    ensures !Carries(s, n, q)
  {
  }

  lemma QuietMeansDone(s: State)
    requires Invariant(s) && Quiet(s)
    ensures StepsLeft(s) == 0
    ensures forall q :: 0 <= q < |s.received| ==> IsAnswered(s, q)
  {
    hide Total, Ids, Counters, Found, Carries;
    TotalZero(s.listeners, ListenerWork);
    TotalZero(s.workers, WorkerWork);
    TotalZero(s.workers, Takes);
    assert s.queue == [];
    forall n, q: nat
      ensures !Carries(s, n, q)
    {
      NobodyCarries(s, n, q);
    }
  }

  // ------------------------------------------------------------- all runs come to rest

  lemma {:induction false} RunCounts(s: State, events: seq<Event>, r: State)
    requires Invariant(s) && After(s, events) == Some(r) && forall i :: 0 <= i < |events| ==> Internal(events[i])
    ensures Invariant(r) && StepsLeft(r) == StepsLeft(s) - |events|
  {
    hide Apply, Enabled, Invariant, StepsLeft;
    if |events| > 0 {
      var front := events[..|events| - 1];
      var mid := After(s, front).value;
      RunCounts(s, front, mid);
      StepKeepsInvariant(mid, events[|events| - 1]);
      StepCounts(mid, events[|events| - 1]);
    }
  }

  /** From any reachable state, and however the threads are scheduled: without new input the client takes at most
      StepsLeft more steps; when it can take no more it has taken exactly that many, every listener is back at its
      socket and every request has been answered. */
  lemma EveryRequestAnswered(s: State, events: seq<Event>, r: State)
    requires Reachable(s) && s.workers != map[]
    requires After(s, events) == Some(r) && forall i :: 0 <= i < |events| ==> Internal(events[i])
    ensures |events| <= StepsLeft(s)
    ensures !CanStep(r) <==> |events| == StepsLeft(s)
    ensures !CanStep(r) ==> Quiet(r) && forall q :: 0 <= q < |r.received| ==> IsAnswered(r, q)
  {
    hide Apply, Enabled, Invariant, StepsLeft, Quiet, CanStep, Reachable;
    ReachableHolds(s);
    RunCounts(s, events, r);
    NonNegativeWork(r);
    WorkersStay(s, events, r);
    if !CanStep(r) {
      StuckIsQuiet(r);
      QuietMeansDone(r);
    } else {
      WorkIsLeft(r);
    }
  }

  lemma WorkIsLeft(s: State)
    requires Invariant(s) && CanStep(s)
    ensures StepsLeft(s) > 0
  {
    hide Apply, Enabled, Invariant, StepsLeft;
    var e :| Enabled(s, e) && Internal(e);
    StepCounts(s, e);
    NonNegativeWork(Apply(s, e));
  }

  lemma {:induction false} WorkersStay(s: State, events: seq<Event>, r: State)
    requires After(s, events) == Some(r)
    ensures r.workers.Keys == s.workers.Keys
  {
    if |events| > 0 {
      hide Apply, Enabled;
      var mid := After(s, events[..|events| - 1]).value;
      WorkersStay(s, events[..|events| - 1], mid);
      WorkersStayInStep(mid, events[|events| - 1]);
    }
  }

  lemma WorkersStayInStep(s: State, e: Event)
    requires Enabled(s, e)
    ensures Apply(s, e).workers.Keys == s.workers.Keys
  {
    hide Apply, Enabled;
    if ListenerStep(e) { ListenersLeaveWorkers(s, e); } else { WorkersKeepWorkers(s, e); }
  }

  lemma ListenersLeaveWorkers(s: State, e: Event)
    requires Enabled(s, e) && ListenerStep(e)
    ensures Apply(s, e).workers == s.workers
  {
  }

  lemma WorkersKeepWorkers(s: State, e: Event)
    requires Enabled(s, e) && !ListenerStep(e)
    ensures Apply(s, e).workers.Keys == s.workers.Keys
  {
  }
}
