/** The fallback semaphore built from a mutex and a condition variable (src/_semaphore.c). Each section under the
    mutex is one step; sem_post and sem_post_multiple signal after they have released it. */
module SemaphoreMonitor {
  import opened Common

  type Thread = nat

  datatype State = State(
    count: nat,
    sleeping: set<Thread>,  // in pthread_cond_wait
    woken: set<Thread>,     // left it, not yet back under the mutex
    signals: nat,           // posted, pthread_cond_signal still to come
    broadcasts: nat,        // posted, pthread_cond_broadcast still to come
    posted: nat,
    taken: nat)             // successful waits

  datatype Event =
    | Wait(t: Thread)             // sem_wait takes the mutex
    | Recheck(t: Thread)          // a woken thread has the mutex again
    | Spurious(t: Thread)         // pthread_cond_wait returns for no reason
    | TryWait
    | Post
    | Signal(who: set<Thread>)    // at least one sleeper is woken, if there is one
    | PostMultiple(n: nat)
    | Broadcast

  function Start(count: nat): State { State(count, {}, {}, 0, 0, 0, 0) }

  predicate Enabled(s: State, e: Event) {
    match e
    case Wait(t) => t !in s.sleeping && t !in s.woken
    case Recheck(t) => t in s.woken
    case Spurious(t) => t in s.sleeping
    case TryWait => true
    case Post => true
    case Signal(who) => s.signals > 0 && who <= s.sleeping && (s.sleeping != {} ==> who != {})
    case PostMultiple(n) => true
    case Broadcast => s.broadcasts > 0
  }

  /** Take one, or sleep: the body of sem_wait. */
  function Take(s: State, t: Thread): State {
    if s.count == 0 then s.(sleeping := s.sleeping + {t}) else s.(count := s.count - 1, taken := s.taken + 1)
  }

  function Apply(s: State, e: Event): State
    requires Enabled(s, e)
  {
    match e
    case Wait(t) => Take(s, t)
    case Recheck(t) => Take(s.(woken := s.woken - {t}), t)
    case Spurious(t) => s.(sleeping := s.sleeping - {t}, woken := s.woken + {t})
    case TryWait => if s.count == 0 then s else s.(count := s.count - 1, taken := s.taken + 1)
    case Post => s.(count := s.count + 1, signals := s.signals + 1, posted := s.posted + 1)
    case Signal(who) => s.(signals := s.signals - 1, sleeping := s.sleeping - who, woken := s.woken + who)
    case PostMultiple(n) => s.(count := s.count + n, broadcasts := s.broadcasts + 1, posted := s.posted + n)
    case Broadcast => s.(broadcasts := s.broadcasts - 1, sleeping := {}, woken := s.woken + s.sleeping)
  }

  function After(s: State, events: seq<Event>): Option<State> {
    if |events| == 0 then Some(s)
    else
      match After(s, events[..|events| - 1])
      case None => None
      case Some(mid) => if Enabled(mid, events[|events| - 1]) then Some(Apply(mid, events[|events| - 1])) else None
  }

  /** No wakeup is lost: while somebody sleeps, a broadcast is on its way, or everything there is to take is
      covered by threads that were woken and signals that are on their way. */
  predicate Covered(s: State) {
    s.sleeping == {} || s.broadcasts > 0 || s.count <= |s.woken| + s.signals
  }

  predicate Invariant(s: State, initial: nat) {
    s.sleeping !! s.woken && Covered(s) && s.count == initial + s.posted - s.taken
  }

  lemma Moves(from: set<Thread>, to: set<Thread>, who: set<Thread>)
    requires who <= from && from !! to
    ensures |to + who| == |to| + |who| && (who != {} ==> |who| >= 1)
  {
  }

  lemma StepKeepsInvariant(s: State, e: Event, initial: nat)
    requires Enabled(s, e) && Invariant(s, initial)
    ensures Invariant(Apply(s, e), initial)
  {
    match e
    case Signal(who) => Moves(s.sleeping, s.woken, who);
    case Spurious(t) => Moves(s.sleeping, s.woken, {t});
    case Recheck(t) => assert s.woken == (s.woken - {t}) + {t};
    case _ =>
  }

  lemma {:induction false} RunKeepsInvariant(initial: nat, events: seq<Event>, r: State)
    requires After(Start(initial), events) == Some(r)
    ensures Invariant(r, initial)
  {
    if |events| > 0 {
      var mid := After(Start(initial), events[..|events| - 1]).value;
      RunKeepsInvariant(initial, events[..|events| - 1], mid);
      StepKeepsInvariant(mid, events[|events| - 1], initial);
    }
  }

  /** Whenever the woken threads have run and all signals are out, nobody sleeps beside a positive count. */
  lemma NobodyOversleeps(initial: nat, events: seq<Event>, r: State)
    requires After(Start(initial), events) == Some(r)
    ensures r.woken == {} && r.signals == 0 && r.broadcasts == 0 ==> r.sleeping == {} || r.count == 0
    ensures r.count == initial + r.posted - r.taken
  {
    RunKeepsInvariant(initial, events, r);
  }

  /** How much a step posts. */
  function Posts(e: Event): nat {
    match e
    case Post => 1
    case PostMultiple(n) => n
    case _ => 0
  }

  function AllPosts(events: seq<Event>): nat {
    if |events| == 0 then 0 else AllPosts(events[..|events| - 1]) + Posts(events[|events| - 1])
  }

  /** How many waits got through: those that found something to take, at once or after they were woken. */
  function AllTaken(s: State, events: seq<Event>): nat
    requires After(s, events).Some?
  {
    if |events| == 0 then 0
    else
      var e, mid := events[|events| - 1], After(s, events[..|events| - 1]).value;
      AllTaken(s, events[..|events| - 1])
      + if (e.Wait? || e.Recheck? || e.TryWait?) && mid.count > 0 then 1 else 0
  }

  /** The count is what was there and what was posted, less one for every wait that got through. */
  lemma {:induction false} CountBalances(s: State, events: seq<Event>)
    requires After(s, events).Some?
    ensures After(s, events).value.count == s.count + AllPosts(events) - AllTaken(s, events)
  {
    if |events| > 0 { CountBalances(s, events[..|events| - 1]); }
  }

  /** The semaphore itself: `count` is real, the threads around it are ghosts. */
  class Semaphore {
    var count: nat
    ghost var sleeping: set<Thread>
    ghost var woken: set<Thread>
    ghost var signals: nat
    ghost var broadcasts: nat
    ghost var posted: nat
    ghost var taken: nat
    ghost const initial: nat

    ghost function Now(): State
      reads this
    {
      State(count, sleeping, woken, signals, broadcasts, posted, taken)
    }

    ghost predicate Valid()
      reads this
    {
      Invariant(Now(), initial)
    }

    /** sem_init */
    constructor (value: nat)
      ensures Valid() && Now() == Start(value)
    {
      count := value;
      sleeping, woken, signals, broadcasts, posted, taken := {}, {}, 0, 0, 0, 0;
      initial := value;
    }

    /** sem_wait from its lock, or from the return of its wait, to its unlock or its next wait. */
    method Wait(ghost t: Thread, ghost again: bool) returns (done: bool)
      requires Valid() && Enabled(Now(), if again then Event.Recheck(t) else Event.Wait(t))
      modifies this
      ensures Valid() && Now() == Apply(old(Now()), if again then Event.Recheck(t) else Event.Wait(t))
      ensures done <==> old(count) > 0
      ensures count == if done then old(count) - 1 else 0
      ensures t in sleeping <==> !done
    {
      StepKeepsInvariant(Now(), if again then Event.Recheck(t) else Event.Wait(t), initial);
      if again { woken := woken - {t}; }
      done := count != 0;
      if done {
        count := count - 1;
        taken := taken + 1;
      } else {
        sleeping := sleeping + {t};
      }
    }

    /** sem_trywait */
    method TryWait() returns (rc: int)
      requires Valid()
      modifies this
      ensures Valid() && Now() == Apply(old(Now()), Event.TryWait)
      ensures rc == if old(count) > 0 then 0 else -1
      ensures count == if old(count) > 0 then old(count) - 1 else 0
    {
      StepKeepsInvariant(Now(), Event.TryWait, initial);
      if count != 0 {
        count := count - 1;
        taken := taken + 1;
        rc := 0;
      } else {
        rc := -1;
      }
    }

    /** sem_post up to its unlock. */
    method Post()
      requires Valid()
      modifies this
      ensures Valid() && Now() == Apply(old(Now()), Event.Post)
      ensures count == old(count) + 1 && signals == old(signals) + 1
    {
      StepKeepsInvariant(Now(), Event.Post, initial);
      count := count + 1;
      signals, posted := signals + 1, posted + 1;
    }

    /** sem_post_multiple up to its unlock. */
    method PostMultiple(n: nat)
      requires Valid()
      modifies this
      ensures Valid() && Now() == Apply(old(Now()), Event.PostMultiple(n))
      ensures count == old(count) + n && broadcasts == old(broadcasts) + 1
    {
      StepKeepsInvariant(Now(), Event.PostMultiple(n), initial);
      count := count + n;
      broadcasts, posted := broadcasts + 1, posted + n;
    }
  }
}
