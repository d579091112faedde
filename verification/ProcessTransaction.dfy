/** The retry loop around one transaction (src/db.c): execute, commit or roll back, reconnect and try once more. */
module ProcessTransaction {

  const ERROR := 0
  const OK := 1
  const STATUS_ROLLBACK := 4

  const DELIVERY := 0
  const NEW_ORDER := 1
  const ORDER_STATUS := 2
  const PAYMENT := 3
  const STOCK_LEVEL := 4
  const INTEGRITY := 10

  /** What the database and the clock answer: by attempt (0 or 1) for a transaction, by call for the rest. */
  datatype World = World(
    execute: nat -> int,
    commit: nat -> int,
    rollback: nat -> int,
    connect: nat -> int,
    clock: nat -> int,
    stopTime: int)

  datatype OrderLine = OrderLine(supplyWarehouse: int)

  /** A request; `flagged` and the lines matter for New-Order only. */
  datatype Request = Request(transaction: int, flagged: bool, warehouse: int, lines: seq<OrderLine>)

  datatype Action =
    | Execute(allLocal: bool)
    | Commit(status: int)
    | Rollback(status: int)
    | Disconnect
    | Connect(rc: int)

  predicate Known(transaction: int) {
    || transaction == INTEGRITY || transaction == DELIVERY || transaction == NEW_ORDER
    || transaction == ORDER_STATUS || transaction == PAYMENT || transaction == STOCK_LEVEL
  }

  /** All lines are supplied by the order's own warehouse. */
  predicate AllLocal(q: Request) {
    forall i :: 0 <= i < |q.lines| ==> q.lines[i].supplyWarehouse == q.warehouse
  }

  /** The flag passed along: computed for New-Order, meaningless otherwise. */
  predicate LocalFlag(q: Request) { q.transaction == NEW_ORDER ==> AllLocal(q) }

  /** The return code that decides between commit and rollback. */
  function ReturnCode(w: World, q: Request, attempt: nat): int {
    if q.transaction == NEW_ORDER && q.flagged then ERROR else w.execute(attempt)
  }

  // ------------------------------------------------------------- what the loop does

  /** The actions of one attempt on the transaction. */
  function Tried(w: World, q: Request, attempt: nat): seq<Action> {
    var rc := ReturnCode(w, q, attempt);
    [Execute(LocalFlag(q))]
    + if rc == OK then [Commit(w.commit(attempt))] else if rc == ERROR then [Rollback(w.rollback(attempt))] else []
  }

  /** The status after an attempt: that of its commit or rollback, or the one before. */
  function Seen(w: World, q: Request, attempt: nat, status: int): int {
    var rc := ReturnCode(w, q, attempt);
    if rc == OK then w.commit(attempt) else if rc == ERROR then w.rollback(attempt) else status
  }

  /** An expected end: committed, or rolled back. */
  predicate Settled(w: World, q: Request, attempt: nat) {
    var rc := ReturnCode(w, q, attempt);
    (rc == OK && w.commit(attempt) == OK) || (rc == ERROR && w.rollback(attempt) == STATUS_ROLLBACK)
  }

  /** One reconnection: the actions it takes and whether it succeeds before the stop time. */
  datatype Reconnection = Reconnection(ok: bool, tries: seq<Action>)

  ghost predicate OnlyConnects(tries: seq<Action>) {
    forall i :: 0 <= i < |tries| ==> tries[i].Connect?
  }

  /** Every reconnection consists of connection attempts; one that succeeds ends with a successful attempt. */
  ghost predicate Reconnections(again: seq<Reconnection>) {
    && (forall a :: 0 <= a < |again| ==> OnlyConnects(again[a].tries))
    && (forall a :: 0 <= a < |again| && again[a].ok ==>
          |again[a].tries| > 0 && again[a].tries[|again[a].tries| - 1] == Connect(OK))
  }

  /** The reconnection after attempt `a`. */
  function After(again: seq<Reconnection>, a: nat): Reconnection {
    if a < |again| then again[a] else Reconnection(false, [])
  }

  /** The attempts from number `attempt` on; `status` is the last status seen. */
  ghost function Attempts(w: World, q: Request, attempt: nat, status: int, again: seq<Reconnection>): (int, seq<Action>)
    decreases 2 - attempt
  {
    if attempt >= 2 then (status, [])
    else if Settled(w, q, attempt) then (Seen(w, q, attempt, status), Tried(w, q, attempt))
    else
      var log := Tried(w, q, attempt) + [Disconnect] + After(again, attempt).tries;
      if !After(again, attempt).ok then (ERROR, log)
      else
        var rest := Attempts(w, q, attempt + 1, Seen(w, q, attempt, status), again);
        (rest.0, log + rest.1)
  }

  ghost function Process(w: World, q: Request, again: seq<Reconnection>): (int, seq<Action>) {
    if Known(q.transaction) then Attempts(w, q, 0, ERROR, again) else (ERROR, [])
  }

  // ------------------------------------------------------------- what the log says

  function Count(log: seq<Action>, kind: Action -> bool): nat {
    if |log| == 0 then 0 else Count(log[..|log| - 1], kind) + if kind(log[|log| - 1]) then 1 else 0
  }

  predicate IsExecute(a: Action) { a.Execute? }
  predicate IsCommit(a: Action) { a.Commit? }
  predicate IsSuccess(a: Action) { a == Commit(OK) }

  lemma {:induction false} CountAppend(a: seq<Action>, b: seq<Action>, kind: Action -> bool)
    ensures Count(a + b, kind) == Count(a, kind) + Count(b, kind)
  {
    if |b| == 0 {
      assert a + b == a;
    } else {
      assert (a + b)[..|a + b| - 1] == a + b[..|b| - 1];
      CountAppend(a, b[..|b| - 1], kind);
    }
  }

  lemma {:induction false} CountNone(log: seq<Action>, kind: Action -> bool)
    requires forall i :: 0 <= i < |log| ==> !kind(log[i])
    ensures Count(log, kind) == 0
  {
    if |log| > 0 { CountNone(log[..|log| - 1], kind); }
  }

  lemma CountOne(a: Action, kind: Action -> bool)
    ensures Count([a], kind) == if kind(a) then 1 else 0
  {
    assert [a][..0] == [];
  }

  lemma TriedCount(w: World, q: Request, attempt: nat, kind: Action -> bool)
    ensures Count(Tried(w, q, attempt), kind)
         == (if kind(Execute(LocalFlag(q))) then 1 else 0)
          + (if ReturnCode(w, q, attempt) == OK && kind(Commit(w.commit(attempt))) then 1 else 0)
          + (if ReturnCode(w, q, attempt) == ERROR && kind(Rollback(w.rollback(attempt))) then 1 else 0)
  {
    var rc := ReturnCode(w, q, attempt);
    var end :=
      if rc == OK then [Commit(w.commit(attempt))]
      else if rc == ERROR then [Rollback(w.rollback(attempt))]
      else [];
    CountAppend([Execute(LocalFlag(q))], end, kind);
    CountOne(Execute(LocalFlag(q)), kind);
    CountOne(Commit(w.commit(attempt)), kind);
    CountOne(Rollback(w.rollback(attempt)), kind);
  }

  lemma TriedCounts(w: World, q: Request, attempt: nat)
    ensures Count(Tried(w, q, attempt), IsExecute) == 1
    ensures Count(Tried(w, q, attempt), IsCommit) == if ReturnCode(w, q, attempt) == OK then 1 else 0
    ensures Count(Tried(w, q, attempt), IsSuccess)
         == if ReturnCode(w, q, attempt) == OK && w.commit(attempt) == OK then 1 else 0
  {
    hide Count, Tried;
    TriedCount(w, q, attempt, IsExecute);
    TriedCount(w, q, attempt, IsCommit);
    TriedCount(w, q, attempt, IsSuccess);
  }

  /** Counting over one attempt, its reconnection and the rest. */
  lemma CountAttempt(w: World, q: Request, attempt: nat, tries: seq<Action>, rest: seq<Action>, kind: Action -> bool)
    requires OnlyConnects(tries) && !kind(Disconnect) && forall rc :: !kind(Connect(rc))
    ensures Count(Tried(w, q, attempt) + [Disconnect] + tries + rest, kind)
         == Count(Tried(w, q, attempt), kind) + Count(rest, kind)
  {
    var done := Tried(w, q, attempt);
    CountAppend(done + [Disconnect] + tries, rest, kind);
    CountAppend(done + [Disconnect], tries, kind);
    CountAppend(done, [Disconnect], kind);
    CountNone([Disconnect], kind);
    CountNone(tries, kind);
  }

  /** At most as many executions as attempts are left, at most one successful commit, and none at all for a
      New-Order that is flagged for rollback. */
  lemma {:induction false} AttemptsCount(w: World, q: Request, attempt: nat, status: int, again: seq<Reconnection>)
    requires attempt <= 2 && Reconnections(again)
    ensures Count(Attempts(w, q, attempt, status, again).1, IsExecute) <= 2 - attempt
    ensures Count(Attempts(w, q, attempt, status, again).1, IsSuccess) <= 1
    ensures q.transaction == NEW_ORDER && q.flagged ==> Count(Attempts(w, q, attempt, status, again).1, IsCommit) == 0
    decreases 2 - attempt
  {
    if attempt < 2 {
      TriedCounts(w, q, attempt);
      if !Settled(w, q, attempt) {
        var a := After(again, attempt);
        var rest := if a.ok then Attempts(w, q, attempt + 1, Seen(w, q, attempt, status), again).1 else [];
        AttemptsCount(w, q, attempt + 1, Seen(w, q, attempt, status), again);
        CountAttempt(w, q, attempt, a.tries, rest, IsExecute);
        CountAttempt(w, q, attempt, a.tries, rest, IsCommit);
        CountAttempt(w, q, attempt, a.tries, rest, IsSuccess);
        assert Attempts(w, q, attempt, status, again).1 == Tried(w, q, attempt) + [Disconnect] + a.tries + rest;
      }
    }
  }

  /** Nothing follows a successful commit, and its status is returned. */
  ghost predicate EndsWithCommit(r: (int, seq<Action>)) {
    |r.1| > 0 && r.1[|r.1| - 1] == Commit(OK)
  }

  lemma {:induction false} CommitEnds(w: World, q: Request, attempt: nat, status: int, again: seq<Reconnection>, i: nat)
    requires attempt <= 2 && Reconnections(again) && i < |Attempts(w, q, attempt, status, again).1|
    requires Attempts(w, q, attempt, status, again).1[i] == Commit(OK)
    ensures i == |Attempts(w, q, attempt, status, again).1| - 1 && Attempts(w, q, attempt, status, again).0 == OK
    decreases 2 - attempt
  {
    var r := Attempts(w, q, attempt, status, again);
    if !Settled(w, q, attempt) {
      var a := After(again, attempt);
      var log := Tried(w, q, attempt) + [Disconnect] + a.tries;
      assert forall k :: 0 <= k < |log| ==> log[k] != Commit(OK);
      if a.ok { CommitEnds(w, q, attempt + 1, Seen(w, q, attempt, status), again, i - |log|); }
    }
  }

  /** Rollback never reports plain success, as is true of every database layer that comes with the program. */
  predicate Honest(rollback: nat -> int) { rollback(0) != OK && rollback(1) != OK }

  lemma {:induction false} OkMeansCommit(w: World, q: Request, attempt: nat, status: int, again: seq<Reconnection>)
    requires attempt <= 2 && Reconnections(again) && Honest(w.rollback) && status != OK
    ensures Attempts(w, q, attempt, status, again).0 == OK <==> EndsWithCommit(Attempts(w, q, attempt, status, again))
    decreases 2 - attempt
  {
    if attempt < 2 && !Settled(w, q, attempt) {
      var a := After(again, attempt);
      var log := Tried(w, q, attempt) + [Disconnect] + a.tries;
      assert forall k :: 0 <= k < |log| ==> log[k] != Commit(OK);
      assert attempt == 0 || attempt == 1;
      if a.ok { OkMeansCommit(w, q, attempt + 1, Seen(w, q, attempt, status), again); }
    }
  }

  /** OK is returned exactly when a commit succeeded and was the last action. */
  ghost predicate OkIffCommitted(w: World, q: Request, again: seq<Reconnection>) {
    Process(w, q, again).0 == OK <==> EndsWithCommit(Process(w, q, again))
  }

  ghost predicate Trustworthy(rollback: nat -> int) {
    forall w: World, q, again: seq<Reconnection> ::
      w.rollback == rollback && Reconnections(again) ==> OkIffCommitted(w, q, again)
  }

  /** A database that claims OK for a rollback: the second attempt ends in an unexpected code, and OK is returned
      although nothing was committed. */
  lemma OkWithoutCommit(rollback: nat -> int) returns (w: World, q: Request, again: seq<Reconnection>)
    requires !Honest(rollback)
    ensures w.rollback == rollback && Reconnections(again)
    ensures Process(w, q, again).0 == OK && Count(Process(w, q, again).1, IsCommit) == 0
    ensures !OkIffCommitted(w, q, again)
  {
    var bad := if rollback(0) == OK then 0 else 1;
    w := World(a => if a == bad then ERROR else 6, _ => OK, rollback, _ => OK, _ => 0, 0);
    q := Request(PAYMENT, false, 1, []);
    again := [Reconnection(true, [Connect(OK)]), Reconnection(true, [Connect(OK)])];
    var second := Attempts(w, q, 1, Seen(w, q, 0, ERROR), again);
    var third := Attempts(w, q, 2, OK, again);
    assert Attempts(w, q, 2, Seen(w, q, 1, Seen(w, q, 0, ERROR)), again) == (OK, []);
    TriedCounts(w, q, 0);
    TriedCounts(w, q, 1);
    CountAttempt(w, q, 1, [Connect(OK)], [], IsCommit);
    CountAttempt(w, q, 0, [Connect(OK)], second.1, IsCommit);
  }

  /** The answer OK can be trusted in every run exactly when rollback never answers OK. */
  lemma TrustworthyIffHonest(rollback: nat -> int)
    ensures Trustworthy(rollback) <==> Honest(rollback)
  {
    if Honest(rollback) {
      forall w: World, q, again: seq<Reconnection> | w.rollback == rollback && Reconnections(again)
        ensures OkIffCommitted(w, q, again)
      {
        if Known(q.transaction) { OkMeansCommit(w, q, 0, ERROR, again); }
      }
    } else {
      var w, q, again := OkWithoutCommit(rollback);
    }
  }

  // ------------------------------------------------------------- which transactions are committed

  predicate ForcedBack(q: Request) { q.transaction == NEW_ORDER && q.flagged }

  /** The database reports success, and it is not to be undone. */
  predicate Accepted(w: World, q: Request, attempt: nat) { w.execute(attempt) == OK && !ForcedBack(q) }

  /** The database reports an error, or the New-Order is to be undone whatever it reports. */
  predicate Refused(w: World, q: Request, attempt: nat) { w.execute(attempt) == ERROR || ForcedBack(q) }

  /** Where the disconnection comes, counted from the execution. */
  function Pause(w: World, q: Request, attempt: nat): nat {
    if Accepted(w, q, attempt) || Refused(w, q, attempt) then 2 else 1
  }

  predicate Unexpected(w: World, q: Request, attempt: nat) {
    && (Accepted(w, q, attempt) ==> w.commit(attempt) != OK)
    && (Refused(w, q, attempt) ==> w.rollback(attempt) != STATUS_ROLLBACK)
  }

  /** Position `at` of the log holds execution number `attempt`.  What the database accepts is committed, what it
      refuses is rolled back; either ends the run with OK or STATUS_ROLLBACK where that is the answer.  Any other
      answer, and any other code, is followed by a disconnection. */
  predicate ExecutedAt(w: World, q: Request, attempt: nat, status: int, log: seq<Action>, at: nat) {
    && at < |log| && log[at].Execute?
    && (q.transaction == NEW_ORDER ==>
          (log[at].allLocal <==> forall i :: 0 <= i < |q.lines| ==> q.lines[i].supplyWarehouse == q.warehouse))
    && (Accepted(w, q, attempt) ==>
          && at + 1 < |log| && log[at + 1] == Commit(w.commit(attempt))
          && (w.commit(attempt) == OK ==> |log| == at + 2 && status == OK))
    && (Refused(w, q, attempt) ==>
          && at + 1 < |log| && log[at + 1] == Rollback(w.rollback(attempt))
          && (w.rollback(attempt) == STATUS_ROLLBACK ==> |log| == at + 2 && status == STATUS_ROLLBACK))
    && (Unexpected(w, q, attempt) ==>
          at + Pause(w, q, attempt) < |log| && log[at + Pause(w, q, attempt)] == Disconnect)
  }

  /** After the disconnection at position `at` come the attempts to connect again. */
  predicate ReconnectedAt(log: seq<Action>, at: nat, tries: seq<Action>) {
    at + |tries| < |log| && log[at + 1..at + 1 + |tries|] == tries
  }

  /** The answer to the last commit or rollback before attempt number 2, ERROR without any. */
  function LastAnswer(w: World, q: Request): int {
    if Accepted(w, q, 1) then w.commit(1) else if Refused(w, q, 1) then w.rollback(1)
    else if Accepted(w, q, 0) then w.commit(0) else if Refused(w, q, 0) then w.rollback(0)
    else ERROR
  }

  lemma AttemptsFollow(w: World, q: Request, attempt: nat, status: int, again: seq<Reconnection>)
    requires attempt < 2
    ensures
      var r := Attempts(w, q, attempt, status, again);
      && ExecutedAt(w, q, attempt, r.0, r.1, 0)
      && (Unexpected(w, q, attempt) ==>
            && ReconnectedAt(r.1, Pause(w, q, attempt), After(again, attempt).tries)
            && (!After(again, attempt).ok ==>
                  r.0 == ERROR && |r.1| == Pause(w, q, attempt) + 1 + |After(again, attempt).tries|))
    ensures
      Unexpected(w, q, attempt) && After(again, attempt).ok ==>
        var (r, start) := (Attempts(w, q, attempt, status, again),
                           Pause(w, q, attempt) + 1 + |After(again, attempt).tries|);
        var seen := if Accepted(w, q, attempt) then w.commit(attempt)
                    else if Refused(w, q, attempt) then w.rollback(attempt) else status;
        start <= |r.1| && Attempts(w, q, attempt + 1, seen, again) == (r.0, r.1[start..])
  {
  }

  lemma ExecutedLater(w: World, q: Request, attempt: nat, status: int, log: seq<Action>, start: nat)
    requires start <= |log| && ExecutedAt(w, q, attempt, status, log[start..], 0)
    ensures ExecutedAt(w, q, attempt, status, log, start)
  {
  }

  /** The whole run of a known transaction: an attempt; where its end is unexpected, a reconnection; where that
      succeeds, a second attempt of the same kind, and nothing after that attempt and its reconnection. */
  lemma ProcessFollows(w: World, q: Request, again: seq<Reconnection>)
    requires 0 <= q.transaction <= 4 || q.transaction == 10
    ensures
      var (status, log) := Process(w, q, again);
      && ExecutedAt(w, q, 0, status, log, 0)
      && (Unexpected(w, q, 0) ==>
            && ReconnectedAt(log, Pause(w, q, 0), After(again, 0).tries)
            && (!After(again, 0).ok ==>
                  status == ERROR && |log| == Pause(w, q, 0) + 1 + |After(again, 0).tries|))
    ensures
      Unexpected(w, q, 0) && After(again, 0).ok ==>
        var (status, log) := Process(w, q, again);
        var second := Pause(w, q, 0) + 1 + |After(again, 0).tries|;
        && ExecutedAt(w, q, 1, status, log, second)
        && (Unexpected(w, q, 1) ==>
              && ReconnectedAt(log, second + Pause(w, q, 1), After(again, 1).tries)
              && |log| == second + Pause(w, q, 1) + 1 + |After(again, 1).tries|
              && status == if After(again, 1).ok then LastAnswer(w, q) else ERROR)
  {
    hide ExecutedAt, Unexpected, Attempts;
    AttemptsFollow(w, q, 0, ERROR, again);
    if Unexpected(w, q, 0) && After(again, 0).ok {
      var r := Process(w, q, again);
      var second := Pause(w, q, 0) + 1 + |After(again, 0).tries|;
      var seen := if Accepted(w, q, 0) then w.commit(0) else if Refused(w, q, 0) then w.rollback(0) else ERROR;
      AttemptsFollow(w, q, 1, seen, again);
      ExecutedLater(w, q, 1, r.0, r.1, second);
      NoAttempts(w, q, LastAnswer(w, q), again);
    }
  }

  /** Said plainly for the usual cases: a transaction the database accepts and commits, and one it refuses. */
  lemma CommittedOrRolledBack(w: World, q: Request, again: seq<Reconnection>)
    requires 0 <= q.transaction <= 4 || q.transaction == 10
    ensures w.execute(0) == OK && w.commit(0) == OK && !(q.transaction == NEW_ORDER && q.flagged) ==>
              Process(w, q, again) == (OK, [Execute(LocalFlag(q)), Commit(OK)])
    ensures (w.execute(0) == ERROR || (q.transaction == NEW_ORDER && q.flagged))
            && w.rollback(0) == STATUS_ROLLBACK ==>
              Process(w, q, again) == (STATUS_ROLLBACK, [Execute(LocalFlag(q)), Rollback(STATUS_ROLLBACK)])
  {
    var flag := LocalFlag(q);
    assert [Execute(flag)] + [Commit(w.commit(0))] == [Execute(flag), Commit(w.commit(0))];
    assert [Execute(flag)] + [Rollback(w.rollback(0))] == [Execute(flag), Rollback(w.rollback(0))];
  }

  /** Any other type of transaction is refused at once. */
  lemma UnknownRefused(w: World, q: Request, again: seq<Reconnection>)
    requires !(0 <= q.transaction <= 4 || q.transaction == 10)
    ensures Process(w, q, again) == (ERROR, [])
  {
  }

  // ------------------------------------------------------------- the code

  function Total(r: (int, seq<Action>), log: seq<Action>): (int, seq<Action>) { (r.0, log + r.1) }

  lemma TotalNone(r: (int, seq<Action>))
    ensures Total(r, []) == r
  {
    assert [] + r.1 == r.1;
  }

  lemma TotalTwice(r: (int, seq<Action>), a: seq<Action>, b: seq<Action>)
    ensures Total(Total(r, b), a) == Total(r, a + b)
  {
    assert a + (b + r.1) == (a + b) + r.1;
  }

  /** What an attempt that did not settle leaves in the log, up to the next one. */
  function Left(w: World, q: Request, attempt: nat, again: seq<Reconnection>): seq<Action> {
    Tried(w, q, attempt) + [Disconnect] + After(again, attempt).tries
  }

  lemma NoReconnections()
    ensures Reconnections([])
  {
  }

  ghost predicate AllFail(tries: seq<Action>) {
    forall i :: 0 <= i < |tries| ==> tries[i] != Connect(OK)
  }

  /** The first answer OK, if there is one, is the last. */
  ghost predicate StopsAtOk(tries: seq<Action>, ok: bool) {
    if ok then |tries| > 0 && tries[|tries| - 1] == Connect(OK) && AllFail(tries[..|tries| - 1]) else AllFail(tries)
  }

  lemma AddReconnection(again: seq<Reconnection>, r: Reconnection)
    requires Reconnections(again) && OnlyConnects(r.tries)
    requires StopsAtOk(r.tries, r.ok)
    ensures Reconnections(again + [r]) && After(again + [r], |again|) == r
  {
  }

  lemma NoAttempts(w: World, q: Request, status: int, again: seq<Reconnection>)
    ensures Attempts(w, q, 2, status, again) == (status, [])
  {
  }

  /** One attempt, and what follows it. */
  lemma AttemptUnfolds(w: World, q: Request, attempt: nat, status: int, again: seq<Reconnection>)
    requires attempt < 2
    ensures Attempts(w, q, attempt, status, again)
         == if Settled(w, q, attempt) then (Seen(w, q, attempt, status), Tried(w, q, attempt))
            else if !After(again, attempt).ok then (ERROR, Left(w, q, attempt, again))
            else Total(Attempts(w, q, attempt + 1, Seen(w, q, attempt, status), again), Left(w, q, attempt, again))
  {
    hide Settled, Seen, Tried;
  }

  /** Whatever reconnections follow, the run is what has been done and the attempts still to come. */
  ghost predicate DoneSoFar(
    w: World, q: Request, attempt: nat, status: int, again: seq<Reconnection>, done: seq<Action>)
  {
    attempt <= 2 && forall t: seq<Reconnection> :: again <= t ==>
      Process(w, q, t) == Total(Attempts(w, q, attempt, status, t), done)
  }

  lemma NothingDone(w: World, q: Request)
    requires Known(q.transaction)
    ensures DoneSoFar(w, q, 0, ERROR, [], [])
  {
    forall t: seq<Reconnection> ensures Process(w, q, t) == Total(Attempts(w, q, 0, ERROR, t), []) {
      TotalNone(Attempts(w, q, 0, ERROR, t));
    }
  }

  lemma NextAttempt(w: World, q: Request, attempt: nat, status: int, again: seq<Reconnection>, done: seq<Action>)
    requires attempt < 2 && !Settled(w, q, attempt) && |again| == attempt + 1 && again[attempt].ok
    requires DoneSoFar(w, q, attempt, status, again[..attempt], done)
    ensures DoneSoFar(w, q, attempt + 1, Seen(w, q, attempt, status), again, done + Left(w, q, attempt, again))
  {
    hide Settled, Seen, Tried, Attempts, Process;
    var seen, more := Seen(w, q, attempt, status), Left(w, q, attempt, again);
    forall t: seq<Reconnection> | again <= t
      ensures Process(w, q, t) == Total(Attempts(w, q, attempt + 1, seen, t), done + more)
    {
      assert After(t, attempt) == again[attempt] && again[..attempt] <= t;
      AttemptUnfolds(w, q, attempt, status, t);
      TotalTwice(Attempts(w, q, attempt + 1, seen, t), done, more);
    }
  }

  /** Time passes a stop time that is set, or without one the database comes back: from call number `limit` on. */
  ghost predicate Ends(w: World, limit: nat) {
    if w.stopTime != 0 then forall n :: n >= limit ==> w.clock(n) > w.stopTime
    else forall n :: n >= limit ==> w.connect(n) == OK
  }

  class Session {
    const w: World
    var ticks: nat      // calls of time()
    var connects: nat   // connection attempts
    var log: seq<Action>

    constructor (w: World)
      ensures this.w == w && log == []
    {
      this.w := w;
      ticks, connects := 0, 0;
      log := [];
    }

    ghost function Remaining(limit: nat): int
      reads this
    {
      if w.stopTime != 0 then limit - ticks else limit - connects
    }

    /** time(NULL), compared with the stop time. */
    method PastStopTime() returns (past: bool)
      modifies `ticks
      ensures ticks == old(ticks) + 1
      ensures past <==> w.stopTime != 0 && w.clock(old(ticks)) > w.stopTime
    {
      var now := w.clock(ticks);
      ticks := ticks + 1;
      past := w.stopTime != 0 && now > w.stopTime;
    }

    /** Calls number `from` up to `to` of connect, and what they answered. */
    ghost predicate Answered(tries: seq<Action>, from: nat, to: nat) {
      && to - from == |tries|
      && forall i :: 0 <= i < |tries| ==> tries[i] == Connect(w.connect(from + i))
    }

    ghost predicate Past(tick: nat) { w.stopTime != 0 && w.clock(tick) > w.stopTime }

    /** connect_to_db: one look at the clock before every try; it gives up at the first look past the stop time. */
    method ConnectToDb(ghost limit: nat) returns (rc: int, ghost tries: seq<Action>)
      requires Ends(w, limit)
      modifies this
      ensures rc == OK || (rc == ERROR && w.stopTime != 0)
      ensures OnlyConnects(tries) && log == old(log) + tries
      ensures Answered(tries, old(connects), connects) && StopsAtOk(tries, rc == OK)
      ensures ticks == old(ticks) + |tries| + if rc == OK then 0 else 1
      ensures forall t :: old(ticks) <= t < old(ticks) + |tries| ==> !Past(t)
      ensures rc == ERROR ==> Past(ticks - 1)
    {
      tries := [];
      ghost var start := ticks;
      while true
        invariant OnlyConnects(tries) && log == old(log) + tries
        invariant Answered(tries, old(connects), connects) && AllFail(tries)
        invariant ticks == start + |tries| && forall t :: start <= t < ticks ==> !Past(t)
        decreases Remaining(limit)
      {
        var past := PastStopTime();
        if past {
          return ERROR, tries;
        }
        rc := w.connect(connects);
        connects := connects + 1;
        log := log + [Connect(rc)];
        ghost var earlier := tries;
        tries := tries + [Connect(rc)];
        if rc == OK {
          assert tries[..|tries| - 1] == earlier;
          return rc, tries;
        }
      }
    }

    /** The reconnection loop of process_transaction. */
    method Reconnect(ghost limit: nat) returns (ok: bool, ghost tries: seq<Action>)
      requires Ends(w, limit)
      modifies this
      ensures OnlyConnects(tries) && log == old(log) + tries
      ensures Answered(tries, old(connects), connects) && StopsAtOk(tries, ok)
      ensures !ok ==> ticks > old(ticks) && Past(ticks - 1)
    {
      tries := [];
      while true
        invariant OnlyConnects(tries) && log == old(log) + tries && ticks >= old(ticks)
        invariant Answered(tries, old(connects), connects) && AllFail(tries)
        decreases Remaining(limit)
      {
        var past := PastStopTime();
        if past {
          return false, tries;
        }
        var rc;
        ghost var more;
        rc, more := ConnectToDb(limit);
        ghost var earlier := tries;
        tries := tries + more;
        if rc == OK {
          assert tries[..|tries| - 1] == earlier + more[..|more| - 1];
          return true, tries;
        }
      }
    }

    /** o_all_local */
    method ComputeAllLocal(q: Request) returns (allLocal: bool)
      ensures allLocal == AllLocal(q)
    {
      allLocal := true;
      for i := 0 to |q.lines|
        invariant allLocal && forall k :: 0 <= k < i ==> q.lines[k].supplyWarehouse == q.warehouse
      {
        if q.lines[i].supplyWarehouse != q.warehouse {
          allLocal := false;
          break;
        }
      }
    }

    /** The switch on the transaction type. */
    method ExecuteOnce(q: Request, attempt: nat) returns (rc: int)
      modifies `log
      ensures rc == ReturnCode(w, q, attempt) && log == old(log) + [Execute(LocalFlag(q))]
    {
      var allLocal := true;
      if q.transaction == NEW_ORDER {
        allLocal := ComputeAllLocal(q);
      }
      rc := w.execute(attempt);
      log := log + [Execute(allLocal)];
      if q.transaction == NEW_ORDER && (rc == ERROR || q.flagged) {
        rc := ERROR;
      }
    }

    /** One pass of the loop up to the reconnection. */
    method Attempt(q: Request, attempt: nat, status0: int) returns (settled: bool, status: int)
      modifies `log
      ensures settled == Settled(w, q, attempt) && status == Seen(w, q, attempt, status0)
      ensures log == old(log) + Tried(w, q, attempt)
    {
      var rc := ExecuteOnce(q, attempt);
      settled, status := false, status0;
      if rc == OK {
        status := w.commit(attempt);
        log := log + [Commit(status)];
        settled := status == OK;
      } else if rc == ERROR {
        status := w.rollback(attempt);
        log := log + [Rollback(status)];
        settled := status == STATUS_ROLLBACK;
      }
    }

    /** process_transaction: ends whenever time or the database does its part, and does what Process says. */
    method ProcessTransaction(q: Request, ghost limit: nat) returns (status: int, ghost again: seq<Reconnection>)
      requires Ends(w, limit)
      modifies this
      ensures Reconnections(again)
      ensures (status, log) == Total(Process(w, q, again), old(log))
    {
      hide Settled, Seen, Tried, Attempts, Ends, Reconnections, OnlyConnects, Answered, StopsAtOk;
      assert Reconnections([]) by { NoReconnections(); }
      status, again := ERROR, [];
      if !Known(q.transaction) {
        assert log + [] == log;
        return;
      }
      var attempt := 0;
      ghost var done: seq<Action> := [];
      NothingDone(w, q);
      while attempt < 2
        invariant 0 <= attempt <= 2 && |again| == attempt && Reconnections(again)
        invariant log == old(log) + done
        invariant DoneSoFar(w, q, attempt, status, again, done)
      {
        ghost var before := status;
        var settled;
        settled, status := Attempt(q, attempt, status);
        AttemptUnfolds(w, q, attempt, before, again);
        if settled {
          TotalTwice((status, Tried(w, q, attempt)), old(log), done);
          return;
        }
        log := log + [Disconnect];
        var ok;
        ghost var tries;
        ok, tries := Reconnect(limit);
        AddReconnection(again, Reconnection(ok, tries));
        assert (again + [Reconnection(ok, tries)])[..attempt] == again;
        again := again + [Reconnection(ok, tries)];
        ghost var more := Tried(w, q, attempt) + [Disconnect] + tries;
        if !ok {
          status := ERROR;
          AttemptUnfolds(w, q, attempt, before, again);
          assert After(again, attempt) == Reconnection(ok, tries);
          TotalTwice((status, more), old(log), done);
          assert log == old(log) + done + more;
          return;
        }
        NextAttempt(w, q, attempt, before, again, done);
        done := done + more;
        attempt := attempt + 1;
      }
      NoAttempts(w, q, status, again);
      TotalTwice((status, []), old(log), done);
      assert log + [] == log;
    }
  }
}
