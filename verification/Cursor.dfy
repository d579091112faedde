/** The prefetching SQLite cursor (src/sqlite/dbc_common.c) and the median customer that Order-Status
    picks with it (src/nonsp/dbc_order_status.c). */
module Cursor {
  import opened Common

  datatype StepResult = SqliteRow | SqliteDone | SqliteError

  /** A prepared statement: its rows, how it ends, and how often it was finalized. */
  class Statement {
    const rows: seq<Option<int>>
    const fails: bool       // the last step fails instead of ending the rows
    const finalizeFails: bool
    var position: nat       // rows stepped onto
    var finalized: nat

    constructor (rows: seq<Option<int>>, fails: bool, finalizeFails: bool)
      ensures this.rows == rows && this.fails == fails && this.finalizeFails == finalizeFails
      ensures position == 0 && finalized == 0
    {
      this.rows, this.fails, this.finalizeFails := rows, fails, finalizeFails;
      position, finalized := 0, 0;
    }

    method Step() returns (r: StepResult)
      requires finalized == 0 && position <= |rows|
      modifies this`position
      ensures r.SqliteRow? <==> old(position) < |rows|
      ensures position == old(position) + if r.SqliteRow? then 1 else 0
      ensures r.SqliteError? <==> old(position) == |rows| && fails
    {
      if position < |rows| {
        position := position + 1;
        r := SqliteRow;
      } else {
        r := if fails then SqliteError else SqliteDone;
      }
    }

    method Finalize() returns (ok: bool)
      requires finalized == 0
      modifies this`finalized
      ensures finalized == 1 && ok == !finalizeFails
    {
      finalized := finalized + 1;
      ok := !finalizeFails;
    }
  }

  class Result {
    const statement: Statement
    var queryRunning: bool
    var prefetched: bool
    var error: bool
    ghost var delivered: nat // rows the caller has been given

    /** A running query has its statement; the statement is one row ahead of the caller while a row is prefetched.
        A query that has stopped has finalized its statement, once. */
    ghost predicate Valid()
      reads this, statement
    {
      && statement.position <= |statement.rows|
      && (queryRunning ==> statement.finalized == 0 && statement.position == delivered + if prefetched then 1 else 0)
      && (!queryRunning ==> statement.finalized == 1 && delivered <= |statement.rows|)
      && (queryRunning ==> !error)
    }

    /** sql_execute_sqlite once the statement is prepared: the first row is fetched ahead of its time. */
    constructor Execute(statement: Statement)
      requires statement.position == 0 && statement.finalized == 0
      modifies statement
      ensures Valid() && this.statement == statement && delivered == 0
      ensures queryRunning <==> statement.rows != []
      ensures queryRunning ==> prefetched
      ensures error <==> statement.rows == [] && (statement.fails || statement.finalizeFails)
    {
      this.statement := statement;
      error, queryRunning, prefetched := false, true, false;
      delivered := 0;
      new;
      var fetched := FetchRow();
      if !error {
        prefetched := true;
      }
      delivered := 0;
    }

    /** sql_fetchrow_sqlite: the next row, each once and in order, until there is none; then the statement is
        finalized. */
    method FetchRow() returns (ok: bool)
      requires Valid()
      modifies this, statement
      ensures Valid()
      ensures ok <==> old(queryRunning) && old(delivered) < |statement.rows|
      ensures ok ==> queryRunning && !prefetched && delivered == old(delivered) + 1
      ensures !ok ==> !queryRunning && delivered == old(delivered)
      ensures error == (old(error) || (old(queryRunning) && !ok && (statement.fails || statement.finalizeFails)))
    {
      if !queryRunning {
        return false;
      }
      if prefetched {
        prefetched := false;
        delivered := delivered + 1;
        return true;
      }
      var rc := statement.Step();
      match rc
      case SqliteRow =>
        delivered := delivered + 1;
        ok := true;
      case SqliteDone =>
        var finalized := statement.Finalize();
        if !finalized {
          error := true;
        }
        queryRunning := false;
        ok := false;
      case SqliteError =>
        error := true;
        var finalized := statement.Finalize();
        queryRunning := false;
        ok := false;
    }

    /** sql_close_cursor_sqlite: finalizes only what still runs. */
    method Close() returns (ok: bool)
      requires Valid()
      modifies this`queryRunning, statement`finalized
      ensures Valid() && !queryRunning && statement.finalized == 1
      ensures ok <==> !old(queryRunning) || !statement.finalizeFails
    {
      ok := true;
      if queryRunning {
        queryRunning := false;
        var finalized := statement.Finalize();
        if !finalized || error {
          ok := false;
        }
      }
    }

    /** sql_getvalue_sqlite of the first column: a null or a stopped query gives no value. */
    method GetValue() returns (v: Option<int>)
      requires Valid() && (queryRunning ==> 0 < statement.position)
      ensures v == if queryRunning then statement.rows[statement.position - 1] else None
    {
      if queryRunning {
        v := statement.rows[statement.position - 1];
      } else {
        v := None;
      }
    }
  }

  // ------------------------------------------------------------- the median customer

  /** What one row adds to the array of customer ids. */
  function Stored(v: Option<int>): int {
    match v
    case Some(id) => id
    case None => -1
  }

  /** Row (n - 1) / 2 of n, in the middle, rounded down from the top. */
  function Middle(rows: seq<Option<int>>): int {
    if |rows| == 0 then -1 else Stored(rows[(|rows| - 1) / 2])
  }

  /** The next size of the array: 32 after the first sixteen, then twice as much each time. */
  method Grow(a: array<int>, allocCount: nat) returns (bigger: array<int>, newCount: nat)
    requires a.Length == if allocCount == 0 then 16 else allocCount
    ensures fresh(bigger) && bigger.Length == newCount == 2 * a.Length
    ensures bigger[..a.Length] == a[..]
  {
    newCount := if allocCount == 0 then 32 else allocCount * 2;
    bigger := new int[newCount];
    forall i | 0 <= i < a.Length {
      bigger[i] := a[i];
    }
  }

  /** Read all rows that are left into a growing array and take the one in the middle. */
  method PickMiddle(result: Result) returns (id: int)
    requires result.Valid() && result.queryRunning && result.delivered == 0
    modifies result, result.statement
    ensures result.Valid() && !result.queryRunning && result.delivered == |result.statement.rows|
    ensures id == Middle(result.statement.rows)
  {
    var rows := result.statement.rows;
    var ids := new int[16];
    var allocCount, count := 0, 0;
    var more := result.FetchRow();
    while more
      invariant result.Valid() && fresh(ids)
      invariant ids.Length == (if allocCount == 0 then 16 else allocCount) && (allocCount == 0 || allocCount >= 32)
      invariant more ==> result.queryRunning && !result.prefetched && result.delivered == count + 1
      invariant !more ==> !result.queryRunning && result.delivered == count == |rows|
      invariant count <= ids.Length && count <= |rows|
      invariant forall i :: 0 <= i < count ==> ids[i] == Stored(rows[i])
      decreases |rows| - count, more
    {
      if count >= 16 && count >= allocCount {
        ids, allocCount := Grow(ids, allocCount);
      }
      var value := result.GetValue();
      match value {
        case Some(v) => ids[count] := v;
        case None => ids[count] := -1;
      }
      count := count + 1;
      more := result.FetchRow();
    }
    id := if count == 0 then -1 else ids[(count - 1) / 2];
  }

  /** Order-Status by last name: -1 is returned where the source gives up. */
  method FindCustomer(statement: Statement) returns (id: int)
    requires statement.position == 0 && statement.finalized == 0
    modifies statement
    ensures statement.finalized == 1
    ensures id == Middle(statement.rows)
  {
    var result := new Result.Execute(statement);
    if result.error || !result.queryRunning {
      return -1;
    }
    id := PickMiddle(result);
    if id == -1 {
      return -1;
    }
    var closed := result.Close();
  }

  /** Clause 2.6.2.2: of n rows the one at position n / 2 rounded up, counted from one. */
  lemma MiddleIsHalfRoundedUp(rows: seq<Option<int>>, k: nat)
    requires 1 <= k <= |rows|
    ensures 2 * k == |rows| || 2 * k == |rows| + 1 ==> Middle(rows) == Stored(rows[k - 1])
  {
  }
}
