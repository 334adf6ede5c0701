/** The cross-pool gene store of www/server.php.

    The `xpolgenes` table is a sequence of rows. Timestamps are whole seconds;
    the row inserted by a `put` is created at the request time `now`. A `get`
    serves the genes of any row created strictly less than an hour ago (the
    random pick of the query is a nondeterministic choice here); a `put`
    appends one row and then deletes the rows created strictly more than an
    hour ago; every other request is answered with status 500. */
module GeneStore {
  import opened Options

  /** The retention window, one hour in seconds. */
  const HOUR: int := 3600
  /** Every stored row belongs to the single pool 0. */
  const POOL_ID: int := 0

  datatype Row = Row(poolid: int, genes: string, created: int)

  /** A row a `get` at time `now` may serve: created after now - 1 hour. */
  predicate Fresh(r: Row, now: int)
  {
    r.created > now - HOUR
  }

  /** A row a `put` at time `now` deletes: created before now - 1 hour. */
  predicate Expired(r: Row, now: int)
  {
    r.created < now - HOUR
  }

  /** The rows a `get` at time `now` chooses from, in table order. */
  function Servable(rows: seq<Row>, now: int): (s: seq<Row>)
    ensures forall r :: r in s <==> r in rows && Fresh(r, now)
    ensures |s| <= |rows|
  {
    if |rows| == 0 then []
    else Servable(rows[..|rows| - 1], now)
         + (if Fresh(rows[|rows| - 1], now) then [rows[|rows| - 1]] else [])
  }

  /** The table left by the delete of a `put` at time `now`. */
  function Retained(rows: seq<Row>, now: int): (k: seq<Row>)
    ensures forall r :: r in k <==> r in rows && !Expired(r, now)
    ensures |k| <= |rows|
  {
    if |rows| == 0 then []
    else
      var front := rows[..|rows| - 1];
      assert rows == front + [rows[|rows| - 1]];
      Retained(front, now) + (if Expired(rows[|rows| - 1], now) then [] else [rows[|rows| - 1]])
  }

  /** The delete keeps every row inside the window as often as it occurs:
      two identical rows (the same genes put in the same second) both stay,
      and an expired row leaves no copy. */
  lemma {:induction false} RetainedKeepsCounts(rows: seq<Row>, now: int)
    ensures forall r :: multiset(Retained(rows, now))[r] == if Expired(r, now) then 0 else multiset(rows)[r]
  {
    if |rows| > 0 {
      var front := rows[..|rows| - 1];
      var last := rows[|rows| - 1];
      var tail := if Expired(last, now) then [] else [last];
      RetainedKeepsCounts(front, now);
      assert rows == front + [last];
      assert multiset(rows) == multiset(front) + multiset{last};
      assert Retained(rows, now) == Retained(front, now) + tail;
      assert multiset(Retained(rows, now)) == multiset(Retained(front, now)) + multiset(tail);
    }
  }

  /** `body` is a reply a `get` at time `now` may print for this table: the
      genes of some servable row, or nothing when there is none. */
  ghost predicate IsGetReply(rows: seq<Row>, now: int, body: string)
  {
    (exists r :: r in rows && Fresh(r, now) && body == r.genes)
    || ((forall r :: r in rows ==> !Fresh(r, now)) && body == "")
  }

  /** The POST form fields the server reads. */
  datatype Form = Form(todo: Option<string>, data: Option<string>)

  datatype Action = Fetch | Submit(data: string) | Reject

  /** Which branch of the server handles a form. */
  function Dispatch(f: Form): (a: Action)
    ensures a == Fetch <==> f.todo == Some("get")
    ensures a.Submit? <==> f.todo == Some("put") && f.data.Some?
    ensures a.Submit? ==> a.data == f.data.value
  {
    if f.todo == Some("get") then Fetch
    else if f.todo == Some("put") && f.data.Some? then Submit(f.data.value)
    else Reject
  }

  datatype Response = Response(status: int, body: string)

  /** The table as the server sees it across requests. */
  class Store {
    var rows: seq<Row>

    constructor (initial: seq<Row>)
      ensures rows == initial
    {
      rows := initial;
    }

    /** `todo=get`: the genes of one fresh row, or the empty output. */
    method Get(now: int) returns (body: string)
      ensures IsGetReply(rows, now, body)
    {
      var candidates := Servable(rows, now);
      if |candidates| == 0 {
        body := "";
      } else {
        assert candidates[0] in candidates;
        var r :| r in candidates;
        body := r.genes;
      }
    }

    /** `todo=put`: insert the submitted genes, then delete the expired rows. */
    method Put(data: string, now: int)
      modifies this
      ensures rows == Retained(old(rows) + [Row(POOL_ID, data, now)], now)
    {
      rows := rows + [Row(POOL_ID, data, now)];
      rows := Retained(rows, now);
    }

    /** The whole request handler: get, put, or status 500. */
    method Serve(f: Form, now: int) returns (resp: Response)
      modifies this
      ensures Dispatch(f) == Fetch ==>
        resp.status == 200 && IsGetReply(rows, now, resp.body) && rows == old(rows)
      ensures Dispatch(f).Submit? ==>
        resp == Response(200, "ok") && rows == Retained(old(rows) + [Row(POOL_ID, f.data.value, now)], now)
      ensures Dispatch(f) == Reject ==> resp == Response(500, "") && rows == old(rows)
    {
      match Dispatch(f)
      case Fetch =>
        var body := Get(now);
        resp := Response(200, body);
      case Submit(data) =>
        Put(data, now);
        resp := Response(200, "ok");
      case Reject =>
        resp := Response(500, "");
    }
  }

  /** After a `put` the new row is the last row, no expired row is left, and
      every row that was not expired is still there, in its old order. */
  lemma {:induction false} PutKeepsWindow(rows: seq<Row>, data: string, now: int)
    ensures var after := Retained(rows + [Row(POOL_ID, data, now)], now);
      after == Retained(rows, now) + [Row(POOL_ID, data, now)]
      && Row(POOL_ID, data, now) in after
      && (forall r :: r in after ==> !Expired(r, now))
      && (forall r :: r in rows && !Expired(r, now) ==> r in after)
  {
    var row := Row(POOL_ID, data, now);
    var all := rows + [row];
    assert all[..|all| - 1] == rows;
    assert !Expired(row, now);
    var after := Retained(all, now);
    assert after == Retained(rows, now) + [row];
  }

  /** A row created exactly one hour before a request is neither served by a
      `get` (strict `>`) nor deleted by a `put` (strict `<`). */
  lemma {:induction false} BoundaryRowIsKeptButNotServed(rows: seq<Row>, r: Row, data: string, now: int)
    requires r in rows && r.created == now - HOUR
    ensures r !in Servable(rows, now)
    ensures r in Retained(rows + [Row(POOL_ID, data, now)], now)
  {
    PutKeepsWindow(rows, data, now);
  }

  /** Expiry is lazy: a row that a `put` would delete may still be in the
      table, but a `get` never serves it. */
  lemma {:induction false} ExpiredRowIsNeverServed(rows: seq<Row>, r: Row, now: int)
    requires r in rows && Expired(r, now)
    ensures r !in Servable(rows, now)
  {
  }

  /** A row submitted at time t is servable exactly during [t, t + 1 hour). */
  lemma {:induction false} SubmittedRowWindow(rows: seq<Row>, data: string, t: int, later: int)
    requires t <= later
    ensures var after := Retained(rows + [Row(POOL_ID, data, t)], t);
      Row(POOL_ID, data, t) in after
      && (Row(POOL_ID, data, t) in Servable(after, later) <==> later < t + HOUR)
  {
    PutKeepsWindow(rows, data, t);
  }

  /** Deleting at t1 and then at a later t2 is deleting at t2: in particular a
      second delete at the same time removes nothing more. */
  lemma {:induction false} RetainedComposes(rows: seq<Row>, t1: int, t2: int)
    requires t1 <= t2
    ensures Retained(Retained(rows, t1), t2) == Retained(rows, t2)
  {
    if |rows| > 0 {
      var front := rows[..|rows| - 1];
      var last := rows[|rows| - 1];
      RetainedComposes(front, t1, t2);
      var k1 := Retained(front, t1) + (if Expired(last, t1) then [] else [last]);
      assert Retained(rows, t1) == k1;
      if !Expired(last, t1) {
        assert k1[..|k1| - 1] == Retained(front, t1);
      } else {
        assert k1 == Retained(front, t1);
      }
    }
  }

  /** A table with no expired row survives the delete unchanged. */
  lemma {:induction false} NothingExpiredNothingDeleted(rows: seq<Row>, now: int)
    requires forall i :: 0 <= i < |rows| ==> !Expired(rows[i], now)
    ensures Retained(rows, now) == rows
  {
    if |rows| > 0 {
      var front := rows[..|rows| - 1];
      var last := rows[|rows| - 1];
      forall i | 0 <= i < |front|
        ensures !Expired(front[i], now)
      {
        assert front[i] == rows[i];
      }
      NothingExpiredNothingDeleted(front, now);
      assert !Expired(last, now);
      assert rows == front + [last];
    }
  }

  /** The table after a series of `put`s, the i-th at times[i]. */
  function PutAll(rows: seq<Row>, data: seq<string>, times: seq<int>): (t: seq<Row>)
    requires |data| == |times|
    ensures |t| <= |rows| + |data|
  {
    if |data| == 0 then rows
    else
      var n := |data| - 1;
      Retained(PutAll(rows, data[..n], times[..n]) + [Row(POOL_ID, data[n], times[n])], times[n])
  }

  /** N `put`s into an empty table, all issued within one hour of the first,
      leave exactly N rows: the submitted genes, in order. */
  lemma {:induction false} SubmitsWithinOneHourAreAllKept(data: seq<string>, times: seq<int>)
    requires |data| == |times|
    requires forall i, j :: 0 <= i < j < |times| ==> times[i] <= times[j]
    requires forall i :: 0 <= i < |times| ==> times[i] <= times[0] + HOUR
    ensures |PutAll([], data, times)| == |data|
    ensures forall i :: 0 <= i < |data| ==> PutAll([], data, times)[i] == Row(POOL_ID, data[i], times[i])
  {
    if |data| > 0 {
      var n := |data| - 1;
      var d, ts := data[..n], times[..n];
      SubmitsWithinOneHourAreAllKept(d, ts);
      var before := PutAll([], d, ts);
      var all := before + [Row(POOL_ID, data[n], times[n])];
      forall i | 0 <= i < |all|
        ensures all[i] == Row(POOL_ID, data[i], times[i]) && !Expired(all[i], times[n])
      {
        if i < n {
          assert all[i] == before[i];
          assert d[i] == data[i] && ts[i] == times[i];
        }
        assert times[0] <= times[i];
      }
      NothingExpiredNothingDeleted(all, times[n]);
      assert PutAll([], data, times) == Retained(all, times[n]);
    }
  }

  /** The exchange scenario: genes AAAA submitted into an empty table are the
      only possible reply at once; after 3660 seconds and a submission of BBBB
      the table holds one row and BBBB is the only possible reply. */
  lemma {:induction false} ExchangeScenario()
    ensures var first := Retained([Row(POOL_ID, "AAAA", 0)], 0);
      first == [Row(POOL_ID, "AAAA", 0)]
      && (forall body :: IsGetReply(first, 0, body) <==> body == "AAAA")
    ensures var second := Retained([Row(POOL_ID, "AAAA", 0), Row(POOL_ID, "BBBB", 3660)], 3660);
      second == [Row(POOL_ID, "BBBB", 3660)]
      && (forall body :: IsGetReply(second, 3660, body) <==> body == "BBBB")
  {
    var a := Row(POOL_ID, "AAAA", 0);
    var b := Row(POOL_ID, "BBBB", 3660);
    NothingExpiredNothingDeleted([a], 0);
    PutKeepsWindow([a], "BBBB", 3660);
    assert [a, b] == [a] + [b];
    assert [a][..0] == [];
    assert Retained([a], 3660) == [];
  }
}
