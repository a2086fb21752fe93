/**
 * The `history` table of a chat agent: its rows, the CREATE TABLE IF NOT EXISTS
 * statement, and the query `SELECT role, content FROM history ORDER BY timestamp ASC`.
 */
module History {
  import opened Wrappers

  /** The values of the `role` column this program writes, plus the role of the system message. */
  datatype Role = System | User | Assistant

  /**
   * One row of the table. `content` is `None` when the row holds SQL NULL.
   * The auto-incremented `id` column is never read and is not modelled.
   */
  datatype Row = Row(role: Role, content: Option<string>, timestamp: int)

  /** A row projected to the two columns the query selects. */
  datatype Entry = Entry(role: Role, content: Option<string>)

  /** The table as the storage holds it: not yet created, or created with its rows in insertion order. */
  datatype Table = Absent | Present(rows: seq<Row>)

  /** CREATE TABLE IF NOT EXISTS: creates an empty table, or leaves an existing one untouched. */
  function CreateIfNotExists(t: Table): (r: Table)
    ensures r.Present?
    ensures t.Present? ==> r == t
    ensures t.Absent? ==> r.rows == []
  {
    match t
    case Absent => Present([])
    case Present(_) => t
  }

  /** Running the statement any number of times has the effect of running it once. */
  lemma CreateIfNotExistsIdempotent(t: Table)
    ensures CreateIfNotExists(CreateIfNotExists(t)) == CreateIfNotExists(t)
  {
  }

  /** Rows in non-decreasing timestamp order. */
  ghost predicate Sorted(s: seq<Row>)
  {
    forall i, j :: 0 <= i < j < |s| ==> s[i].timestamp <= s[j].timestamp
  }

  /** Rows in strictly increasing timestamp order, as a clock that never repeats a value produces. */
  ghost predicate StrictlySorted(s: seq<Row>)
  {
    forall i, j :: 0 <= i < j < |s| ==> s[i].timestamp < s[j].timestamp
  }

  /** Any result the query may return for `log`: the same rows, in non-decreasing timestamp order. */
  ghost predicate AdmissibleOrder(log: seq<Row>, out: seq<Row>)
  {
    multiset(out) == multiset(log) && Sorted(out)
  }

  /**
   * Ordering by timestamp alone does not fix the order of rows stored in the
   * same millisecond: both orders of two such rows are admissible results.
   */
  lemma TiesAdmitEitherOrder(x: Row, y: Row)
    requires x.timestamp == y.timestamp && x != y
    ensures AdmissibleOrder([x, y], [x, y]) && AdmissibleOrder([x, y], [y, x])
    ensures [y, x] != [x, y]
  {
  }

  /** Puts `r` into the sorted `s`, before the first row whose timestamp is not smaller. */
  function InsertByTimestamp(r: Row, s: seq<Row>): (o: seq<Row>)
    requires Sorted(s)
    ensures Sorted(o)
    ensures multiset(o) == multiset(s) + multiset{r}
    ensures o[0] == r || o[0] == s[0]
  {
    if s == [] || r.timestamp <= s[0].timestamp then
      [r] + s
    else
      var t := InsertByTimestamp(r, s[1..]);
      assert s == [s[0]] + s[1..];
      assert s[0].timestamp <= t[0].timestamp by {
        if |s| > 1 { assert s[0].timestamp <= s[1].timestamp; }
      }
      SortedCons(s[0], t);
      [s[0]] + t
  }

  lemma SortedCons(x: Row, t: seq<Row>)
    requires Sorted(t) && t != [] && x.timestamp <= t[0].timestamp
    ensures Sorted([x] + t)
  {
  }

  /** Dropping equal first elements from two permutations of each other leaves permutations. */
  lemma MultisetTail(a: seq<Row>, b: seq<Row>)
    requires a != [] && b != [] && a[0] == b[0] && multiset(a) == multiset(b)
    ensures multiset(a[1..]) == multiset(b[1..])
  {
    assert a == [a[0]] + a[1..];
    assert b == [b[0]] + b[1..];
    assert multiset(a[1..]) == multiset(a) - multiset{a[0]};
    assert multiset(b[1..]) == multiset(b) - multiset{b[0]};
  }

  /**
   * ORDER BY timestamp ASC, as a stable sort: rows with equal timestamps keep
   * their insertion order. SQL does not promise any order among such rows;
   * this is one admissible choice (see AdmissibleOrder and StrictOrderIsUnique).
   */
  function OrderByTimestamp(log: seq<Row>): (out: seq<Row>)
    ensures AdmissibleOrder(log, out)
  {
    if log == [] then []
    else
      assert log == [log[0]] + log[1..];
      InsertByTimestamp(log[0], OrderByTimestamp(log[1..]))
  }

  /** On a log already in timestamp order the query returns the log itself. */
  lemma {:induction false} OrderOfSortedLog(log: seq<Row>)
    requires Sorted(log)
    ensures OrderByTimestamp(log) == log
  {
    if log != [] {
      OrderOfSortedLog(log[1..]);
      assert log == [log[0]] + log[1..];
    }
  }

  /**
   * Under a strictly increasing clock the query has exactly one admissible
   * result, the log in insertion order, whatever order the engine picks among ties.
   */
  lemma {:induction false} StrictOrderIsUnique(log: seq<Row>, out: seq<Row>)
    requires StrictlySorted(log)
    requires AdmissibleOrder(log, out)
    ensures out == log
  {
    if log == [] {
      assert |multiset(out)| == 0;
    } else {
      assert log == [log[0]] + log[1..];
      assert log[0] in multiset(out);
      var j :| 0 <= j < |out| && out[j] == log[0];
      assert out != [] && out == [out[0]] + out[1..];
      assert out[0] in multiset(log);
      var k :| 0 <= k < |log| && log[k] == out[0];
      assert out[0].timestamp <= out[j].timestamp;
      MultisetTail(log, out);
      StrictOrderIsUnique(log[1..], out[1..]);
    }
  }

  /** Projects rows to `{role, content}`, keeping their order. */
  function Project(rows: seq<Row>): (es: seq<Entry>)
    ensures |es| == |rows|
    ensures forall i :: 0 <= i < |rows| ==> es[i] == Entry(rows[i].role, rows[i].content)
  {
    if rows == [] then [] else [Entry(rows[0].role, rows[0].content)] + Project(rows[1..])
  }

  /** Projecting a log with one more row gives one more entry. */
  lemma ProjectSnoc(log: seq<Row>, r: Row)
    ensures Project(log + [r]) == Project(log) + [Entry(r.role, r.content)]
  {
  }

  /**
   * getHistory: the stored rows in one admissible timestamp order, projected
   * to `{role, content}`.
   */
  function GetHistory(log: seq<Row>): (h: seq<Entry>)
    ensures exists out :: AdmissibleOrder(log, out) && h == Project(out)
  {
    Project(OrderByTimestamp(log))
  }

  /** When the rows were stored in timestamp order, the history is exactly the stored rows, projected. */
  lemma HistoryOfSortedLog(log: seq<Row>)
    requires Sorted(log)
    ensures GetHistory(log) == Project(log)
  {
    OrderOfSortedLog(log);
  }
}
