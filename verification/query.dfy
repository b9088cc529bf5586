/**
 * The query tool: it runs one SQL string and returns each fetched row as a
 * dictionary from column name to value, or a single error row when the
 * statement raises.
 *
 * The engine is not modelled: what the cursor produced for the statement is
 * a `CursorOutcome` value. A Python dictionary is modelled as the list of its
 * entries in insertion order, with distinct keys.
 */
module QueryExecution {
  import opened Wrappers

  /** A value SQLite can return in a row. */
  datatype Value = NullValue | IntValue(i: int) | RealValue(r: real) | TextValue(s: string) | BlobValue(bytes: seq<bv8>)

  /** One entry of a dictionary. */
  datatype Entry = Entry(key: string, value: Value)

  /** What executing the statement and fetching its rows produced. */
  datatype CursorOutcome =
    | Fetched(description: Option<seq<string>>, rows: seq<seq<Value>>)  // column names of `cursor.description`, if any
    | Raised(message: string)

  /** The key under which the error message is returned. */
  const ErrorKey := "error"

  /** The keys of a dictionary, in insertion order. */
  function Keys(d: seq<Entry>): (r: seq<string>)
    ensures |r| == |d| && forall i :: 0 <= i < |d| ==> r[i] == d[i].key
  {
    seq(|d|, i requires 0 <= i < |d| => d[i].key)
  }

  /** `d.get(k)`. */
  function Lookup(d: seq<Entry>, k: string): (r: Option<Value>)
    ensures r.None? <==> k !in Keys(d)
  {
    if d == [] then None
    else if d[0].key == k then Some(d[0].value)
    else
      assert Keys(d) == [d[0].key] + Keys(d[1..]);
      Lookup(d[1..], k)
  }

  /** A present key's value is the one of its first entry. */
  lemma {:induction false} LookupFirst(d: seq<Entry>, k: string, i: int)
    requires 0 <= i < |d| && d[i].key == k
    requires forall j :: 0 <= j < i ==> d[j].key != k
    ensures Lookup(d, k) == Some(d[i].value)
    decreases i
  {
    if i > 0 {
      assert d[1..][i - 1] == d[i];
      LookupFirst(d[1..], k, i - 1);
    }
  }

  /** No key occurs twice. */
  ghost predicate Distinct(xs: seq<string>)
  {
    forall i, j :: 0 <= i < j < |xs| ==> xs[i] != xs[j]
  }

  /**
   * `d[k] = v`: an existing key keeps its position and takes the new value,
   * a new key goes at the end.
   */
  function Insert(d: seq<Entry>, k: string, v: Value): (r: seq<Entry>)
    ensures Keys(r) == if k in Keys(d) then Keys(d) else Keys(d) + [k]
  {
    if d == [] then [Entry(k, v)]
    else
      KeysCons(d[0], d[1..]);
      assert [d[0]] + d[1..] == d;
      if d[0].key == k then
        KeysCons(Entry(k, v), d[1..]);
        [Entry(k, v)] + d[1..]
      else
        var rest := Insert(d[1..], k, v);
        KeysCons(d[0], rest);
        [d[0]] + rest
  }

  /** The keys of an entry followed by a dictionary. */
  lemma KeysCons(e: Entry, d: seq<Entry>)
    ensures Keys([e] + d) == [e.key] + Keys(d)
  {
  }

  /** After `d[k] = v`, `k` maps to `v` and every other key to what it mapped to before. */
  lemma {:induction false} InsertLookup(d: seq<Entry>, k: string, v: Value, k': string)
    ensures Lookup(Insert(d, k, v), k') == if k' == k then Some(v) else Lookup(d, k')
    decreases |d|
  {
    if d != [] && d[0].key != k {
      var r := Insert(d, k, v);
      assert r[1..] == Insert(d[1..], k, v);
      InsertLookup(d[1..], k, v, k');
    }
  }

  /** The keys of a list of pairs, in order. */
  function PairKeys(pairs: seq<(string, Value)>): (r: seq<string>)
    ensures |r| == |pairs| && forall i :: 0 <= i < |pairs| ==> r[i] == pairs[i].0
  {
    seq(|pairs|, i requires 0 <= i < |pairs| => pairs[i].0)
  }

  /**
   * `dict(pairs)`: the pairs inserted one after another. Its keys are those
   * of the pairs, each once, in the order they first occur.
   */
  function DictOf(pairs: seq<(string, Value)>): (r: seq<Entry>)
    ensures Keys(r) == FirstOccurrences(PairKeys(pairs))
    decreases |pairs|
  {
    if pairs == [] then []
    else
      var init, last := pairs[..|pairs| - 1], pairs[|pairs| - 1];
      PairKeysSnoc(init, last);
      assert init + [last] == pairs;
      FirstOccurrencesSnoc(PairKeys(init), last.0);
      Insert(DictOf(init), last.0, last.1)
  }

  /** The keys of one more pair. */
  lemma PairKeysSnoc(pairs: seq<(string, Value)>, p: (string, Value))
    ensures PairKeys(pairs + [p]) == PairKeys(pairs) + [p.0]
  {
  }

  /** One more key is kept when it is new. */
  lemma FirstOccurrencesSnoc(xs: seq<string>, x: string)
    ensures FirstOccurrences(xs + [x]) ==
      if x in FirstOccurrences(xs) then FirstOccurrences(xs) else FirstOccurrences(xs) + [x]
  {
    assert (xs + [x])[..|xs|] == xs;
  }

  /** The keys of `xs` in the order of their first occurrence. */
  function FirstOccurrences(xs: seq<string>): (r: seq<string>)
    decreases |xs|
  {
    if xs == [] then []
    else
      var seen := FirstOccurrences(xs[..|xs| - 1]);
      if xs[|xs| - 1] in seen then seen else seen + [xs[|xs| - 1]]
  }

  /** The value of the last pair with key `k`, if any. */
  function LastValue(pairs: seq<(string, Value)>, k: string): Option<Value>
    decreases |pairs|
  {
    if pairs == [] then None
    else if pairs[|pairs| - 1].0 == k then Some(pairs[|pairs| - 1].1)
    else LastValue(pairs[..|pairs| - 1], k)
  }

  /** The value of a key in `dict(pairs)` is the one its last pair carries. */
  lemma {:induction false} DictOfSpec(pairs: seq<(string, Value)>)
    ensures forall k :: Lookup(DictOf(pairs), k) == LastValue(pairs, k)
    decreases |pairs|
  {
    if pairs != [] {
      var init := pairs[..|pairs| - 1];
      var last := pairs[|pairs| - 1];
      DictOfSpec(init);
      forall k
        ensures Lookup(DictOf(pairs), k) == LastValue(pairs, k)
      {
        InsertLookup(DictOf(init), last.0, last.1, k);
      }
    }
  }

  /** Each key is kept once. */
  lemma {:induction false} FirstOccurrencesDistinct(xs: seq<string>)
    ensures Distinct(FirstOccurrences(xs))
    ensures forall x :: x in FirstOccurrences(xs) <==> x in xs
    decreases |xs|
  {
    if xs != [] {
      FirstOccurrencesDistinct(xs[..|xs| - 1]);
      assert xs == xs[..|xs| - 1] + [xs[|xs| - 1]];
    }
  }

  /** A list without repeated keys is its own list of first occurrences. */
  lemma {:induction false} FirstOccurrencesOfDistinct(xs: seq<string>)
    requires Distinct(xs)
    ensures FirstOccurrences(xs) == xs
    decreases |xs|
  {
    if xs != [] {
      var init := xs[..|xs| - 1];
      FirstOccurrencesOfDistinct(init);
      assert xs[|xs| - 1] !in init;
    }
  }

  /** Python's `zip(columns, row)`: pairs up to the shorter of the two. */
  function Zip(columns: seq<string>, row: seq<Value>): (r: seq<(string, Value)>)
    ensures |r| == if |columns| < |row| then |columns| else |row|
    ensures forall i :: 0 <= i < |r| ==> r[i] == (columns[i], row[i])
  {
    var n := if |columns| < |row| then |columns| else |row|;
    seq(n, i requires 0 <= i < n => (columns[i], row[i]))
  }

  /** `[desc[0] for desc in cur.description] if cur.description else []`. */
  function ColumnNames(description: Option<seq<string>>): seq<string>
  {
    match description
    case None => []
    case Some(names) => names
  }

  /** The dictionary one fetched row becomes. */
  function RowDict(columns: seq<string>, row: seq<Value>): seq<Entry>
  {
    DictOf(Zip(columns, row))
  }

  /**
   * The value a row's dictionary holds under `k`: that of the last column
   * named `k` among the columns the row has a value for.
   */
  function ColumnValue(columns: seq<string>, row: seq<Value>, k: string): Option<Value>
  {
    LastValue(Zip(columns, row), k)
  }

  /**
   * `query_sql`: one dictionary per fetched row, in fetch order, whose keys
   * are the column names (each once, truncated to the row's length) and
   * whose values are the row's; on an error, one row `{"error": message}`.
   */
  function QuerySql(outcome: CursorOutcome): (r: seq<seq<Entry>>)
    ensures outcome.Raised? ==> r == [[Entry(ErrorKey, TextValue(outcome.message))]]
    ensures outcome.Fetched? ==>
      var columns := ColumnNames(outcome.description);
      |r| == |outcome.rows| &&
      forall i :: 0 <= i < |r| ==>
        Distinct(Keys(r[i])) &&
        Keys(r[i]) == FirstOccurrences(PairKeys(Zip(columns, outcome.rows[i]))) &&
        forall k :: Lookup(r[i], k) == ColumnValue(columns, outcome.rows[i], k)
  {
    match outcome
    case Raised(message) => [[Entry(ErrorKey, TextValue(message))]]
    case Fetched(description, rows) =>
      var columns := ColumnNames(description);
      var r := seq(|rows|, i requires 0 <= i < |rows| => RowDict(columns, rows[i]));
      assert forall i :: 0 <= i < |rows| ==>
        Distinct(Keys(r[i])) &&
        Keys(r[i]) == FirstOccurrences(PairKeys(Zip(columns, rows[i]))) &&
        forall k :: Lookup(r[i], k) == ColumnValue(columns, rows[i], k)
      by {
        forall i | 0 <= i < |rows|
          ensures Distinct(Keys(r[i]))
          ensures Keys(r[i]) == FirstOccurrences(PairKeys(Zip(columns, rows[i])))
          ensures forall k :: Lookup(r[i], k) == ColumnValue(columns, rows[i], k)
        {
          DictOfSpec(Zip(columns, rows[i]));
          FirstOccurrencesDistinct(PairKeys(Zip(columns, rows[i])));
        }
      }
      r
  }

  /**
   * With distinct column names and rows as wide as the description, every
   * dictionary has exactly the column names as keys, in order, and holds
   * each column's value under its name.
   */
  lemma QuerySqlDistinctColumns(outcome: CursorOutcome, i: int)
    requires outcome.Fetched? && 0 <= i < |outcome.rows|
    requires Distinct(ColumnNames(outcome.description))
    requires |outcome.rows[i]| == |ColumnNames(outcome.description)|
    ensures Keys(QuerySql(outcome)[i]) == ColumnNames(outcome.description)
    ensures forall j :: 0 <= j < |outcome.rows[i]| ==>
      Lookup(QuerySql(outcome)[i], ColumnNames(outcome.description)[j]) == Some(outcome.rows[i][j])
  {
    var columns, row := ColumnNames(outcome.description), outcome.rows[i];
    var pairs := Zip(columns, row);
    assert PairKeys(pairs) == columns;
    FirstOccurrencesOfDistinct(columns);
    forall j | 0 <= j < |row|
      ensures LastValue(pairs, columns[j]) == Some(row[j])
    {
      LastValueOfDistinct(pairs, j);
    }
  }

  /** With distinct keys, the last pair with the key of pair `j` is pair `j`. */
  lemma {:induction false} LastValueOfDistinct(pairs: seq<(string, Value)>, j: int)
    requires Distinct(PairKeys(pairs)) && 0 <= j < |pairs|
    ensures LastValue(pairs, pairs[j].0) == Some(pairs[j].1)
    decreases |pairs|
  {
    var last := |pairs| - 1;
    if j < last {
      var init := pairs[..last];
      assert pairs[last].0 != pairs[j].0 by {
        assert PairKeys(pairs)[j] != PairKeys(pairs)[last];
      }
      assert Distinct(PairKeys(init)) by {
        forall a, b | 0 <= a < b < |init| ensures PairKeys(init)[a] != PairKeys(init)[b] {
          assert PairKeys(pairs)[a] != PairKeys(pairs)[b];
        }
      }
      LastValueOfDistinct(init, j);
    }
  }

  /** Without a description, every fetched row becomes an empty dictionary. */
  lemma QuerySqlNoDescription(rows: seq<seq<Value>>)
    ensures QuerySql(Fetched(None, rows)) == seq(|rows|, i requires 0 <= i < |rows| => [])
  {
    var r := QuerySql(Fetched(None, rows));
    forall i | 0 <= i < |rows| ensures r[i] == [] {
      assert Keys(r[i]) == FirstOccurrences(PairKeys(Zip([], rows[i])));
    }
  }
}
