// The result table of `scrape_jobs`: the one-row frames of the flattened
// records, their all-null columns dropped, concatenated, completed with the
// missing output columns, reordered, and sorted by site and date.

module Output {
  import opened Wrappers
  import opened Text
  import opened Model
  import opened Columns

  /** `job_data.get(c)`: a missing key reads as null. */
  function Get(r: Row, c: Column): Option<Cell> {
    if c in r then r[c] else None
  }

  /** A data frame: its set of column labels and its rows; a row has no
      entry for a column it holds no value in, which reads as null. */
  datatype Frame = Frame(columns: set<Column>, rows: seq<Row>)

  /** The result table: the column labels in order, and each row's values
      in the same order. */
  datatype Table = Table(columns: seq<Column>, rows: seq<seq<Option<Cell>>>)

  // ---------------------------------------------------------------------
  // Steps 1 to 3 of the merge

  /** `df.dropna(axis=1, how="all")` on a one-row frame: the null entries
      go. */
  function Dropped(r: Row): Row {
    map c | c in r && r[c].Some? :: r[c]
  }

  /** Dropping the null entries changes no value a column reads. */
  lemma DroppedGet(r: Row, c: Column)
    ensures Get(Dropped(r), c) == Get(r, c)
    ensures c in Dropped(r) <==> c in r && r[c].Some?
  {
  }

  /** The columns of the concatenated frame: every key of every row. */
  function KeysOf(rows: seq<Row>): set<Column> {
    if rows == [] then {} else KeysOf(rows[..|rows| - 1]) + rows[|rows| - 1].Keys
  }

  /** A column of the concatenated frame is a key of one of its rows, and
      every key of every row is a column. */
  lemma {:induction false} KeysOfSpec(rows: seq<Row>, c: Column)
    ensures c in KeysOf(rows) <==> exists k :: 0 <= k < |rows| && c in rows[k]
  {
    if rows != [] {
      var init := rows[..|rows| - 1];
      KeysOfSpec(init, c);
      if c in KeysOf(init) {
        var k :| 0 <= k < |init| && c in init[k];
        assert rows[k] == init[k];
      }
      if exists k :: 0 <= k < |rows| && c in rows[k] {
        var k :| 0 <= k < |rows| && c in rows[k];
        if k < |init| {
          assert init[k] == rows[k];
        }
      }
    }
  }

  /** `pd.concat(filtered_dfs, ignore_index=True)` */
  function Concat(rows: seq<Row>): Frame {
    Frame(KeysOf(rows), rows)
  }

  /** The values of one row in the order of `order`. */
  function Values(r: Row, order: seq<Column>): (v: seq<Option<Cell>>)
    ensures |v| == |order|
    ensures forall i :: 0 <= i < |order| ==> v[i] == Get(r, order[i])
  {
    seq(|order|, i requires 0 <= i < |order| => Get(r, order[i]))
  }

  /** `df[order]`: select the listed columns, in order; a column the frame
      does not have is a `KeyError`, which is why the caller has added them
      all first. */
  function Reorder(f: Frame, order: seq<Column>): (t: Table)
    requires forall i :: 0 <= i < |order| ==> order[i] in f.columns
    ensures t.columns == order && |t.rows| == |f.rows|
    ensures forall k :: 0 <= k < |f.rows| ==> t.rows[k] == Values(f.rows[k], order)
  {
    Table(order, seq(|f.rows|, k requires 0 <= k < |f.rows| => Values(f.rows[k], order)))
  }

  /** The table `scrape_jobs` builds from its flattened rows, before the
      sort: one row per record, every output column in order, each holding
      the record's value or null. */
  function TableOf(rows: seq<Row>): Table {
    Table(DesiredOrder, seq(|rows|, k requires 0 <= k < |rows| => Values(rows[k], DesiredOrder)))
  }

  /** Each cell of the table is the row's value for that column, or null. */
  lemma TableOfCells(rows: seq<Row>, k: nat, i: nat)
    requires k < |rows| && i < |DesiredOrder|
    ensures var t := TableOf(rows);
      && t.columns == DesiredOrder && |t.rows| == |rows| && |t.rows[k]| == |DesiredOrder|
      && t.rows[k][i] == Get(rows[k], DesiredOrder[i])
  {
  }

  /** Steps 1 to 3 and the reorder: drop each row's null entries,
      concatenate, add every missing output column, then select the output
      columns in order. */
  method NormaliseColumns(rows: seq<Row>) returns (t: Table)
    ensures t == TableOf(rows)
  {
    var filtered := seq(|rows|, k requires 0 <= k < |rows| => Dropped(rows[k]));
    var frame := Concat(filtered);
    var columns := frame.columns;
    for i := 0 to |DesiredOrder|
      invariant forall j :: 0 <= j < i ==> DesiredOrder[j] in columns
    {
      if DesiredOrder[i] !in columns {
        columns := columns + {DesiredOrder[i]};
      }
    }
    t := Reorder(Frame(columns, filtered), DesiredOrder);
    forall k | 0 <= k < |rows|
      ensures t.rows[k] == Values(rows[k], DesiredOrder)
    {
      forall i | 0 <= i < |DesiredOrder|
        ensures t.rows[k][i] == Values(rows[k], DesiredOrder)[i]
      {
        DroppedGet(rows[k], DesiredOrder[i]);
      }
    }
  }

  // ---------------------------------------------------------------------
  // Step 4: `sort_values(by=["site", "date_posted"], ascending=[True, False])`

  /** The positions of the two sort keys among the output columns. */
  const SiteIndex: nat := 1
  const DateIndex: nat := 7

  lemma SortColumns()
    ensures |DesiredOrder| == 34
    ensures DesiredOrder[SiteIndex] == SiteCol && DesiredOrder[DateIndex] == DatePosted
  {
    RankOfDesiredOrder();
  }

  /** The value at a position, null past the end. */
  function At(v: seq<Option<Cell>>, i: nat): Option<Cell> {
    if i < |v| then v[i] else None
  }

  /** A row's site, null when it holds no string. */
  function SiteKey(v: seq<Option<Cell>>): Option<string> {
    match At(v, SiteIndex)
    case Some(CStr(s)) => Some(s)
    case _ => None
  }

  /** A row's posting date, null when it holds no date. */
  function DateKey(v: seq<Option<Cell>>): Option<Date> {
    match At(v, DateIndex)
    case Some(CDate(d)) => Some(d)
    case _ => None
  }

  /** Ascending order on optional strings, nulls last. */
  predicate SiteLe(x: Option<string>, y: Option<string>) {
    y.None? || (x.Some? && StrLe(x.value, y.value))
  }

  /** Descending order on optional dates, nulls last. */
  predicate DateLe(x: Option<Date>, y: Option<Date>) {
    y.None? || (x.Some? && x.value >= y.value)
  }

  /** The sort order: by site ascending, then by date descending, nulls
      last in both. */
  predicate RowLe(a: seq<Option<Cell>>, b: seq<Option<Cell>>) {
    var (sa, sb) := (SiteKey(a), SiteKey(b));
    (SiteLe(sa, sb) && sa != sb) || (sa == sb && DateLe(DateKey(a), DateKey(b)))
  }

  lemma SiteLeAntisymmetric(x: Option<string>, y: Option<string>)
    requires SiteLe(x, y) && SiteLe(y, x)
    ensures x == y
  {
    if x.Some? && y.Some? {
      StrLeAntisymmetric(x.value, y.value);
    }
  }

  /** Any two rows are ordered one way or the other. */
  lemma RowLeTotal(a: seq<Option<Cell>>, b: seq<Option<Cell>>)
    ensures RowLe(a, b) || RowLe(b, a)
  {
    var (sa, sb) := (SiteKey(a), SiteKey(b));
    if sa.Some? && sb.Some? {
      StrLeTotal(sa.value, sb.value);
    }
  }

  /** The order is transitive. */
  lemma RowLeTransitive(a: seq<Option<Cell>>, b: seq<Option<Cell>>, c: seq<Option<Cell>>)
    requires RowLe(a, b) && RowLe(b, c)
    ensures RowLe(a, c)
  {
    var (sa, sb, sc) := (SiteKey(a), SiteKey(b), SiteKey(c));
    if sa.Some? && sb.Some? && sc.Some? {
      if StrLe(sa.value, sb.value) && StrLe(sb.value, sc.value) {
        StrLeTransitive(sa.value, sb.value, sc.value);
      }
      if sa != sb && sb != sc && sa == sc {
        SiteLeAntisymmetric(sa, sb);
      }
    }
  }

  /** Adjacent rows in order. */
  predicate Sorted(rows: seq<seq<Option<Cell>>>) {
    forall k :: 0 <= k < |rows| - 1 ==> RowLe(rows[k], rows[k + 1])
  }

  /** `x` placed before the first row it does not come after. */
  function Insert(x: seq<Option<Cell>>, rows: seq<seq<Option<Cell>>>): seq<seq<Option<Cell>>> {
    if rows == [] || RowLe(x, rows[0]) then [x] + rows
    else [rows[0]] + Insert(x, rows[1..])
  }

  /** The sort as insertion from the back: a row ties with a later one
      only by coming first. */
  function SortRows(rows: seq<seq<Option<Cell>>>): seq<seq<Option<Cell>>> {
    if rows == [] then [] else Insert(rows[0], SortRows(rows[1..]))
  }

  /** Inserting keeps every row and adds `x`. */
  lemma {:induction false} InsertPermutes(x: seq<Option<Cell>>, rows: seq<seq<Option<Cell>>>)
    ensures multiset(Insert(x, rows)) == multiset(rows) + multiset{x}
  {
    if rows != [] && !RowLe(x, rows[0]) {
      InsertPermutes(x, rows[1..]);
      assert rows == [rows[0]] + rows[1..];
    }
  }

  /** Inserting into sorted rows keeps them sorted. */
  lemma {:induction false} InsertSorted(x: seq<Option<Cell>>, rows: seq<seq<Option<Cell>>>)
    requires Sorted(rows)
    ensures Sorted(Insert(x, rows))
    ensures |Insert(x, rows)| == |rows| + 1
    ensures Insert(x, rows)[0] == x || (rows != [] && Insert(x, rows)[0] == rows[0])
  {
    if rows != [] && !RowLe(x, rows[0]) {
      var tail := rows[1..];
      assert Sorted(tail) by {
        forall k | 0 <= k < |tail| - 1
          ensures RowLe(tail[k], tail[k + 1])
        {
          assert tail[k] == rows[k + 1] && tail[k + 1] == rows[k + 2];
        }
      }
      InsertSorted(x, tail);
      RowLeTotal(x, rows[0]);
      var r := Insert(x, rows);
      var i := Insert(x, tail);
      assert r == [rows[0]] + i;
      forall k | 0 <= k < |r| - 1
        ensures RowLe(r[k], r[k + 1])
      {
        if k > 0 {
          assert r[k] == i[k - 1] && r[k + 1] == i[k];
        } else if i[0] != x {
          assert RowLe(rows[0], rows[1]);
        }
      }
    }
  }

  /** The sort returns its rows, in order. */
  lemma {:induction false} SortRowsSpec(rows: seq<seq<Option<Cell>>>)
    ensures Sorted(SortRows(rows))
    ensures multiset(SortRows(rows)) == multiset(rows)
    ensures |SortRows(rows)| == |rows|
  {
    if rows != [] {
      SortRowsSpec(rows[1..]);
      InsertSorted(rows[0], SortRows(rows[1..]));
      InsertPermutes(rows[0], SortRows(rows[1..]));
      assert rows == [rows[0]] + rows[1..];
    }
  }

  /** Sorted adjacent rows are sorted pairwise. */
  lemma {:induction false} SortedPairwise(rows: seq<seq<Option<Cell>>>, i: nat, j: nat)
    requires Sorted(rows) && i < j < |rows|
    ensures RowLe(rows[i], rows[j])
    decreases j - i
  {
    if i + 1 < j {
      SortedPairwise(rows, i + 1, j);
      RowLeTransitive(rows[i], rows[i + 1], rows[j]);
    }
  }
}
