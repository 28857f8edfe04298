/** The part of a pandas DataFrame the exporters rely on: named columns in
    order and one dictionary per row. A cell a row does not have is NaN. */
module Tables {
  import opened Json

  datatype Table = Table(columns: seq<string>, rows: seq<map<string, Json>>)

  /** `pd.DataFrame()`. */
  const Empty: Table := Table([], [])

  /** `df.empty`: no rows or no columns. */
  predicate IsEmpty(t: Table)
  {
    t.columns == [] || t.rows == []
  }

  /** `pd.notna(row[c])`: the cell is neither NaN nor None. */
  predicate HasValue(row: map<string, Json>, c: string)
  {
    c in row && row[c] != JNull
  }

  /** `[c for c in order if c in columns]`. */
  function Present(order: seq<string>, columns: seq<string>): (r: seq<string>)
    ensures forall c :: c in r <==> c in order && c in columns
    ensures |r| <= |order|
    ensures (forall i :: 0 <= i < |order| ==> order[i] in columns) ==> r == order
  {
    if order == [] then []
    else (if order[0] in columns then [order[0]] else []) + Present(order[1..], columns)
  }

  /** Keeping the members of `order` keeps them in the order `order` gives:
      a member that comes before another stays before it. */
  lemma {:induction false} PresentKeepsOrder(order: seq<string>, columns: seq<string>, i: int, j: int)
    requires 0 <= i < j < |Present(order, columns)|
    ensures exists a, b :: 0 <= a < b < |order|
                           && order[a] == Present(order, columns)[i] && order[b] == Present(order, columns)[j]
  {
    var head := if order[0] in columns then [order[0]] else [];
    var rest := Present(order[1..], columns);
    var p := Present(order, columns);
    assert p == head + rest;
    if i < |head| {
      var b := PresentLater(order, columns, j);
      assert order[0] == p[i];
    } else {
      assert p[i] == rest[i - |head|] && p[j] == rest[j - |head|];
      PresentKeepsOrder(order[1..], columns, i - |head|, j - |head|);
      var a, b :| 0 <= a < b < |order[1..]| && order[1..][a] == rest[i - |head|] && order[1..][b] == rest[j - |head|];
      assert order[a + 1] == p[i] && order[b + 1] == p[j];
    }
  }

  /** A kept column after the first comes from `order` after its first entry. */
  lemma {:induction false} PresentLater(order: seq<string>, columns: seq<string>, j: int) returns (b: int)
    requires order != [] && order[0] in columns && 0 < j < |Present(order, columns)|
    ensures 0 < b < |order| && order[b] == Present(order, columns)[j]
  {
    var rest := Present(order[1..], columns);
    assert Present(order, columns) == [order[0]] + rest;
    assert Present(order, columns)[j] == rest[j - 1];
    assert rest[j - 1] in order[1..];
    var k :| 0 <= k < |order[1..]| && order[1..][k] == rest[j - 1];
    b := k + 1;
  }

  /** Keeping the columns of `order` that `columns` has keeps all of `order`
      when `columns` has every one of them. */
  lemma {:induction false} PresentAll(order: seq<string>, columns: seq<string>)
    requires forall i :: 0 <= i < |order| ==> order[i] in columns
    ensures Present(order, columns) == order
  {
  }

  /** One row restricted to `cols` (NaN cells stay absent). */
  function Project(row: map<string, Json>, cols: seq<string>): (r: map<string, Json>)
    ensures forall c :: c in r <==> c in row && c in cols
    ensures forall c :: c in r ==> r[c] == row[c]
  {
    map c | c in row && c in cols :: row[c]
  }

  /** `df[[c for c in order if c in df.columns]]`. */
  function SelectPresent(t: Table, order: seq<string>): (r: Table)
    ensures r.columns == Present(order, t.columns)
    ensures |r.rows| == |t.rows|
    ensures forall i :: 0 <= i < |t.rows| ==> r.rows[i] == Project(t.rows[i], r.columns)
  {
    var cols := Present(order, t.columns);
    Table(cols, seq(|t.rows|, i requires 0 <= i < |t.rows| => Project(t.rows[i], cols)))
  }

  /** Selecting columns `order` that the table has, when no row has a key
      outside `order`, keeps every row whole and gives the columns `order`. */
  lemma {:induction false} SelectKeepsRows(t: Table, order: seq<string>)
    requires forall i :: 0 <= i < |order| ==> order[i] in t.columns
    requires forall i, c :: 0 <= i < |t.rows| && c in t.rows[i] ==> c in order
    ensures SelectPresent(t, order) == Table(order, t.rows)
  {
    var r := SelectPresent(t, order);
    forall i | 0 <= i < |t.rows| ensures r.rows[i] == t.rows[i] {
      assert r.rows[i] == Project(t.rows[i], order);
    }
  }
}
