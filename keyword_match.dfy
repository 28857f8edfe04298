/** The keyword search of the release export (`search_keywords_in_data`):
    one output row per (row, searched column, keyword) whose cell contains the
    keyword, ignoring case. */
module KeywordMatch {
  import opened Json
  import opened Tables
  import opened Text

  /** The searched columns, in the order they are visited. */
  const SearchColumns: seq<string> := ["version_description", "acceptance_criteria", "notes", "description"]

  const MatchedKeyword: string := "matched_keyword"
  const MatchedColumn: string := "matched_column"

  /** A hit by position: the row index, the index into the searched columns
      that exist, and the index into the keyword list. */
  datatype Hit = Hit(row: nat, column: nat, keyword: nat)

  /** One entry of `matched_records`: the keyword as given, the column name and
      the row as `iterrows` yields it. */
  datatype Match = Match(keyword: string, column: string, row: map<string, Json>)

  /** `str(row[column]).lower()` when the cell has a value, otherwise `''`. */
  function CellText(row: map<string, Json>, column: string, repr: Renderer): string
  {
    if HasValue(row, column) then Lower(Str(row[column], repr)) else ""
  }

  /** The cell has content and contains `keyword`, both lower-cased. */
  predicate IsHit(row: map<string, Json>, column: string, keyword: string, repr: Renderer)
  {
    CellText(row, column, repr) != "" && Contains(CellText(row, column, repr), Lower(keyword))
  }

  /** The hit test of a table, by position: the row, the searched column and
      the keyword exist, and they make a hit. */
  function HitTest(rows: seq<map<string, Json>>, cols: seq<string>, kws: seq<string>, repr: Renderer): (nat, nat, nat) -> bool
  {
    (i: nat, c: nat, k: nat) => i < |rows| && c < |cols| && k < |kws| && IsHit(rows[i], cols[c], kws[k], repr)
  }

  /** Row first, then column, then keyword. */
  predicate Before(a: Hit, b: Hit)
  {
    a.row < b.row
    || (a.row == b.row && (a.column < b.column || (a.column == b.column && a.keyword < b.keyword)))
  }

  predicate Ordered(hs: seq<Hit>)
  {
    forall a, b :: 0 <= a < b < |hs| ==> Before(hs[a], hs[b])
  }

  lemma {:induction false} OrderedAppend(xs: seq<Hit>, ys: seq<Hit>)
    requires Ordered(xs) && Ordered(ys)
    requires forall a, b :: 0 <= a < |xs| && 0 <= b < |ys| ==> Before(xs[a], ys[b])
    ensures Ordered(xs + ys)
  {
    var zs := xs + ys;
    forall a, b | 0 <= a < b < |zs| ensures Before(zs[a], zs[b]) {
      if b < |xs| {
        assert zs[a] == xs[a] && zs[b] == xs[b];
      } else if a >= |xs| {
        assert zs[a] == ys[a - |xs|] && zs[b] == ys[b - |xs|];
      } else {
        assert zs[a] == xs[a] && zs[b] == ys[b - |xs|];
      }
    }
  }

  /** The hits of cell (`i`, `c`) among the first `p` keywords, in keyword
      order. */
  function CellHits(hit: (nat, nat, nat) -> bool, i: nat, c: nat, p: nat): (r: seq<Hit>)
    ensures forall j :: 0 <= j < |r| ==>
              hit(r[j].row, r[j].column, r[j].keyword) && r[j].row == i && r[j].column == c && r[j].keyword < p
    ensures forall k :: 0 <= k < p && hit(i, c, k) ==> Hit(i, c, k) in r
    ensures Ordered(r)
    decreases p
  {
    if p == 0 then []
    else
      var before := CellHits(hit, i, c, p - 1);
      var here := if hit(i, c, p - 1) then [Hit(i, c, p - 1)] else [];
      OrderedAppend(before, here);
      before + here
  }

  /** The hits of row `i` in the first `m` columns, over `kn` keywords. */
  function RowHits(hit: (nat, nat, nat) -> bool, kn: nat, i: nat, m: nat): (r: seq<Hit>)
    ensures forall j :: 0 <= j < |r| ==>
              hit(r[j].row, r[j].column, r[j].keyword) && r[j].row == i && r[j].column < m && r[j].keyword < kn
    ensures forall c, k :: 0 <= c < m && 0 <= k < kn && hit(i, c, k) ==> Hit(i, c, k) in r
    ensures Ordered(r)
    decreases m
  {
    if m == 0 then []
    else
      var before := RowHits(hit, kn, i, m - 1);
      var here := CellHits(hit, i, m - 1, kn);
      OrderedAppend(before, here);
      before + here
  }

  /** The hits of the first `n` rows, over `cn` columns and `kn` keywords. */
  function TableHits(hit: (nat, nat, nat) -> bool, cn: nat, kn: nat, n: nat): (r: seq<Hit>)
    ensures forall j :: 0 <= j < |r| ==>
              hit(r[j].row, r[j].column, r[j].keyword) && r[j].row < n && r[j].column < cn && r[j].keyword < kn
    ensures forall i, c, k :: 0 <= i < n && 0 <= c < cn && 0 <= k < kn && hit(i, c, k) ==> Hit(i, c, k) in r
    ensures Ordered(r)
    decreases n
  {
    if n == 0 then []
    else
      var before := TableHits(hit, cn, kn, n - 1);
      var here := RowHits(hit, kn, n - 1, cn);
      OrderedAppend(before, here);
      before + here
  }

  /** `[c for c in columns if c not in ['matched_keyword', 'matched_column']]`. */
  function OtherColumns(columns: seq<string>): (r: seq<string>)
    ensures forall c :: c in r <==> c in columns && c != MatchedKeyword && c != MatchedColumn
    ensures |r| <= |columns|
    ensures (forall i :: 0 <= i < |columns| ==> columns[i] != MatchedKeyword && columns[i] != MatchedColumn) ==> r == columns
  {
    if columns == [] then []
    else
      (if columns[0] != MatchedKeyword && columns[0] != MatchedColumn then [columns[0]] else [])
      + OtherColumns(columns[1..])
  }

  /** The filter keeps order: filtering a concatenation filters each half. */
  lemma {:induction false} OtherColumnsAppend(xs: seq<string>, ys: seq<string>)
    ensures OtherColumns(xs + ys) == OtherColumns(xs) + OtherColumns(ys)
    decreases |xs|
  {
    if xs == [] {
      assert xs + ys == ys;
    } else {
      assert (xs + ys)[1..] == xs[1..] + ys;
      OtherColumnsAppend(xs[1..], ys);
    }
  }

  /** The columns of the result: the two new ones first, then the original ones
      in their order. */
  function OutputColumns(columns: seq<string>): (r: seq<string>)
    ensures |r| >= 2 && r[..2] == [MatchedKeyword, MatchedColumn]
    ensures forall c :: c in r[2..] <==> c in columns && c != MatchedKeyword && c != MatchedColumn
  {
    [MatchedKeyword, MatchedColumn] + OtherColumns(columns)
  }

  /** `row_data.to_dict()` with the two new entries. */
  function OutputRow(m: Match): map<string, Json>
  {
    m.row[MatchedKeyword := JStr(m.keyword)][MatchedColumn := JStr(m.column)]
  }

  /** An output row holds the keyword and the column name of its match and
      every other entry of the matched row, unchanged. */
  lemma {:induction false} OutputRowEntries(m: Match)
    ensures MatchedKeyword in OutputRow(m) && OutputRow(m)[MatchedKeyword] == JStr(m.keyword)
    ensures MatchedColumn in OutputRow(m) && OutputRow(m)[MatchedColumn] == JStr(m.column)
    ensures forall c :: c != MatchedKeyword && c != MatchedColumn ==> (c in OutputRow(m) <==> c in m.row)
    ensures forall c :: c in m.row && c != MatchedKeyword && c != MatchedColumn ==> OutputRow(m)[c] == m.row[c]
  {
  }

  /** The record a hit in `t` stands for. */
  function MatchOf(t: Table, cols: seq<string>, kws: seq<string>, h: Hit): Match
    requires h.row < |t.rows| && h.column < |cols| && h.keyword < |kws|
  {
    Match(kws[h.keyword], cols[h.column], Project(t.rows[h.row], t.columns))
  }

  /** `ms` lists, in order, the records of the hits `hs`. */
  predicate Records(t: Table, cols: seq<string>, kws: seq<string>, ms: seq<Match>, hs: seq<Hit>)
  {
    |ms| == |hs|
    && forall j :: 0 <= j < |hs| ==>
         hs[j].row < |t.rows| && hs[j].column < |cols| && hs[j].keyword < |kws| && ms[j] == MatchOf(t, cols, kws, hs[j])
  }

  lemma {:induction false} RecordsAppend(t: Table, cols: seq<string>, kws: seq<string>, ms: seq<Match>, hs: seq<Hit>,
                      ms2: seq<Match>, hs2: seq<Hit>)
    requires Records(t, cols, kws, ms, hs) && Records(t, cols, kws, ms2, hs2)
    ensures Records(t, cols, kws, ms + ms2, hs + hs2)
  {
    forall j | 0 <= j < |hs + hs2|
      ensures (hs + hs2)[j].row < |t.rows| && (hs + hs2)[j].column < |cols| && (hs + hs2)[j].keyword < |kws|
              && (ms + ms2)[j] == MatchOf(t, cols, kws, (hs + hs2)[j])
    {
      if j >= |hs| {
        assert (hs + hs2)[j] == hs2[j - |hs|] && (ms + ms2)[j] == ms2[j - |hs|];
      }
    }
  }

  /** One more hit adds its record at the end. */
  lemma {:induction false} RecordsSnoc(t: Table, cols: seq<string>, kws: seq<string>, ms: seq<Match>, hs: seq<Hit>, h: Hit)
    requires Records(t, cols, kws, ms, hs)
    requires h.row < |t.rows| && h.column < |cols| && h.keyword < |kws|
    ensures Records(t, cols, kws, ms + [MatchOf(t, cols, kws, h)], hs + [h])
  {
    RecordsAppend(t, cols, kws, ms, hs, [MatchOf(t, cols, kws, h)], [h]);
  }

  /** The hits of table `t` over the searched columns `cols` and the keywords
      `kws`, in loop order. */
  function Hits(t: Table, cols: seq<string>, kws: seq<string>, repr: Renderer): seq<Hit>
  {
    TableHits(HitTest(t.rows, cols, kws, repr), |cols|, |kws|, |t.rows|)
  }

  /** The result once the keywords are split and the searched columns that
      exist are known: empty without a hit, otherwise one row per hit. */
  function SearchIn(t: Table, cols: seq<string>, kws: seq<string>, repr: Renderer): Table
  {
    var hits := Hits(t, cols, kws, repr);
    if hits == [] then Empty
    else
      Table(OutputColumns(t.columns),
            seq(|hits|, j requires 0 <= j < |hits| => OutputRow(MatchOf(t, cols, kws, hits[j]))))
  }

  /** What `search_keywords_in_data` returns. */
  function Search(t: Table, keywords: string, repr: Renderer): Table
  {
    if IsEmpty(t) then Empty
    else
      var cols := Present(SearchColumns, t.columns);
      if cols == [] then Empty else SearchIn(t, cols, SplitTrim(keywords), repr)
  }

  /** The search: the matches of every row, then one output row per match. */
  method SearchKeywordsInData(t: Table, keywords: string, repr: Renderer) returns (r: Table)
    ensures r == Search(t, keywords, repr)
  {
    if IsEmpty(t) {
      return Empty;
    }
    var keywordList := SplitTrim(keywords);
    var available := Present(SearchColumns, t.columns);
    if available == [] {
      return Empty;
    }
    var matched := MatchedRecords(t, available, keywordList, repr);
    ghost var hits := Hits(t, available, keywordList, repr);
    if matched == [] {
      return Empty;
    }
    var filtered := FilteredData(matched);
    r := Table(OutputColumns(t.columns), filtered);
    assert filtered == seq(|hits|, q requires 0 <= q < |hits| => OutputRow(MatchOf(t, available, keywordList, hits[q])));
  }

  /** `matched_records`: the loop over the rows, extending it with each row's
      matches. */
  method MatchedRecords(t: Table, cols: seq<string>, kws: seq<string>, repr: Renderer) returns (matched: seq<Match>)
    ensures Records(t, cols, kws, matched, TableHits(HitTest(t.rows, cols, kws, repr), |cols|, |kws|, |t.rows|))
  {
    ghost var hit := HitTest(t.rows, cols, kws, repr);
    matched := [];
    var i := 0;
    while i < |t.rows|
      invariant 0 <= i <= |t.rows|
      invariant Records(t, cols, kws, matched, TableHits(hit, |cols|, |kws|, i))
    {
      var rowMatches := RowMatches(t, cols, kws, repr, i);
      RecordsAppend(t, cols, kws, matched, TableHits(hit, |cols|, |kws|, i), rowMatches, RowHits(hit, |kws|, i, |cols|));
      TableHitsNext(hit, |cols|, |kws|, i);
      matched := matched + rowMatches;
      i := i + 1;
    }
  }

  /** `filtered_data`: the output row of each match, in order. */
  method FilteredData(matched: seq<Match>) returns (filtered: seq<map<string, Json>>)
    ensures |filtered| == |matched|
    ensures forall q :: 0 <= q < |matched| ==> filtered[q] == OutputRow(matched[q])
  {
    filtered := [];
    var j := 0;
    while j < |matched|
      invariant 0 <= j <= |matched|
      invariant |filtered| == j
      invariant forall q :: 0 <= q < j ==> filtered[q] == OutputRow(matched[q])
    {
      filtered := filtered + [OutputRow(matched[j])];
      j := j + 1;
    }
  }

  /** `row_matches` of row `i`: the loop over the searched columns. */
  method RowMatches(t: Table, cols: seq<string>, kws: seq<string>, repr: Renderer, i: nat)
    returns (rowMatches: seq<Match>)
    requires i < |t.rows|
    ensures Records(t, cols, kws, rowMatches, RowHits(HitTest(t.rows, cols, kws, repr), |kws|, i, |cols|))
  {
    ghost var hit := HitTest(t.rows, cols, kws, repr);
    rowMatches := [];
    var c := 0;
    while c < |cols|
      invariant 0 <= c <= |cols|
      invariant Records(t, cols, kws, rowMatches, RowHits(hit, |kws|, i, c))
    {
      var cellMatches := CellMatches(t, cols, kws, repr, i, c);
      RecordsAppend(t, cols, kws, rowMatches, RowHits(hit, |kws|, i, c), cellMatches, CellHits(hit, i, c, |kws|));
      RowHitsNext(hit, |kws|, i, c);
      rowMatches := rowMatches + cellMatches;
      c := c + 1;
    }
  }

  /** The matches of one cell: nothing when it has no content, otherwise the
      loop over the keywords. */
  method CellMatches(t: Table, cols: seq<string>, kws: seq<string>, repr: Renderer, i: nat, c: nat)
    returns (cellMatches: seq<Match>)
    requires i < |t.rows| && c < |cols|
    ensures Records(t, cols, kws, cellMatches, CellHits(HitTest(t.rows, cols, kws, repr), i, c, |kws|))
  {
    ghost var hit := HitTest(t.rows, cols, kws, repr);
    cellMatches := [];
    var value := CellText(t.rows[i], cols[c], repr);
    if value == "" {
      assert forall k :: !hit(i, c, k);
      EmptyCellHits(hit, i, c, |kws|);
      return;
    }
    var k := 0;
    while k < |kws|
      invariant 0 <= k <= |kws|
      invariant cellMatches == CellRecords(t, cols, kws, repr, i, c, k)
    {
      var found := Contains(value, Lower(kws[k]));
      HitTestAt(t, cols, kws, repr, i, c, k);
      if found {
        cellMatches := cellMatches + [Match(kws[k], cols[c], Project(t.rows[i], t.columns))];
      }
      k := k + 1;
    }
    CellRecordsAreRecords(t, cols, kws, repr, i, c, |kws|);
  }

  /** The records of cell (`i`, `c`) for the first `p` keywords, in keyword
      order: what the loop over the keywords appends. */
  function CellRecords(t: Table, cols: seq<string>, kws: seq<string>, repr: Renderer, i: nat, c: nat, p: nat): seq<Match>
    requires i < |t.rows| && c < |cols| && p <= |kws|
  {
    if p == 0 then []
    else
      CellRecords(t, cols, kws, repr, i, c, p - 1)
      + (if HitTest(t.rows, cols, kws, repr)(i, c, p - 1)
         then [Match(kws[p - 1], cols[c], Project(t.rows[i], t.columns))] else [])
  }

  /** The loop's records are the records of the cell's hits. */
  lemma {:induction false} CellRecordsAreRecords(t: Table, cols: seq<string>, kws: seq<string>, repr: Renderer,
                                                 i: nat, c: nat, p: nat)
    requires i < |t.rows| && c < |cols| && p <= |kws|
    ensures Records(t, cols, kws, CellRecords(t, cols, kws, repr, i, c, p), CellHits(HitTest(t.rows, cols, kws, repr), i, c, p))
  {
    if p > 0 {
      CellRecordsAreRecords(t, cols, kws, repr, i, c, p - 1);
      CellStep(t, cols, kws, repr, i, c, p - 1, CellRecords(t, cols, kws, repr, i, c, p - 1));
    }
  }

  /** The hit test at one position of a cell with content is the keyword
      search in its text. */
  lemma {:induction false} HitTestAt(t: Table, cols: seq<string>, kws: seq<string>, repr: Renderer, i: nat, c: nat, k: nat)
    requires i < |t.rows| && c < |cols| && k < |kws| && CellText(t.rows[i], cols[c], repr) != ""
    ensures HitTest(t.rows, cols, kws, repr)(i, c, k) == Contains(CellText(t.rows[i], cols[c], repr), Lower(kws[k]))
  {
  }

  /** One keyword of the loop over a cell: a hit adds its record, and
      anything else adds nothing. */
  lemma {:induction false} CellStep(t: Table, cols: seq<string>, kws: seq<string>, repr: Renderer,
                                    i: nat, c: nat, k: nat, ms: seq<Match>)
    requires i < |t.rows| && c < |cols| && k < |kws|
    requires Records(t, cols, kws, ms, CellHits(HitTest(t.rows, cols, kws, repr), i, c, k))
    ensures Records(t, cols, kws,
                    ms + (if HitTest(t.rows, cols, kws, repr)(i, c, k) then [Match(kws[k], cols[c], Project(t.rows[i], t.columns))] else []),
                    CellHits(HitTest(t.rows, cols, kws, repr), i, c, k + 1))
  {
    var hit := HitTest(t.rows, cols, kws, repr);
    CellHitsNext(hit, i, c, k);
    if hit(i, c, k) {
      RecordsSnoc(t, cols, kws, ms, CellHits(hit, i, c, k), Hit(i, c, k));
    } else {
      assert ms + [] == ms;
    }
  }

  lemma {:induction false} CellHitsNext(hit: (nat, nat, nat) -> bool, i: nat, c: nat, p: nat)
    ensures CellHits(hit, i, c, p + 1) == CellHits(hit, i, c, p) + (if hit(i, c, p) then [Hit(i, c, p)] else [])
  {
  }

  lemma {:induction false} RowHitsNext(hit: (nat, nat, nat) -> bool, kn: nat, i: nat, m: nat)
    ensures RowHits(hit, kn, i, m + 1) == RowHits(hit, kn, i, m) + CellHits(hit, i, m, kn)
  {
  }

  lemma {:induction false} TableHitsNext(hit: (nat, nat, nat) -> bool, cn: nat, kn: nat, n: nat)
    ensures TableHits(hit, cn, kn, n + 1) == TableHits(hit, cn, kn, n) + RowHits(hit, kn, n, cn)
  {
  }

  /** A cell no keyword hits has no hits. */
  lemma {:induction false} EmptyCellHits(hit: (nat, nat, nat) -> bool, i: nat, c: nat, p: nat)
    requires forall k :: !hit(i, c, k)
    ensures CellHits(hit, i, c, p) == []
  {
    if p > 0 {
      EmptyCellHits(hit, i, c, p - 1);
    }
  }

  /** The result is empty exactly when no keyword occurs in any cell with
      content; the table is then the empty one. */
  lemma {:induction false} SearchInEmptyIff(t: Table, cols: seq<string>, kws: seq<string>, repr: Renderer)
    ensures SearchIn(t, cols, kws, repr).rows == [] <==>
              forall i, c, k :: 0 <= i < |t.rows| && 0 <= c < |cols| && 0 <= k < |kws| ==> !IsHit(t.rows[i], cols[c], kws[k], repr)
    ensures SearchIn(t, cols, kws, repr).rows == [] ==> SearchIn(t, cols, kws, repr) == Empty
  {
    var hits := Hits(t, cols, kws, repr);
    if hits != [] {
      assert HitTest(t.rows, cols, kws, repr)(hits[0].row, hits[0].column, hits[0].keyword);
    }
    if exists i, c, k :: 0 <= i < |t.rows| && 0 <= c < |cols| && 0 <= k < |kws| && IsHit(t.rows[i], cols[c], kws[k], repr) {
      var i, c, k :| 0 <= i < |t.rows| && 0 <= c < |cols| && 0 <= k < |kws| && IsHit(t.rows[i], cols[c], kws[k], repr);
      SearchInFindsHit(t, cols, kws, repr, i, c, k);
    }
  }

  /** Each output row comes from one hit: a row, a searched column and a
      keyword whose lower-case form occurs in the cell. It is that row as
      `iterrows` yields it, with the keyword as given and the column name. */
  lemma {:induction false} SearchInRowOf(t: Table, cols: seq<string>, kws: seq<string>, repr: Renderer, j: int)
    requires 0 <= j < |SearchIn(t, cols, kws, repr).rows|
    ensures exists i, c, k :: 0 <= i < |t.rows| && 0 <= c < |cols| && 0 <= k < |kws|
              && IsHit(t.rows[i], cols[c], kws[k], repr)
              && SearchIn(t, cols, kws, repr).rows[j] == OutputRow(Match(kws[k], cols[c], Project(t.rows[i], t.columns)))
  {
    var h := Hits(t, cols, kws, repr)[j];
    assert HitTest(t.rows, cols, kws, repr)(h.row, h.column, h.keyword);
  }

  /** Every hit is reported: for each row, searched column and keyword whose
      lower-case form occurs in a cell with content, some output row carries
      them. */
  lemma {:induction false} SearchInFindsHit(t: Table, cols: seq<string>, kws: seq<string>, repr: Renderer, i: int, c: int, k: int)
    requires 0 <= i < |t.rows| && 0 <= c < |cols| && 0 <= k < |kws|
    requires IsHit(t.rows[i], cols[c], kws[k], repr)
    ensures exists j :: 0 <= j < |SearchIn(t, cols, kws, repr).rows|
              && SearchIn(t, cols, kws, repr).rows[j] == OutputRow(Match(kws[k], cols[c], Project(t.rows[i], t.columns)))
  {
    var hits := Hits(t, cols, kws, repr);
    assert HitTest(t.rows, cols, kws, repr)(i, c, k);
    assert Hit(i, c, k) in hits;
    var j :| 0 <= j < |hits| && hits[j] == Hit(i, c, k);
    assert SearchIn(t, cols, kws, repr).rows[j] == OutputRow(MatchOf(t, cols, kws, hits[j]));
  }

  /** The output rows are the records of the hits, one each, and the hits come
      in the order of the loops: by row, then by searched column, then by
      keyword. */
  lemma {:induction false} SearchInOrdered(t: Table, cols: seq<string>, kws: seq<string>, repr: Renderer, j1: int, j2: int)
    requires 0 <= j1 < j2 < |SearchIn(t, cols, kws, repr).rows|
    ensures |Hits(t, cols, kws, repr)| == |SearchIn(t, cols, kws, repr).rows|
    ensures Before(Hits(t, cols, kws, repr)[j1], Hits(t, cols, kws, repr)[j2])
  {
  }

  /** A non-empty result starts with the two new columns, followed by the
      table's other columns in their order (`OtherColumns`, an order-keeping
      filter by `OtherColumnsAppend`). */
  lemma {:induction false} SearchInColumnsFirst(t: Table, cols: seq<string>, kws: seq<string>, repr: Renderer)
    requires SearchIn(t, cols, kws, repr).rows != []
    ensures SearchIn(t, cols, kws, repr).columns[..2] == [MatchedKeyword, MatchedColumn]
    ensures SearchIn(t, cols, kws, repr).columns[2..] == OtherColumns(t.columns)
    ensures forall c :: c in SearchIn(t, cols, kws, repr).columns[2..] <==> c in t.columns && c != MatchedKeyword && c != MatchedColumn
  {
  }

  /** An empty keyword (from a doubled or trailing comma) hits every cell with
      content, and no keyword hits a missing or null cell. */
  lemma {:induction false} EmptyKeywordHits(row: map<string, Json>, column: string, keyword: string, repr: Renderer)
    ensures IsHit(row, column, "", repr) <==> CellText(row, column, repr) != ""
    ensures IsHit(row, column, keyword, repr) ==> HasValue(row, column)
  {
    assert OccursAt(CellText(row, column, repr), Lower(""), 0);
  }
}
