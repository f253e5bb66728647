/** The data table of an AI answer (src/assets/components/TableCreator/TableCreator.js),
    for integer-valued columns: the header that picks the sort column and direction, the
    minimum-value filters, the sort that puts missing values last, and the filter input
    that only takes numeric text. */
module TableCreator {
  import opened Shared
  import opened JsText
  import opened JsArray

  /** A row: column name to value; a column without a value is `null` or `undefined`. */
  type Row = map<string, int>

  function Cell(row: Row, key: string): Option<int> {
    if key in row then Some(row[key]) else None
  }

  /** `formatIsError`: the flag `'1'` reads 'Failed', anything else 'Success'. */
  function FormatIsError(x: string): (text: string)
    ensures text == (if x == "1" then "Failed" else "Success")
  {
    if x == "1" then "Failed" else "Success"
  }

  // ---- Sort header ----

  datatype Direction = Asc | Desc

  /** `sortConfig`; both parts start `null`. */
  datatype SortConfig = SortConfig(key: Option<string>, direction: Option<Direction>)

  const NoSort := SortConfig(None, None)

  /** `handleSort(column)`: a new column sorts ascending; the current column flips between
      ascending and descending. */
  function HandleSort(prev: SortConfig, column: string): (next: SortConfig)
    ensures next.key == Some(column)
    ensures prev.key != Some(column) ==> next.direction == Some(Asc)
    ensures prev.key == Some(column) ==>
      next.direction == Some(if prev.direction == Some(Asc) then Desc else Asc)
  {
    SortConfig(Some(column),
      if prev.key == Some(column) then (if prev.direction == Some(Asc) then Some(Desc) else Some(Asc))
      else Some(Asc))
  }

  /** Pressing the same header twice comes back to ascending after the first press on it,
      and any press on the current column changes the direction. */
  lemma SameHeaderTwiceCycles(prev: SortConfig, column: string)
    ensures HandleSort(HandleSort(HandleSort(prev, column), column), column) == HandleSort(prev, column)
    ensures prev.key == Some(column) && prev.direction.Some? ==>
      HandleSort(prev, column).direction != prev.direction
  {
  }

  // ---- Filters ----

  /** A minimum-value filter on a column; `None` is a value `parseFloat` reads as `NaN`
      (the empty input included). */
  datatype NumFilter = NumFilter(name: string, value: Option<int>)

  /** `filters.every(...)`: each filter with a number drops rows that lack the column or
      hold less than the number. */
  predicate Passes(row: Row, filters: seq<NumFilter>) {
    forall k :: 0 <= k < |filters| ==>
      filters[k].value.None? ||
      (Cell(row, filters[k].name).Some? && Cell(row, filters[k].name).value >= filters[k].value.value)
  }

  /** `rows.filter(...)`. */
  function FilterRows(rows: seq<Row>, filters: seq<NumFilter>): (r: seq<Row>)
    ensures IsSublist(r, rows)
    ensures forall x :: x in r ==> x in rows && Passes(x, filters)
    ensures forall k :: 0 <= k < |rows| && Passes(rows[k], filters) ==> rows[k] in r
  {
    if rows == [] then []
    else
      var rest := FilterRows(rows[1..], filters);
      assert forall k :: 1 <= k < |rows| ==> rows[k] == rows[1..][k - 1];
      if Passes(rows[0], filters) then [rows[0]] + rest else rest
  }

  /** The filter keeps every passing row as often as the table holds it, and drops
      every other row. */
  lemma {:induction false} FilterRowsCounts(rows: seq<Row>, filters: seq<NumFilter>)
    ensures forall x ::
              multiset(FilterRows(rows, filters))[x] == if Passes(x, filters) then multiset(rows)[x] else 0
  {
    if rows != [] {
      FilterRowsCounts(rows[1..], filters);
      assert rows == [rows[0]] + rows[1..];
      assert multiset(rows) == multiset{rows[0]} + multiset(rows[1..]);
    }
  }

  /** Filters without a number keep every row, in order. */
  lemma {:induction false} BlankFiltersKeepAll(rows: seq<Row>, filters: seq<NumFilter>)
    requires forall k :: 0 <= k < |filters| ==> filters[k].value.None?
    ensures FilterRows(rows, filters) == rows
  {
    if rows != [] {
      BlankFiltersKeepAll(rows[1..], filters);
    }
  }

  /** A filter with a number drops every row that has no value in its column. */
  lemma FilterDropsMissing(rows: seq<Row>, filters: seq<NumFilter>, k: int, x: Row)
    requires 0 <= k < |filters| && filters[k].value.Some? && filters[k].name !in x
    ensures x !in FilterRows(rows, filters)
  {
  }

  // ---- Sort ----

  /** The comparator's order on cell values: numbers ascending, missing values after
      every number (and tied with each other). */
  predicate Le(a: Option<int>, b: Option<int>) {
    match a
    case None => b.None?
    case Some(x) => b.None? || x <= b.value
  }

  predicate SortedOn(s: seq<Row>, key: string) {
    forall i, j :: 0 <= i < j < |s| ==> Le(Cell(s[i], key), Cell(s[j], key))
  }

  /** `x` placed after the last element of `s` that does not come after it. */
  function InsertLast(s: seq<Row>, x: Row, key: string): (r: seq<Row>)
    ensures |r| == |s| + 1
  {
    if s == [] || Le(Cell(s[|s| - 1], key), Cell(x, key)) then s + [x]
    else InsertLast(s[..|s| - 1], x, key) + [s[|s| - 1]]
  }

  /** The insertion adds `x` once and keeps every row of `s` as often. */
  lemma {:induction false} InsertLastAddsOne(s: seq<Row>, x: Row, key: string)
    ensures multiset(InsertLast(s, x, key)) == multiset(s) + multiset{x}
    decreases |s|
  {
    if s != [] && !Le(Cell(s[|s| - 1], key), Cell(x, key)) {
      InsertLastAddsOne(s[..|s| - 1], x, key);
      assert s == s[..|s| - 1] + [s[|s| - 1]];
    }
  }

  /** The stable ascending sort: each row in turn is inserted after the rows before it
      that do not come after it. */
  function SortByKey(s: seq<Row>, key: string): (r: seq<Row>)
    ensures |r| == |s|
  {
    if s == [] then [] else InsertLast(SortByKey(s[..|s| - 1], key), s[|s| - 1], key)
  }

  lemma {:induction false} InsertLastSorted(s: seq<Row>, x: Row, key: string)
    requires SortedOn(s, key)
    ensures SortedOn(InsertLast(s, x, key), key)
    decreases |s|
  {
    if s == [] || Le(Cell(s[|s| - 1], key), Cell(x, key)) {
      var r := s + [x];
      forall i, j | 0 <= i < j < |r| ensures Le(Cell(r[i], key), Cell(r[j], key)) {
        if j == |s| && i < |s| - 1 {
          assert Le(Cell(s[i], key), Cell(s[|s| - 1], key));
        }
      }
    } else {
      var init := s[..|s| - 1];
      assert SortedOn(init, key);
      InsertLastSorted(init, x, key);
      var m := InsertLast(init, x, key);
      var r := m + [s[|s| - 1]];
      InsertLastAddsOne(init, x, key);
      forall i | 0 <= i < |m| ensures Le(Cell(m[i], key), Cell(s[|s| - 1], key)) {
        assert m[i] in multiset(m);
        if m[i] == x {
        } else {
          assert m[i] in multiset(init);
          var t :| 0 <= t < |init| && init[t] == m[i];
          assert Le(Cell(s[t], key), Cell(s[|s| - 1], key));
        }
      }
      forall i, j | 0 <= i < j < |r| ensures Le(Cell(r[i], key), Cell(r[j], key)) {
        if j < |m| {
          assert r[i] == m[i] && r[j] == m[j];
        } else {
          assert r[i] == m[i];
        }
      }
    }
  }

  /** The sort orders the non-missing values non-decreasingly, puts every row without a
      value after all rows with one, and keeps every row exactly as often. */
  lemma {:induction false} SortByKeySortsAndPermutes(s: seq<Row>, key: string)
    ensures SortedOn(SortByKey(s, key), key)
    ensures multiset(SortByKey(s, key)) == multiset(s)
    ensures var r := SortByKey(s, key);
      forall i, j :: 0 <= i < j < |r| && Cell(r[j], key).Some? ==>
        Cell(r[i], key).Some? && Cell(r[i], key).value <= Cell(r[j], key).value
  {
    if s != [] {
      SortByKeySortsAndPermutes(s[..|s| - 1], key);
      InsertLastSorted(SortByKey(s[..|s| - 1], key), s[|s| - 1], key);
      InsertLastAddsOne(SortByKey(s[..|s| - 1], key), s[|s| - 1], key);
      assert s == s[..|s| - 1] + [s[|s| - 1]];
    }
  }

  /** `filteredAndSortedRows`: filter, then sort when a key is set, reversed for `desc`. */
  function FilteredAndSorted(rows: seq<Row>, filters: seq<NumFilter>, config: SortConfig): seq<Row> {
    var filtered := FilterRows(rows, filters);
    if Truthy(config.key) then
      var asc := SortByKey(filtered, config.key.value);
      if config.direction == Some(Desc) then Reversed(asc) else asc
    else filtered
  }

  /** Without a sort key the filtered rows keep their order; a descending sort is the
      ascending one reversed, so it holds the same rows. */
  lemma SortDirections(rows: seq<Row>, filters: seq<NumFilter>, key: string)
    ensures FilteredAndSorted(rows, filters, NoSort) == FilterRows(rows, filters)
    ensures key != "" ==>
      FilteredAndSorted(rows, filters, SortConfig(Some(key), Some(Desc)))
        == Reversed(FilteredAndSorted(rows, filters, SortConfig(Some(key), Some(Asc))))
    ensures multiset(FilteredAndSorted(rows, filters, SortConfig(Some(key), Some(Desc))))
        == multiset(FilterRows(rows, filters))
  {
    var f := FilterRows(rows, filters);
    SortByKeySortsAndPermutes(f, key);
    ReversedSameElements(SortByKey(f, key));
  }

  /** Where `InsertLast` puts `x`: after a prefix whose last row does not come after
      `x`, in front of a suffix whose rows all come after it. */
  lemma {:induction false} InsertLastAt(s: seq<Row>, x: Row, key: string, j: int)
    requires 0 <= j <= |s|
    requires j == 0 || Le(Cell(s[j - 1], key), Cell(x, key))
    requires forall k :: j <= k < |s| ==> !Le(Cell(s[k], key), Cell(x, key))
    ensures InsertLast(s, x, key) == s[..j] + [x] + s[j..]
    decreases |s|
  {
    if j < |s| {
      var init, last := s[..|s| - 1], s[|s| - 1];
      assert !Le(Cell(last, key), Cell(x, key));
      assert j > 0 ==> init[j - 1] == s[j - 1];
      assert forall k :: j <= k < |init| ==> init[k] == s[k];
      InsertLastAt(init, x, key, j);
      calc {
        InsertLast(s, x, key);
        InsertLast(init, x, key) + [last];
        init[..j] + [x] + init[j..] + [last];
        { assert init[..j] == s[..j]; }
        s[..j] + [x] + (init[j..] + [last]);
        { assert init[j..] + [last] == s[j..]; }
        s[..j] + [x] + s[j..];
      }
    } else {
      assert s[..j] == s;
    }
  }

  /** The inner loop of the insertion sort: the rows of `a[..i]` that come after `a[i]`
      move one place up, leaving a gap at the returned index. */
  method ShiftLarger(a: array<Row>, i: int, key: string, ghost sorted: seq<Row>) returns (j: int)
    requires 0 <= i < a.Length && a[..i] == sorted
    modifies a
    ensures 0 <= j <= i
    ensures a[..j] == sorted[..j] && a[j + 1..i + 1] == sorted[j..] && a[i + 1..] == old(a[i + 1..])
    ensures j == 0 || Le(Cell(sorted[j - 1], key), Cell(old(a[i]), key))
    ensures forall k :: j <= k < i ==> !Le(Cell(sorted[k], key), Cell(old(a[i]), key))
  {
    var x := a[i];
    j := i;
    while j > 0 && !Le(Cell(a[j - 1], key), Cell(x, key))
      invariant 0 <= j <= i
      invariant a[..j] == sorted[..j]
      invariant a[j + 1..i + 1] == sorted[j..]
      invariant a[i + 1..] == old(a[i + 1..])
      invariant forall k :: j <= k < i ==> !Le(Cell(sorted[k], key), Cell(x, key))
    {
      assert a[j - 1] == sorted[j - 1];
      a[j] := a[j - 1];
      j := j - 1;
      assert a[j + 1..i + 1] == [sorted[j]] + sorted[j + 1..];
    }
    assert j > 0 ==> a[j - 1] == sorted[j - 1];
  }

  /** `a[i]` moved back past the rows of `a[..i]` that come after it: one step of the
      insertion sort. */
  method InsertStep(a: array<Row>, i: int, key: string, ghost sorted: seq<Row>)
    requires 0 <= i < a.Length && a[..i] == sorted
    modifies a
    ensures a[..i + 1] == InsertLast(sorted, old(a[i]), key)
    ensures a[i + 1..] == old(a[i + 1..])
  {
    var x := a[i];
    var j := ShiftLarger(a, i, key, sorted);
    InsertLastAt(sorted, x, key, j);
    ghost var pre := a[..];
    a[j] := x;
    assert a[..] == pre[j := x];
    FillGap(pre, sorted, x, i, j);
  }

  /** Writing `x` into the gap that `ShiftLarger` leaves gives the insertion. */
  lemma FillGap(pre: seq<Row>, sorted: seq<Row>, x: Row, i: int, j: int)
    requires 0 <= j <= i < |pre| && |sorted| == i
    requires pre[..j] == sorted[..j] && pre[j + 1..i + 1] == sorted[j..]
    ensures pre[j := x][..i + 1] == sorted[..j] + [x] + sorted[j..]
    ensures pre[j := x][i + 1..] == pre[i + 1..]
  {
    var w := pre[j := x];
    forall k | 0 <= k < i + 1 ensures w[k] == (sorted[..j] + [x] + sorted[j..])[k] {
      if k < j {
        assert w[k] == pre[..j][k];
      } else if k > j {
        assert w[k] == pre[j + 1..i + 1][k - j - 1];
      }
    }
  }

  /** `result.sort(comparator)` on the array in place. */
  method SortInPlace(a: array<Row>, key: string)
    modifies a
    ensures a[..] == SortByKey(old(a[..]), key)
  {
    var i := 0;
    while i < a.Length
      invariant 0 <= i <= a.Length
      invariant a[..i] == SortByKey(old(a[..])[..i], key)
      invariant a[i..] == old(a[i..])
    {
      ghost var prefix := old(a[..])[..i + 1];
      assert prefix[..i] == old(a[..])[..i];
      InsertStep(a, i, key, a[..i]);
      i := i + 1;
    }
    assert old(a[..])[..a.Length] == old(a[..]);
  }

  /** `filteredAndSortedRows` as the source computes it: filter into a new array, sort
      it in place, and reverse it in place for `desc`. */
  method FilterAndSortRows(rows: seq<Row>, filters: seq<NumFilter>, config: SortConfig) returns (r: seq<Row>)
    ensures r == FilteredAndSorted(rows, filters, config)
  {
    var filtered := FilterRows(rows, filters);
    var a := new Row[|filtered|](k requires 0 <= k < |filtered| => filtered[k]);
    assert a[..] == filtered;
    if Truthy(config.key) {
      SortInPlace(a, config.key.value);
      if config.direction == Some(Desc) {
        ReverseInPlace(a);
      }
    }
    r := a[..];
  }

  // ---- Number filter input ----

  /** `/^-?\d*\.?\d*$/` splits `t` (the text after an optional `-`) at `i`: digits before,
      then either the end or a `.` followed by digits. */
  predicate DecimalSplitAt(t: string, i: int) {
    0 <= i <= |t| && AllDigits(t[..i]) && (i == |t| || (t[i] == '.' && AllDigits(t[i + 1..])))
  }

  function Unsigned(raw: string): string {
    if raw != "" && raw[0] == '-' then raw[1..] else raw
  }

  /** The `onChangeText` guard of the number filter: `rawVal === ''` or the pattern. */
  predicate NumberInputAccepts(raw: string) {
    raw == "" || exists i | 0 <= i <= |Unsigned(raw)| :: DecimalSplitAt(Unsigned(raw), i)
  }

  /** `raw` reads as the pattern's pieces: an optional `-`, digits, an optional `.`, digits. */
  predicate NumberSplit(raw: string, sign: string, whole: string, dot: string, frac: string) {
    && raw == sign + whole + dot + frac
    && (sign == "" || sign == "-") && (dot == "" || dot == ".")
    && AllDigits(whole) && AllDigits(frac)
    && (dot == "" ==> frac == "")
  }

  lemma AllDigitsSlice(s: string, lo: int, hi: int)
    requires AllDigits(s) && 0 <= lo <= hi <= |s|
    ensures AllDigits(s[lo..hi])
  {
    forall k | 0 <= k < hi - lo ensures IsAsciiDigit(s[lo..hi][k]) {
      assert s[lo..hi][k] == s[lo + k];
    }
  }

  /** A non-empty input is its optional `-` followed by the rest. */
  lemma SignSplit(raw: string)
    requires raw != ""
    ensures raw == (if raw[0] == '-' then "-" else "") + Unsigned(raw)
  {
    if raw[0] == '-' {
      assert raw == [raw[0]] + raw[1..];
    }
  }

  /** Text split at `i`: the part before, then the end or `.` and the part after. */
  lemma DotSplit(t: string, i: int)
    requires 0 <= i <= |t| && (i == |t| || t[i] == '.')
    ensures i == |t| ==> t == t[..i]
    ensures i < |t| ==> t == t[..i] + "." + t[i + 1..]
  {
    if i < |t| {
      assert t == t[..i] + [t[i]] + t[i + 1..];
    }
  }

  lemma Regroup(raw: string, sign: string, t: string, whole: string, dot: string, frac: string)
    requires raw == sign + t && t == whole + dot + frac
    ensures raw == sign + whole + dot + frac
  {
    assert sign + (whole + dot + frac) == sign + whole + dot + frac;
  }

  lemma AcceptedSplits(raw: string) returns (sign: string, whole: string, dot: string, frac: string)
    requires NumberInputAccepts(raw)
    ensures NumberSplit(raw, sign, whole, dot, frac)
  {
    if raw == "" {
      sign, whole, dot, frac := "", "", "", "";
      return;
    }
    var t := Unsigned(raw);
    var i :| 0 <= i <= |t| && DecimalSplitAt(t, i);
    SignSplit(raw);
    DotSplit(t, i);
    sign := if raw[0] == '-' then "-" else "";
    whole := t[..i];
    if i == |t| {
      dot, frac := "", "";
      assert t == whole + dot + frac;
    } else {
      dot, frac := ".", t[i + 1..];
    }
    Regroup(raw, sign, t, whole, dot, frac);
  }

  lemma SplitAccepted(raw: string, sign: string, whole: string, dot: string, frac: string)
    requires NumberSplit(raw, sign, whole, dot, frac)
    ensures NumberInputAccepts(raw)
  {
    if raw != "" {
      var t := whole + dot + frac;
      if sign == "-" {
        assert raw[0] == '-' && raw[1..] == t;
      } else {
        assert raw == t;
      }
      assert Unsigned(raw) == t;
      var i := |whole|;
      assert t[..i] == whole;
      if dot == "." {
        assert t[i] == '.' && t[i + 1..] == frac;
      } else {
        assert t == whole;
      }
      assert DecimalSplitAt(t, i);
    }
  }

  /** The number filter takes exactly the text made of an optional `-`, digits, an
      optional `.`, and digits (each run possibly empty). */
  lemma NumberInputShape(raw: string)
    ensures NumberInputAccepts(raw) <==>
      exists sign, whole, dot, frac :: NumberSplit(raw, sign, whole, dot, frac)
  {
    if NumberInputAccepts(raw) {
      var sign, whole, dot, frac := AcceptedSplits(raw);
    }
    if exists sign, whole, dot, frac :: NumberSplit(raw, sign, whole, dot, frac) {
      var sign, whole, dot, frac :| NumberSplit(raw, sign, whole, dot, frac);
      SplitAccepted(raw, sign, whole, dot, frac);
    }
  }
}
