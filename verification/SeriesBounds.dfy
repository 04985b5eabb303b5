/** The one-pass check that feature rows match the series declared by a replay snapshot. Clocks are integer nanoseconds. */
module SeriesBounds {
  import opened Prelude

  datatype Row = Row(series: nat, eventTime: int, availableTime: int, labelTime: int, features: map<string, real>)

  datatype Declared = Declared(series: nat, first: int, last: int)

  datatype Bounds = Bounds(first: int, last: int, lastLabel: int)

  /** The label horizon in milliseconds, when it is representable. */
  function HorizonMillis(buckets: nat, bucketMillis: nat): Option<nat> {
    if buckets <= MaxU64 && bucketMillis * buckets <= MaxI64 then Some(bucketMillis * buckets) else None
  }

  // ----- The declarative verdict -----

  /** A row is decided when its features are available, and has no forbidden feature. */
  ghost predicate RowOk(row: Row, forbidden: seq<string>) {
    row.availableTime == row.eventTime && forall f :: f in forbidden ==> f !in row.features
  }

  /** The last row in list order, among the rows of a series at its latest event time, is row `k`. */
  ghost predicate ClosesSeries(rows: seq<Row>, id: nat, k: int) {
    && 0 <= k < |rows| && rows[k].series == id
    && forall i :: 0 <= i < |rows| && rows[i].series == id ==>
         rows[i].eventTime <= rows[k].eventTime && (i > k ==> rows[i].eventTime < rows[k].eventTime)
  }

  ghost predicate OpensSeries(rows: seq<Row>, id: nat, k: int) {
    0 <= k < |rows| && rows[k].series == id && forall i :: 0 <= i < |rows| && rows[i].series == id ==> rows[k].eventTime <= rows[i].eventTime
  }

  /** The true bounds of a series: earliest and latest event times, and the label time of its closing row. */
  ghost predicate IsBounds(b: Bounds, rows: seq<Row>, id: nat) {
    && (exists k :: OpensSeries(rows, id, k) && rows[k].eventTime == b.first)
    && (exists k :: ClosesSeries(rows, id, k) && rows[k].eventTime == b.last && rows[k].labelTime == b.lastLabel)
  }

  /** The declared bounds are the true ones, and the closing label is one horizon after the last event, if that instant exists. */
  ghost predicate Matches(d: Declared, b: Bounds, horizonMillis: nat) {
    d.first == b.first && d.last == b.last && b.lastLabel - d.last == horizonMillis * 1_000_000 && b.lastLabel <= MaxInstant
  }

  /** The rows of the declared series have true bounds that match the declaration. */
  ghost predicate HasBounds(d: Declared, rows: seq<Row>, horizonMillis: nat) {
    exists b :: IsBounds(b, rows, d.series) && Matches(d, b, horizonMillis)
  }

  ghost predicate Present(rows: seq<Row>, id: nat) {
    exists i :: 0 <= i < |rows| && rows[i].series == id
  }

  function Ids(declared: seq<Declared>): (ids: seq<nat>)
    ensures |ids| == |declared| && forall i :: 0 <= i < |ids| ==> ids[i] == declared[i].series
  {
    seq(|declared|, i requires 0 <= i < |declared| => declared[i].series)
  }

  ghost predicate Agrees(declared: seq<Declared>, rows: seq<Row>, horizonMillis: nat, forbidden: seq<string>) {
    && Distinct(Ids(declared)) && (forall id :: id in Ids(declared) <==> Present(rows, id))
    && (forall i :: 0 <= i < |declared| ==> HasBounds(declared[i], rows, horizonMillis))
    && (forall i :: 0 <= i < |rows| ==> RowOk(rows[i], forbidden))
  }

  // ----- One pass over the rows -----

  ghost predicate Summarizes(actual: map<nat, Bounds>, rows: seq<Row>) {
    forall id :: (id in actual <==> Present(rows, id)) && (id in actual ==> IsBounds(actual[id], rows, id))
  }

  function Widen(b: Bounds, row: Row): Bounds {
    Bounds(if row.eventTime < b.first then row.eventTime else b.first,
           if row.eventTime >= b.last then row.eventTime else b.last,
           if row.eventTime >= b.last then row.labelTime else b.lastLabel)
  }

  function Entered(actual: map<nat, Bounds>, row: Row): map<nat, Bounds> {
    actual[row.series := if row.series in actual then Widen(actual[row.series], row)
                         else Bounds(row.eventTime, row.eventTime, row.labelTime)]
  }

  lemma OpensGrown(rows: seq<Row>, row: Row, id: nat, k: int)
    requires OpensSeries(rows, id, k)
    ensures OpensSeries(rows + [row], id, if row.series == id && row.eventTime < rows[k].eventTime then |rows| else k)
  {}

  lemma ClosesGrown(rows: seq<Row>, row: Row, id: nat, k: int)
    requires ClosesSeries(rows, id, k)
    ensures ClosesSeries(rows + [row], id, if row.series == id && row.eventTime >= rows[k].eventTime then |rows| else k)
  {}

  lemma BoundsGrown(b: Bounds, rows: seq<Row>, row: Row, id: nat)
    requires IsBounds(b, rows, id)
    ensures IsBounds(if row.series == id then Widen(b, row) else b, rows + [row], id)
  {
    var k :| OpensSeries(rows, id, k) && rows[k].eventTime == b.first;
    var l :| ClosesSeries(rows, id, l) && rows[l].eventTime == b.last && rows[l].labelTime == b.lastLabel;
    OpensGrown(rows, row, id, k);
    ClosesGrown(rows, row, id, l);
  }

  lemma FirstRowOfSeries(rows: seq<Row>, row: Row)
    requires !Present(rows, row.series)
    ensures IsBounds(Bounds(row.eventTime, row.eventTime, row.labelTime), rows + [row], row.series)
  {
    var all := rows + [row];
    assert OpensSeries(all, row.series, |rows|) && ClosesSeries(all, row.series, |rows|);
  }

  lemma PresentGrown(rows: seq<Row>, row: Row, id: nat)
    ensures Present(rows + [row], id) <==> Present(rows, id) || row.series == id
  {
    var all := rows + [row];
    assert all[|rows|] == row;
    if Present(rows, id) {
      var i :| 0 <= i < |rows| && rows[i].series == id;
      assert all[i].series == id;
    }
    if Present(all, id) {
      var i :| 0 <= i < |all| && all[i].series == id;
      assert i < |rows| ==> rows[i].series == id;
    }
  }

  lemma EnteredSummarizes(actual: map<nat, Bounds>, rows: seq<Row>, row: Row)
    requires Summarizes(actual, rows)
    ensures Summarizes(Entered(actual, row), rows + [row])
  {
    var next := Entered(actual, row);
    forall id ensures (id in next <==> Present(rows + [row], id)) && (id in next ==> IsBounds(next[id], rows + [row], id)) {
      PresentGrown(rows, row, id);
      if id in actual {
        BoundsGrown(actual[id], rows, row, id);
      } else if id == row.series {
        FirstRowOfSeries(rows, row);
      }
    }
  }

  lemma NextRowSummarizes(actual: map<nat, Bounds>, rows: seq<Row>, i: nat)
    requires i < |rows| && Summarizes(actual, rows[..i])
    ensures Summarizes(Entered(actual, rows[i]), rows[..i + 1])
  {
    EnteredSummarizes(actual, rows[..i], rows[i]);
    assert rows[..i + 1] == rows[..i] + [rows[i]];
  }

  method EnterRow(bounds: map<nat, Bounds>, row: Row) returns (next: map<nat, Bounds>)
    ensures next == Entered(bounds, row)
  {
    if row.series !in bounds { return bounds[row.series := Bounds(row.eventTime, row.eventTime, row.labelTime)]; }
    var series := bounds[row.series];
    if row.eventTime < series.first { series := series.(first := row.eventTime); }
    if row.eventTime >= series.last { series := series.(last := row.eventTime, lastLabel := row.labelTime); }
    return bounds[row.series := series];
  }

  method CheckRow(row: Row, forbidden: seq<string>) returns (ok: bool)
    ensures ok <==> RowOk(row, forbidden)
  {
    if row.availableTime != row.eventTime { return false; }
    var i := 0;
    while i < |forbidden|
      invariant i <= |forbidden|
      invariant forall k :: 0 <= k < i ==> forbidden[k] !in row.features
    {
      if forbidden[i] in row.features {
        assert forbidden[i] in forbidden;
        return false;
      }
      i := i + 1;
    }
    return true;
  }

  /** `validate_series_matches_rows`. */
  method CheckSeries(expected: Declared, actual: Bounds, horizonMillis: nat) returns (ok: bool)
    ensures ok <==> Matches(expected, actual, horizonMillis)
  {
    if expected.first != actual.first || expected.last != actual.last { return false; }
    var close := expected.last + horizonMillis * NanosPerMilli;
    if close > MaxInstant { return false; }
    return actual.lastLabel == close;
  }

  /** The map after all rows, or None when some row breaks the row rules. */
  method CollectBounds(rows: seq<Row>, forbidden: seq<string>) returns (actual: Option<map<nat, Bounds>>)
    ensures actual.Some? <==> forall i :: 0 <= i < |rows| ==> RowOk(rows[i], forbidden)
    ensures actual.Some? ==> Summarizes(actual.value, rows)
  {
    var bounds: map<nat, Bounds> := map[];
    var i := 0;
    while i < |rows|
      invariant i <= |rows| && Summarizes(bounds, rows[..i])
      invariant forall k :: 0 <= k < i ==> RowOk(rows[k], forbidden)
    {
      var ok := CheckRow(rows[i], forbidden);
      if !ok { return None; }
      NextRowSummarizes(bounds, rows, i);
      bounds := EnterRow(bounds, rows[i]);
      i := i + 1;
    }
    assert rows[..|rows|] == rows;
    return Some(bounds);
  }

  lemma SameClosing(rows: seq<Row>, id: nat, k: int, l: int)
    requires ClosesSeries(rows, id, k) && ClosesSeries(rows, id, l)
    ensures k == l
  {
    assert rows[k].eventTime <= rows[l].eventTime && rows[l].eventTime <= rows[k].eventTime;
  }

  lemma SameOpening(rows: seq<Row>, id: nat, k: int, l: int)
    requires OpensSeries(rows, id, k) && OpensSeries(rows, id, l)
    ensures rows[k].eventTime == rows[l].eventTime
  {
    assert rows[k].eventTime <= rows[l].eventTime && rows[l].eventTime <= rows[k].eventTime;
  }

  /** Bounds are determined by the rows. */
  lemma BoundsUnique(a: Bounds, b: Bounds, rows: seq<Row>, id: nat)
    requires IsBounds(a, rows, id) && IsBounds(b, rows, id)
    ensures a == b
  {
    var ka :| ClosesSeries(rows, id, ka) && rows[ka].eventTime == a.last && rows[ka].labelTime == a.lastLabel;
    var kb :| ClosesSeries(rows, id, kb) && rows[kb].eventTime == b.last && rows[kb].labelTime == b.lastLabel;
    SameClosing(rows, id, ka, kb);
    var oa :| OpensSeries(rows, id, oa) && rows[oa].eventTime == a.first;
    var ob :| OpensSeries(rows, id, ob) && rows[ob].eventTime == b.first;
    SameOpening(rows, id, oa, ob);
  }

  // ----- Then every declared series takes its entry out -----

  ghost predicate Taken(declared: seq<Declared>, actual: map<nat, Bounds>, horizonMillis: nat) {
    Distinct(Ids(declared))
    && forall i :: 0 <= i < |declared| ==> declared[i].series in actual && Matches(declared[i], actual[declared[i].series], horizonMillis)
  }

  method MatchDeclared(declared: seq<Declared>, actual: map<nat, Bounds>, horizonMillis: nat) returns (ok: bool)
    ensures ok <==> Taken(declared, actual, horizonMillis)
  {
    var remaining := actual;
    var i := 0;
    while i < |declared|
      invariant i <= |declared| && Taken(declared[..i], actual, horizonMillis)
      invariant forall id :: id in remaining <==> id in actual && id !in Ids(declared[..i])
      invariant forall id :: id in remaining ==> remaining[id] == actual[id]
    {
      var expected := declared[i];
      ghost var done := declared[..i];
      assert declared[..i + 1] == done + [expected];
      if expected.series !in remaining {
        NotTaken(declared, actual, horizonMillis, i);
        return false;
      }
      var matches := CheckSeries(expected, remaining[expected.series], horizonMillis);
      if !matches { return false; }
      TakenOneMore(done, expected, actual, horizonMillis);
      IdsOneMore(done, expected);
      remaining := map id | id in remaining && id != expected.series :: remaining[id];
      i := i + 1;
    }
    assert declared[..|declared|] == declared;
    return true;
  }

  lemma IdsOneMore(done: seq<Declared>, d: Declared)
    ensures Ids(done + [d]) == Ids(done) + [d.series]
  {}

  lemma TakenOneMore(done: seq<Declared>, d: Declared, actual: map<nat, Bounds>, horizonMillis: nat)
    requires Taken(done, actual, horizonMillis) && d.series in actual && d.series !in Ids(done)
    requires Matches(d, actual[d.series], horizonMillis)
    ensures Taken(done + [d], actual, horizonMillis)
  {
    IdsOneMore(done, d);
  }

  lemma NotTaken(declared: seq<Declared>, actual: map<nat, Bounds>, horizonMillis: nat, i: nat)
    requires i < |declared| && (declared[i].series !in actual || declared[i].series in Ids(declared[..i]))
    ensures !Taken(declared, actual, horizonMillis)
  {
    if declared[i].series in actual {
      var k :| 0 <= k < i && Ids(declared[..i])[k] == declared[i].series;
      assert Ids(declared)[k] == Ids(declared)[i];
    }
  }

  lemma TakenAgrees(declared: seq<Declared>, rows: seq<Row>, actual: map<nat, Bounds>, horizonMillis: nat)
    requires Summarizes(actual, rows) && |actual| == |declared| && Taken(declared, actual, horizonMillis)
    ensures forall id :: id in Ids(declared) <==> Present(rows, id)
    ensures forall i :: 0 <= i < |declared| ==> HasBounds(declared[i], rows, horizonMillis)
  {
    var ids := Members(Ids(declared));
    DistinctSize(Ids(declared));
    assert ids <= actual.Keys && |actual.Keys| == |actual|;
    SameSizeSubset(ids, actual.Keys);
    forall id ensures id in Ids(declared) <==> Present(rows, id) {
      assert id in ids <==> id in actual.Keys;
    }
    forall i | 0 <= i < |declared| ensures HasBounds(declared[i], rows, horizonMillis) {
      assert IsBounds(actual[declared[i].series], rows, declared[i].series);
    }
  }

  lemma OneTaken(d: Declared, rows: seq<Row>, actual: map<nat, Bounds>, horizonMillis: nat)
    requires Summarizes(actual, rows) && Present(rows, d.series) && HasBounds(d, rows, horizonMillis)
    ensures d.series in actual && Matches(d, actual[d.series], horizonMillis)
  {
    var b :| IsBounds(b, rows, d.series) && Matches(d, b, horizonMillis);
    BoundsUnique(b, actual[d.series], rows, d.series);
  }

  lemma AsManyKeys(declared: seq<Declared>, rows: seq<Row>, actual: map<nat, Bounds>)
    requires Summarizes(actual, rows) && Distinct(Ids(declared)) && forall id :: id in Ids(declared) <==> Present(rows, id)
    ensures |actual| == |declared|
  {
    var ids := Members(Ids(declared));
    DistinctSize(Ids(declared));
    assert ids == actual.Keys by {
      forall id ensures id in ids <==> id in actual.Keys { assert id in Ids(declared) <==> Present(rows, id); }
    }
    assert |actual.Keys| == |actual|;
  }

  lemma AgreesTaken(declared: seq<Declared>, rows: seq<Row>, actual: map<nat, Bounds>, horizonMillis: nat, forbidden: seq<string>)
    requires Summarizes(actual, rows) && Agrees(declared, rows, horizonMillis, forbidden)
    ensures |actual| == |declared| && Taken(declared, actual, horizonMillis)
  {
    AsManyKeys(declared, rows, actual);
    forall i | 0 <= i < |declared|
      ensures declared[i].series in actual && Matches(declared[i], actual[declared[i].series], horizonMillis)
    {
      assert Ids(declared)[i] in Ids(declared);
      OneTaken(declared[i], rows, actual, horizonMillis);
    }
  }

  /** With equally many of each, taking every entry out succeeds exactly when declaration and rows agree. */
  lemma TakenIffAgrees(declared: seq<Declared>, rows: seq<Row>, actual: map<nat, Bounds>, horizonMillis: nat, forbidden: seq<string>)
    requires Summarizes(actual, rows) && forall i :: 0 <= i < |rows| ==> RowOk(rows[i], forbidden)
    ensures Agrees(declared, rows, horizonMillis, forbidden) <==> |actual| == |declared| && Taken(declared, actual, horizonMillis)
  {
    if |actual| == |declared| && Taken(declared, actual, horizonMillis) { TakenAgrees(declared, rows, actual, horizonMillis); }
    if Agrees(declared, rows, horizonMillis, forbidden) { AgreesTaken(declared, rows, actual, horizonMillis, forbidden); }
  }

  /** `validate_cex_replay_feature_rows`, after the metadata has passed. */
  method ValidateFeatureRows(declared: seq<Declared>, rows: seq<Row>, horizonBuckets: nat, bucketMillis: nat) returns (ok: bool)
    ensures ok <==> horizonBuckets <= 0xFFFF_FFFF_FFFF_FFFF && bucketMillis * horizonBuckets <= 0x7FFF_FFFF_FFFF_FFFF
                    && Agrees(declared, rows, bucketMillis * horizonBuckets, ["funding_cost_bps", "funding_rate", "open_interest"])
  {
    var horizon := HorizonMillis(horizonBuckets, bucketMillis);
    if horizon.None? { return false; }
    var forbidden := ["funding_cost_bps", "funding_rate", "open_interest"];
    var actual := CollectBounds(rows, forbidden);
    if actual.None? { return false; }
    TakenIffAgrees(declared, rows, actual.value, horizon.value, forbidden);
    if |actual.value| != |declared| { return false; }
    ok := MatchDeclared(declared, actual.value, horizon.value);
  }
}
