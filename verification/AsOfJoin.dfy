/** Point-in-time funding checks: an as-of join by binary search, and the selection of one series. */
module AsOfJoin {
  import opened Prelude
  import opened Sorting

  const MaxGapNanos: nat := 90_000_000_000

  /** A funding observation: when it was received, when its source made it, and when funding next settles. */
  datatype Mark = Mark(received: nat, sourceMillis: nat, settlementMillis: nat)

  datatype Row = Row(series: nat, available: int, labelAvailable: int, features: map<string, real>)

  predicate ReceivedLe(a: Mark, b: Mark) {
    a.received <= b.received
  }

  // ----- The declarative verdict -----

  /** The latest observation received at or before `now`. */
  ghost predicate InForce(m: Mark, marks: seq<Mark>, now: int) {
    m in marks && m.received <= now && forall o :: o in marks && o.received <= now ==> o.received <= m.received
  }

  /** What a row demands of the observation in force: at most ninety seconds old on both clocks, not from the future, and settling after the label. */
  ghost predicate Applies(m: Mark, row: Row) {
    var source, settlement := m.sourceMillis * 1_000_000, m.settlementMillis * 1_000_000;
    && row.available <= m.received + 90_000_000_000
    && source <= row.available <= source + 90_000_000_000
    && row.labelAvailable < settlement <= 0xFFFF_FFFF_FFFF_FFFF
  }

  /** Both clocks are nanosecond counts from the epoch that fit a signed word. */
  ghost predicate RowOk(row: Row, marks: seq<Mark>) {
    && 0 <= row.available <= 0x7FFF_FFFF_FFFF_FFFF && 0 <= row.labelAvailable <= 0x7FFF_FFFF_FFFF_FFFF
    && exists m :: InForce(m, marks, row.available) && Applies(m, row)
  }

  ghost predicate DistinctClocks(marks: seq<Mark>) {
    forall i, j :: 0 <= i < j < |marks| ==> marks[i].received != marks[j].received
  }

  ghost predicate NoSettlement(rows: seq<Row>, marks: seq<Mark>) {
    DistinctClocks(marks) && forall i :: 0 <= i < |rows| ==> RowOk(rows[i], marks)
  }

  // ----- The implementation -----

  ghost predicate Ascending(marks: seq<Mark>) {
    forall i, j :: 0 <= i < j < |marks| ==> marks[i].received < marks[j].received
  }

  /** Binary search for the number of observations received by `now`. */
  method PartitionPoint(marks: seq<Mark>, now: int) returns (n: nat)
    requires Sorted(marks, ReceivedLe)
    ensures n <= |marks|
    ensures forall i :: 0 <= i < n ==> marks[i].received <= now
    ensures forall i :: n <= i < |marks| ==> marks[i].received > now
  {
    n := 0;
    var hi := |marks|;
    while n < hi
      invariant n <= hi <= |marks|
      invariant forall i :: 0 <= i < n ==> marks[i].received <= now
      invariant forall i :: hi <= i < |marks| ==> marks[i].received > now
    {
      var mid := (n + hi) / 2;
      if marks[mid].received <= now {
        forall i | 0 <= i < mid + 1 ensures marks[i].received <= now { assert i == mid || ReceivedLe(marks[i], marks[mid]); }
        n := mid + 1;
      } else {
        forall i | mid <= i < |marks| ensures marks[i].received > now { assert i == mid || ReceivedLe(marks[mid], marks[i]); }
        hi := mid;
      }
    }
  }

  method AllAscending(marks: seq<Mark>) returns (ok: bool)
    requires Sorted(marks, ReceivedLe)
    ensures ok <==> Ascending(marks)
  {
    var i := 1;
    while i < |marks|
      invariant 1 <= i
      invariant i <= |marks| || |marks| == 0
      invariant forall j, k :: 0 <= j < k < i && k < |marks| ==> marks[j].received < marks[k].received
    {
      if marks[i - 1].received >= marks[i].received { return false; }
      forall j | 0 <= j < i ensures marks[j].received < marks[i].received { assert j == i - 1 || ReceivedLe(marks[j], marks[i - 1]); }
      i := i + 1;
    }
    return true;
  }

  method CheckRow(row: Row, sorted: seq<Mark>) returns (ok: bool)
    requires Sorted(sorted, ReceivedLe) && Ascending(sorted)
    ensures ok <==> RowOk(row, sorted)
  {
    var now, end := row.available, row.labelAvailable;
    if now < 0 || now > MaxI64 || end < 0 || end > MaxI64 { return false; }
    var index := PartitionPoint(sorted, now);
    if index == 0 { return false; }
    var mark := sorted[index - 1];
    LastReceivedIsInForce(sorted, index, now);
    if now - mark.received > MaxGapNanos { return false; }
    var source := mark.sourceMillis * NanosPerMilli;
    if source > MaxU64 || source > now || now - source > MaxGapNanos { return false; }
    var settlement := mark.settlementMillis * NanosPerMilli;
    ok := settlement <= MaxU64 && settlement > end;
    assert InForce(mark, sorted, now) && (Applies(mark, row) <==> ok);
  }

  lemma LastReceivedIsInForce(sorted: seq<Mark>, n: nat, now: int)
    requires Ascending(sorted) && 0 < n <= |sorted|
    requires forall i :: 0 <= i < n ==> sorted[i].received <= now
    requires forall i :: n <= i < |sorted| ==> sorted[i].received > now
    ensures forall m :: InForce(m, sorted, now) <==> m == sorted[n - 1]
  {
    var last := sorted[n - 1];
    forall o | o in sorted && o.received <= now ensures o.received <= last.received && (o.received == last.received ==> o == last) {
      var k :| 0 <= k < |sorted| && sorted[k] == o;
      assert k == n - 1 || sorted[k].received < last.received;
    }
    assert last in sorted;
  }

  /** `verify_no_settlement`: sort, refuse equal clocks, then join every row. */
  method VerifyNoSettlement(rows: seq<Row>, marks: seq<Mark>) returns (ok: bool)
    ensures ok <==> NoSettlement(rows, marks)
  {
    var sorted := Sort(marks, ReceivedLe);
    SortedSuffices(rows, marks);
    ok := AllAscending(sorted);
    if !ok { return; }
    var i := 0;
    while i < |rows|
      invariant i <= |rows|
      invariant forall k :: 0 <= k < i ==> RowOk(rows[k], sorted)
    {
      ok := CheckRow(rows[i], sorted);
      if !ok { return; }
      i := i + 1;
    }
    return true;
  }

  lemma AscendingIffDistinct(sorted: seq<Mark>)
    requires Sorted(sorted, ReceivedLe)
    ensures Ascending(sorted) <==> DistinctClocks(sorted)
  {
    if DistinctClocks(sorted) {
      forall i, j | 0 <= i < j < |sorted| ensures sorted[i].received < sorted[j].received {
        assert ReceivedLe(sorted[i], sorted[j]);
      }
    }
  }

  lemma SortedSuffices(rows: seq<Row>, marks: seq<Mark>)
    ensures var sorted := Sort(marks, ReceivedLe);
            && Sorted(sorted, ReceivedLe)
            && (NoSettlement(rows, marks) <==> Ascending(sorted) && forall i :: 0 <= i < |rows| ==> RowOk(rows[i], sorted))
  {
    var sorted := Sort(marks, ReceivedLe);
    SortIsSorted(marks, ReceivedLe);
    OrderIsIrrelevant(rows, marks, sorted);
    AscendingIffDistinct(sorted);
  }

  // ----- Laws of the verdict -----

  lemma PermutedDistinct(a: seq<Mark>, b: seq<Mark>)
    requires multiset(a) == multiset(b) && DistinctClocks(a)
    ensures DistinctClocks(b)
  {
    SameMembers(a, b);
    forall i, j | 0 <= i < j < |b| ensures b[i].received != b[j].received {
      assert b[i] in a && b[j] in a;
      if b[i] == b[j] {
        CountTwo(b, i, j);
        var k, l := OccursTwice(a, b[i]);
      }
    }
  }

  /** A row's verdict depends only on the observations received by its decision clock. */
  lemma LaterMarksAreIrrelevant(row: Row, a: seq<Mark>, b: seq<Mark>)
    requires forall m: Mark :: m.received <= row.available ==> (m in a <==> m in b)
    ensures RowOk(row, a) <==> RowOk(row, b)
  {
    forall m ensures InForce(m, a, row.available) <==> InForce(m, b, row.available) {}
  }

  /** The verdict ignores the order in which observations are listed. */
  lemma OrderIsIrrelevant(rows: seq<Row>, a: seq<Mark>, b: seq<Mark>)
    requires multiset(a) == multiset(b)
    ensures DistinctClocks(a) <==> DistinctClocks(b)
    ensures NoSettlement(rows, a) <==> NoSettlement(rows, b)
  {
    SameMembers(a, b);
    if DistinctClocks(a) { PermutedDistinct(a, b); }
    if DistinctClocks(b) { PermutedDistinct(b, a); }
    forall i | 0 <= i < |rows| ensures RowOk(rows[i], a) <==> RowOk(rows[i], b) { LaterMarksAreIrrelevant(rows[i], a, b); }
  }

  /** Observations received after every decision clock change nothing, as long as their clocks are distinct too. */
  lemma FutureMarksAreIrrelevant(rows: seq<Row>, marks: seq<Mark>, later: seq<Mark>)
    requires DistinctClocks(marks + later)
    requires forall m, i :: m in later && 0 <= i < |rows| ==> m.received > rows[i].available
    ensures NoSettlement(rows, marks + later) <==> NoSettlement(rows, marks)
  {
    var all := marks + later;
    assert DistinctClocks(marks) by {
      forall i, j | 0 <= i < j < |marks| ensures marks[i].received != marks[j].received {
        assert all[i] == marks[i] && all[j] == marks[j];
      }
    }
    forall i | 0 <= i < |rows| ensures RowOk(rows[i], all) <==> RowOk(rows[i], marks) {
      LaterMarksAreIrrelevant(rows[i], all, marks);
    }
  }

  // ----- Selecting one series -----

  /** What the receipt keeps of the original rows; their digest is ideal, so it is the rows themselves. */
  datatype Selection = Selection(original: nat, inputRows: nat, first: nat, end: nat, digestOf: seq<Row>)

  ghost predicate Block(rows: seq<Row>, id: nat, first: nat, end: nat) {
    && first < end <= |rows|
    && forall i :: 0 <= i < |rows| ==> (rows[i].series == id <==> first <= i < end)
  }

  /** The rows of a block, relabelled as series 1 and otherwise unchanged, with the receipt that describes it. */
  ghost predicate Selects(rows: seq<Row>, id: nat, view: seq<Row>, receipt: Selection) {
    && receipt.original == id && receipt.inputRows == |rows| && Block(rows, id, receipt.first, receipt.end)
    && receipt.digestOf == rows[receipt.first..receipt.end] && |view| == receipt.end - receipt.first
    && forall i :: 0 <= i < |view| ==> view[i] == rows[receipt.first + i].(series := 1)
  }

  /**
   `select_series`: without a request the rows pass through without a receipt; with one it succeeds
   exactly when the positive id fills one nonempty run of rows.
   */
  method SelectSeries(rows: seq<Row>, selected: Option<nat>) returns (r: Option<(seq<Row>, Option<Selection>)>)
    ensures selected.None? ==> r == Some((rows, None))
    ensures selected.Some? ==> (r.Some? <==> selected.value > 0 && exists first, end :: Block(rows, selected.value, first, end))
    ensures selected.Some? && r.Some? ==> r.value.1.Some? && Selects(rows, selected.value, r.value.0, r.value.1.value)
  {
    if selected.None? { return Some((rows, None)); }
    var id := selected.value;
    if id == 0 { return None; }
    var first := 0;
    while first < |rows| && rows[first].series != id
      invariant first <= |rows|
      invariant forall i :: 0 <= i < first ==> rows[i].series != id
    {
      first := first + 1;
    }
    if first == |rows| {
      AbsentIsNoBlock(rows, id);
      return None;
    }
    var end := |rows|;
    while rows[end - 1].series != id
      invariant first < end <= |rows|
      invariant forall i :: end <= i < |rows| ==> rows[i].series != id
      decreases end
    {
      end := end - 1;
    }
    var i := first;
    while i < end
      invariant first <= i <= end
      invariant forall k :: first <= k < i ==> rows[k].series == id
    {
      if rows[i].series != id {
        NotABlock(rows, id, first, i, end - 1);
        return None;
      }
      i := i + 1;
    }
    assert Block(rows, id, first, end);
    var view := Relabelled(rows[first..end]);
    return Some((view, Some(Selection(id, |rows|, first, end, rows[first..end]))));
  }

  /** The loop that gives every row the local series id. */
  method Relabelled(rows: seq<Row>) returns (view: seq<Row>)
    ensures |view| == |rows| && forall i :: 0 <= i < |rows| ==> view[i] == rows[i].(series := 1)
  {
    view := rows;
    var i := 0;
    while i < |view|
      invariant i <= |view| == |rows|
      invariant forall k :: 0 <= k < i ==> view[k] == rows[k].(series := 1)
      invariant forall k :: i <= k < |rows| ==> view[k] == rows[k]
    {
      view := view[i := view[i].(series := 1)];
      i := i + 1;
    }
  }

  lemma AbsentIsNoBlock(rows: seq<Row>, id: nat)
    requires forall i :: 0 <= i < |rows| ==> rows[i].series != id
    ensures !exists first, end :: Block(rows, id, first, end)
  {
    forall first: nat, end: nat ensures !Block(rows, id, first, end) {
      assert first < |rows| ==> rows[first].series != id;
    }
  }

  lemma NotABlock(rows: seq<Row>, id: nat, a: nat, gap: nat, b: nat)
    requires a < gap < b < |rows| && rows[a].series == id && rows[gap].series != id && rows[b].series == id
    ensures !exists first, end :: Block(rows, id, first, end)
  {}
}
