/**
 The evaluation protocol and its UTC calendar: boundaries are resolved from decision clocks,
 bound into a protocol, and turned into row partitions. Row counts are 64-bit and every sum is
 checked; clocks are integer nanoseconds.
 */
module Calendar {
  import opened Prelude

  datatype WalkForward = WalkForward(
    initialTrain: nat, validation: nat, folds: nat, purge: nat, embargo: nat, holdout: nat)

  datatype Costs = Costs(
    fee: real, rebate: real, funding: real, latency: real, slippage: real, crossSpread: bool,
    notional: real, depthLevels: nat, depthFraction: real)

  datatype Labels = Labels(horizon: nat, millis: nat)

  datatype Version = V1 | V2 | V3 | UnknownVersion(text: string)

  datatype Calendar = Calendar(start: int, developEnd: int, validationEnd: int, end: int)

  datatype Binding = Binding(calendar: Calendar, totalRows: nat, developEndRow: nat, validationEndRow: nat)

  datatype Protocol = Protocol(
    version: Version, walk: WalkForward, costs: Costs, labels: Labels, selection: Option<nat>, calendar: Option<Binding>)

  // ----- Checked arithmetic -----

  function Plus(a: Option<nat>, b: nat): Option<nat> {
    if a.Some? && a.value + b <= MaxU64 then Some(a.value + b) else None
  }

  function Minus(a: Option<nat>, b: nat): Option<nat> {
    if a.Some? && b <= a.value then Some(a.value - b) else None
  }

  function Times(a: Option<nat>, b: nat): Option<nat> {
    if a.Some? && a.value * b <= MaxU64 then Some(a.value * b) else None
  }

  // ----- Validation -----

  predicate CostsValid(c: Costs) {
    && c.fee >= 0.0 && c.rebate >= 0.0 && c.funding >= 0.0 && c.latency >= 0.0 && c.slippage >= 0.0
    && (|| (c.notional == 0.0 && c.depthLevels == 0 && c.depthFraction == 0.0)
        || (c.notional > 0.0 && c.depthLevels > 0 && 0.0 < c.depthFraction <= 1.0))
  }

  predicate CalendarValid(c: Calendar) {
    c.start < c.developEnd < c.validationEnd < c.end
  }

  /** Rows up to the end of the last development fold. */
  function SearchEnd(w: WalkForward): Option<nat> {
    Plus(Plus(Times(Plus(Some(w.validation), w.embargo), w.folds), w.initialTrain), w.purge)
  }

  function ScheduleEnd(w: WalkForward): Option<nat> {
    Plus(SearchEnd(w), w.holdout)
  }

  predicate BindingFits(b: Binding, p: Protocol) {
    && CalendarValid(b.calendar) && 0 < b.developEndRow < b.validationEndRow < b.totalRows
    && b.totalRows - b.validationEndRow == p.walk.holdout
    && p.selection.Some? && Minus(Minus(Some(b.validationEndRow), p.walk.purge), p.selection.value) == Some(b.developEndRow)
  }

  predicate VersionValid(p: Protocol) {
    match p.version
    case V1 => p.selection.None? && p.calendar.None?
    case UnknownVersion(_) => false
    case _ =>
      && p.selection.Some? && p.selection.value > 0
      && (if p.calendar.Some? then BindingFits(p.calendar.value, p) && p.version == V3 else p.version == V2)
      && Times(Some(p.walk.purge), 2).Some?
      && Plus(Plus(ScheduleEnd(p.walk), p.selection.value), Times(Some(p.walk.purge), 2).value).Some?
  }

  predicate ProtocolValid(p: Protocol) {
    && CostsValid(p.costs) && VersionValid(p)
    && p.walk.initialTrain > 0 && p.walk.validation > 0 && p.walk.folds > 0 && p.walk.holdout > 0
    && p.labels.horizon > 0 && p.labels.millis > 0 && p.walk.purge >= p.labels.horizon
    && ScheduleEnd(p.walk).Some?
  }

  function Validated(p: Protocol): Option<Protocol> {
    if ProtocolValid(p) then Some(p) else None
  }

  // ----- Resolving a calendar against decision clocks -----

  /** How many leading elements are below `t`: `partition_point` on a sorted sequence. */
  function LeadingBelow(s: seq<int>, t: int): (n: nat)
    ensures n <= |s|
    ensures n < |s| ==> s[n] >= t
    ensures forall i :: 0 <= i < n ==> s[i] < t
  {
    if s == [] || s[0] >= t then 0 else 1 + LeadingBelow(s[1..], t)
  }

  /** Neighbouring clocks are one step apart. */
  predicate StepAt(clocks: seq<int>, i: nat, step: int)
    requires i + 1 < |clocks|
  {
    clocks[i + 1] - clocks[i] == step
  }

  predicate EvenlySpaced(clocks: seq<int>, step: int) {
    forall i :: 0 <= i < |clocks| - 1 ==> StepAt(clocks, i, step)
  }

  /** The materializer drops at most two leading buckets and `horizon + 1` trailing ones. */
  predicate CoversCalendar(c: Calendar, clocks: seq<int>, labels: Labels) {
    && 0 < labels.millis && labels.millis * 2 <= MaxI64
    && labels.horizon + 1 <= MaxI64 && (labels.horizon + 1) * labels.millis <= MaxI64
    && c.start + labels.millis * 2 * NanosPerMilli <= MaxInstant
    && c.end - (labels.horizon + 1) * labels.millis * NanosPerMilli >= MinInstant
    && |clocks| > 0
    && c.start <= clocks[0] <= c.start + labels.millis * 2 * NanosPerMilli
    && c.end - (labels.horizon + 1) * labels.millis * NanosPerMilli <= clocks[|clocks| - 1] < c.end
    && EvenlySpaced(clocks, labels.millis * NanosPerMilli)
  }

  function Resolve(c: Calendar, clocks: seq<int>, labels: Labels): Option<Binding> {
    if !CalendarValid(c) || !CoversCalendar(c, clocks, labels) then None
    else
      var b := Binding(c, |clocks|, LeadingBelow(clocks, c.developEnd), LeadingBelow(clocks, c.validationEnd));
      if 0 < b.developEndRow < b.validationEndRow < b.totalRows then Some(b) else None
  }

  // ----- Binding it into a protocol -----

  /** The schedule and the selection rows that a binding leaves: expanding folds over development, then selection, the rest sealed. */
  function BoundWalk(b: Binding, w: WalkForward): Option<(WalkForward, nat)> {
    var search := Minus(Some(b.developEndRow), w.purge);
    var embargoed := Times(Some(w.folds), w.embargo);
    var doubled := Times(Some(w.folds), 2);
    if search.None? || embargoed.None? || doubled.None? || doubled.value == 0 then None
    else
      var usable := Minus(Minus(search, w.purge), embargoed.value);
      if usable.None? || usable.value / doubled.value == 0 then None
      else
        var validation := usable.value / doubled.value;
        var validated := Times(Some(w.folds), validation);
        var selection := Minus(Minus(Some(b.validationEndRow), w.purge), b.developEndRow);
        if validated.None? || Minus(usable, validated.value).None? || selection.None? || selection.value == 0 then None
        else if b.totalRows <= b.validationEndRow then None
        else
          var walk := w.(initialTrain := usable.value - validated.value, validation := validation,
                         holdout := b.totalRows - b.validationEndRow);
          Some((walk, selection.value))
  }

  function Bind(b: Binding, p: Protocol): Option<Protocol> {
    var bound := BoundWalk(b, p.walk);
    if !CalendarValid(b.calendar) || bound.None? then None
    else Validated(p.(walk := bound.value.0, selection := Some(bound.value.1), calendar := Some(b), version := V3))
  }

  // ----- Row partitions -----

  datatype Partitions = Partitions(searchEnd: nat, selection: Option<(nat, nat)>, holdoutStart: nat, rows: nat)

  function RowPartitions(p: Protocol, rows: nat): Option<Partitions> {
    if !ProtocolValid(p) || (p.calendar.Some? && p.calendar.value.totalRows != rows) || rows < p.walk.holdout then None
    else
      var holdoutStart := rows - p.walk.holdout;
      var end := Minus(Some(holdoutStart), p.walk.purge);
      var start := if p.selection.Some? then Minus(end, p.selection.value) else None;
      var searchEnd := if p.selection.Some? then Minus(start, p.walk.purge) else Some(holdoutStart);
      if searchEnd.None? || SearchEnd(p.walk).None? || SearchEnd(p.walk).value > searchEnd.value then None
      else
        var selection := if p.selection.Some? then Some((start.value, end.value)) else None;
        Some(Partitions(searchEnd.value, selection, holdoutStart, rows))
  }

  // ----- Laws -----

  /** Binding records its calendar and leaves the label specification, costs, purge, embargo and folds alone. */
  lemma BindKeeps(b: Binding, p: Protocol)
    ensures Bind(b, p).Some? ==>
              var q := Bind(b, p).value;
              && ProtocolValid(q) && q.calendar == Some(b) && q.labels == p.labels && q.costs == p.costs
              && q.walk.purge == p.walk.purge && q.walk.embargo == p.walk.embargo && q.walk.folds == p.walk.folds
  {}

  lemma ResolveKeeps(c: Calendar, clocks: seq<int>, labels: Labels)
    ensures Resolve(c, clocks, labels).Some? ==>
              var b := Resolve(c, clocks, labels).value; b.calendar == c && b.totalRows == |clocks|
  {}

  lemma {:induction false} EvenClocks(clocks: seq<int>, step: int, i: nat, j: nat)
    requires EvenlySpaced(clocks, step) && i <= j < |clocks|
    ensures clocks[j] == clocks[i] + (j - i) * step
    decreases j - i
  {
    if i < j {
      EvenClocks(clocks, step, i, j - 1);
      assert StepAt(clocks, j - 1, step);
    }
  }

  /** The development folds end exactly where the purge before the development boundary starts. */
  lemma FoldsFillDevelopment(usable: nat, folds: nat, validation: nat, embargo: nat, purge: nat)
    requires folds * validation <= usable
    ensures (validation + embargo) * folds + (usable - folds * validation) + purge == usable + folds * embargo + purge
  {
    assert (validation + embargo) * folds == folds * validation + folds * embargo;
  }

  /** A bound protocol always partitions its rows, and the boundaries are the calendar's own rows. */
  lemma BoundPartitions(b: Binding, p: Protocol)
    requires Bind(b, p).Some?
    ensures var q := Bind(b, p).value;
            && q.selection == Some(b.validationEndRow - q.walk.purge - b.developEndRow)
            && RowPartitions(q, b.totalRows)
               == Some(Partitions(b.developEndRow - q.walk.purge, Some((b.developEndRow, b.validationEndRow - q.walk.purge)),
                                  b.validationEndRow, b.totalRows))
            && SearchEnd(q.walk) == Some(b.developEndRow - q.walk.purge)
  {
    BindKeeps(b, p);
    var w := p.walk;
    var usable := b.developEndRow - w.purge - w.purge - w.folds * w.embargo;
    var validation := usable / (w.folds * 2);
    FoldsFillDevelopment(usable, w.folds, validation, w.embargo, w.purge);
  }

  /** Rows before a boundary, less the purge, have labels that mature before it. */
  lemma MaturesBefore(clocks: seq<int>, step: int, boundary: int, horizon: nat, purge: nat, i: nat)
    requires EvenlySpaced(clocks, step) && horizon <= purge && i + purge < LeadingBelow(clocks, boundary)
    ensures clocks[i] + horizon * step < boundary
  {
    EvenClocks(clocks, step, i, i + horizon);
    assert i + horizon < LeadingBelow(clocks, boundary);
  }

  lemma AtOrAfter(clocks: seq<int>, step: int, boundary: int, i: nat)
    requires EvenlySpaced(clocks, step) && step > 0 && LeadingBelow(clocks, boundary) <= i < |clocks|
    ensures boundary <= clocks[i]
  {
    ClocksAscend(clocks, step, LeadingBelow(clocks, boundary), i);
  }

  lemma {:induction false} ClocksAscend(clocks: seq<int>, step: int, i: nat, j: nat)
    requires EvenlySpaced(clocks, step) && step > 0 && i <= j < |clocks|
    ensures clocks[i] <= clocks[j]
    decreases j - i
  {
    if i < j {
      ClocksAscend(clocks, step, i, j - 1);
      assert StepAt(clocks, j - 1, step);
    }
  }

  /** The three views of a partition, in clock terms. */
  ghost predicate ViewsApart(c: Calendar, clocks: seq<int>, maturity: int, parts: Partitions) {
    && parts.selection.Some?
    && var (from, to) := parts.selection.value;
    && parts.searchEnd < from < to < parts.holdoutStart < |clocks|
    && (forall i :: 0 <= i < parts.searchEnd ==> clocks[i] + maturity < c.developEnd)
    && (forall i :: from <= i < to ==> c.developEnd <= clocks[i] && clocks[i] + maturity < c.validationEnd)
    && (forall i :: parts.holdoutStart <= i < |clocks| ==> c.validationEnd <= clocks[i])
  }

  lemma RowsApart(c: Calendar, clocks: seq<int>, step: int, horizon: nat, purge: nat)
    requires EvenlySpaced(clocks, step) && step > 0 && 0 < horizon <= purge
    requires var d, v := LeadingBelow(clocks, c.developEnd), LeadingBelow(clocks, c.validationEnd);
             purge < d && d + purge < v < |clocks|
    ensures var d, v := LeadingBelow(clocks, c.developEnd), LeadingBelow(clocks, c.validationEnd);
            ViewsApart(c, clocks, horizon * step, Partitions(d - purge, Some((d, v - purge)), v, |clocks|))
  {
    var d, v := LeadingBelow(clocks, c.developEnd), LeadingBelow(clocks, c.validationEnd);
    forall i | 0 <= i < d - purge ensures clocks[i] + horizon * step < c.developEnd {
      MaturesBefore(clocks, step, c.developEnd, horizon, purge, i);
    }
    forall i | d <= i < v - purge ensures c.developEnd <= clocks[i] && clocks[i] + horizon * step < c.validationEnd {
      AtOrAfter(clocks, step, c.developEnd, i);
      MaturesBefore(clocks, step, c.validationEnd, horizon, purge, i);
    }
    forall i | v <= i < |clocks| ensures c.validationEnd <= clocks[i] {
      AtOrAfter(clocks, step, c.validationEnd, i);
    }
  }

  /**
   No leakage. Search rows are decided, and their labels mature, strictly before the development
   boundary; selection rows lie in the validation window and their labels mature strictly before
   the sealed rows begin; sealed rows all lie at or after the validation boundary.
   */
  lemma CalendarKeepsViewsApart(c: Calendar, clocks: seq<int>, p: Protocol)
    requires Resolve(c, clocks, p.labels).Some? && Bind(Resolve(c, clocks, p.labels).value, p).Some?
    ensures var q := Bind(Resolve(c, clocks, p.labels).value, p).value;
            && RowPartitions(q, |clocks|).Some?
            && ViewsApart(c, clocks, p.labels.horizon * (p.labels.millis * NanosPerMilli), RowPartitions(q, |clocks|).value)
  {
    var b := Resolve(c, clocks, p.labels).value;
    BindKeeps(b, p);
    BoundPartitions(b, p);
    BoundRows(b, p);
    RowsApart(c, clocks, p.labels.millis * NanosPerMilli, p.labels.horizon, p.walk.purge);
  }

  lemma BoundRows(b: Binding, p: Protocol)
    requires Bind(b, p).Some?
    ensures p.walk.purge < b.developEndRow && b.developEndRow + p.walk.purge < b.validationEndRow < b.totalRows
    ensures 0 < p.labels.horizon <= p.walk.purge
  {
    BindKeeps(b, p);
  }

  /** Half of the usable development rows, rounded down, is validated in the folds; all the rest trains first. */
  lemma BoundFolds(b: Binding, p: Protocol)
    requires Bind(b, p).Some?
    ensures var w := Bind(b, p).value.walk;
            var usable := b.developEndRow - w.purge - w.purge - w.folds * w.embargo;
            && w.folds * w.validation * 2 <= usable < w.folds * w.validation * 2 + w.folds * 2
            && w.initialTrain == usable - w.folds * w.validation && w.holdout == b.totalRows - b.validationEndRow
  {
    BindKeeps(b, p);
    var w := p.walk;
    var usable := b.developEndRow - w.purge - w.purge - w.folds * w.embargo;
    QuotientBounds(usable, w.folds * 2);
    var n := usable / (w.folds * 2);
    assert (w.folds * 2) * n == w.folds * n * 2;
  }

  lemma QuotientBounds(u: nat, d: nat)
    requires d > 0
    ensures d * (u / d) <= u < d * (u / d) + d
  {}

  // ----- What validity and partitions mean, without checked arithmetic -----

  /** Rows up to the end of the last fold. */
  ghost function FoldRows(w: WalkForward): nat {
    (w.validation + w.embargo) * w.folds + w.initialTrain + w.purge
  }

  lemma SearchEndIff(w: WalkForward)
    requires w.folds > 0
    ensures SearchEnd(w) == if FoldRows(w) <= MaxU64 then Some(FoldRows(w)) else None
  {
    ProductAtLeast(w.validation + w.embargo, w.folds);
  }

  /** The rows reserved after the search view: the selection window between two purges, and the sealed rows. */
  ghost function Reserved(p: Protocol): nat {
    p.walk.holdout + if p.selection.Some? then p.selection.value + p.walk.purge + p.walk.purge else 0
  }

  /** A binding whose windows are exactly the protocol's: development, selection and purge, sealed rows. */
  ghost predicate WindowsMatch(b: Binding, p: Protocol) {
    && b.calendar.start < b.calendar.developEnd && b.calendar.developEnd < b.calendar.validationEnd
    && b.calendar.validationEnd < b.calendar.end && b.developEndRow > 0 && p.selection.Some?
    && b.validationEndRow == b.developEndRow + p.selection.value + p.walk.purge && b.developEndRow < b.validationEndRow
    && b.totalRows == b.validationEndRow + p.walk.holdout
  }

  ghost predicate CostsMean(c: Costs) {
    && c.fee >= 0.0 && c.rebate >= 0.0 && c.funding >= 0.0 && c.latency >= 0.0 && c.slippage >= 0.0
    && if c.notional == 0.0 then c.depthLevels == 0 && c.depthFraction == 0.0
       else c.notional > 0.0 && c.depthLevels > 0 && 0.0 < c.depthFraction && c.depthFraction <= 1.0
  }

  /** A protocol is valid exactly when its costs, counts and version agree and all its rows together are representable. */
  lemma ProtocolValidIff(p: Protocol)
    ensures ProtocolValid(p)
            <==> && CostsMean(p.costs)
                 && p.walk.initialTrain > 0 && p.walk.validation > 0 && p.walk.folds > 0 && p.walk.holdout > 0
                 && 0 < p.labels.horizon <= p.walk.purge && p.labels.millis > 0
                 && FoldRows(p.walk) + Reserved(p) <= MaxU64
                 && match p.version
                    case V1 => p.selection == None && p.calendar == None
                    case V2 => p.selection.Some? && p.selection.value > 0 && p.calendar == None
                    case V3 => p.selection.Some? && p.selection.value > 0 && p.calendar.Some? && WindowsMatch(p.calendar.value, p)
                    case UnknownVersion(_) => false
  {
    if p.walk.folds > 0 { SearchEndIff(p.walk); }
    if p.calendar.Some? { BindingFitsIff(p.calendar.value, p); }
  }

  lemma BindingFitsIff(b: Binding, p: Protocol)
    ensures BindingFits(b, p) && p.walk.holdout > 0 <==> WindowsMatch(b, p) && p.walk.holdout > 0
  {}

  /** Rows are partitioned exactly when the protocol is valid, made for this many, and its folds fit before what is reserved; the views then tile the rows. */
  lemma PartitionsMean(p: Protocol, rows: nat)
    ensures RowPartitions(p, rows).Some?
            <==> ProtocolValid(p) && (p.calendar.Some? ==> p.calendar.value.totalRows == rows) && FoldRows(p.walk) + Reserved(p) <= rows
    ensures RowPartitions(p, rows).Some? ==>
              var v := RowPartitions(p, rows).value;
              && v.rows == rows && v.holdoutStart + p.walk.holdout == rows
              && (p.selection.None? ==> v.selection == None && v.searchEnd == v.holdoutStart)
              && (p.selection.Some? ==>
                    && v.selection == Some((v.searchEnd + p.walk.purge, v.holdoutStart - p.walk.purge))
                    && v.searchEnd + p.walk.purge + p.selection.value + p.walk.purge == v.holdoutStart)
  {
    if p.walk.folds > 0 { SearchEndIff(p.walk); }
  }

  // ----- Exactly when a calendar resolves -----

  lemma EvenlySpacedIff(clocks: seq<int>, step: int)
    requires |clocks| > 0
    ensures EvenlySpaced(clocks, step) <==> forall i :: 0 <= i < |clocks| ==> clocks[i] == clocks[0] + i * step
  {
    if EvenlySpaced(clocks, step) {
      forall i | 0 <= i < |clocks| ensures clocks[i] == clocks[0] + i * step { EvenClocks(clocks, step, 0, i); }
    }
    if forall i :: 0 <= i < |clocks| ==> clocks[i] == clocks[0] + i * step {
      forall i | 0 <= i < |clocks| - 1 ensures StepAt(clocks, i, step) {
        assert clocks[i + 1] == clocks[0] + (i + 1) * step && clocks[i] == clocks[0] + i * step;
        assert (i + 1) * step == i * step + step;
      }
    }
  }

  /** The three windows of a calendar each contain a decision clock. */
  ghost predicate WindowsUsed(c: Calendar, clocks: seq<int>) {
    && |clocks| > 0 && clocks[0] < c.developEnd && c.validationEnd <= clocks[|clocks| - 1]
    && exists i :: 0 <= i < |clocks| && c.developEnd <= clocks[i] < c.validationEnd
  }

  lemma RowsUseWindows(c: Calendar, clocks: seq<int>, step: int, d: nat, v: nat)
    requires EvenlySpaced(clocks, step) && step > 0 && d == LeadingBelow(clocks, c.developEnd) && v == LeadingBelow(clocks, c.validationEnd)
    requires 0 < d < v < |clocks|
    ensures WindowsUsed(c, clocks)
  {
    AtOrAfter(clocks, step, c.validationEnd, |clocks| - 1);
    assert c.developEnd <= clocks[d] < c.validationEnd;
  }

  lemma WindowsGiveRows(c: Calendar, clocks: seq<int>, step: int, i: nat, d: nat, v: nat)
    requires EvenlySpaced(clocks, step) && step > 0 && d == LeadingBelow(clocks, c.developEnd) && v == LeadingBelow(clocks, c.validationEnd)
    requires i < |clocks| && c.developEnd <= clocks[i] < c.validationEnd
    requires clocks[0] < c.developEnd && c.validationEnd <= clocks[|clocks| - 1]
    ensures 0 < d < v < |clocks|
  {
    if v <= i { AtOrAfter(clocks, step, c.validationEnd, i); }
  }

  lemma WindowsUsedIff(c: Calendar, clocks: seq<int>, step: int)
    requires |clocks| > 0 && EvenlySpaced(clocks, step) && step > 0
    ensures 0 < LeadingBelow(clocks, c.developEnd) < LeadingBelow(clocks, c.validationEnd) < |clocks| <==> WindowsUsed(c, clocks)
  {
    var d, v := LeadingBelow(clocks, c.developEnd), LeadingBelow(clocks, c.validationEnd);
    if 0 < d < v < |clocks| { RowsUseWindows(c, clocks, step, d, v); }
    if WindowsUsed(c, clocks) {
      var i :| 0 <= i < |clocks| && c.developEnd <= clocks[i] < c.validationEnd;
      WindowsGiveRows(c, clocks, step, i, d, v);
    }
  }

  /**
   A calendar resolves exactly when its boundaries ascend, its arithmetic is representable, the clocks
   step by one bucket from at most two buckets after the start to within `horizon + 1` buckets of the
   end, and every window holds a clock.
   */
  lemma ResolveIff(c: Calendar, clocks: seq<int>, labels: Labels)
    ensures Resolve(c, clocks, labels).Some?
            <==> && c.start < c.developEnd && c.developEnd < c.validationEnd && c.validationEnd < c.end
                 && labels.millis > 0 && labels.millis * 2 <= MaxI64 && (labels.horizon + 1) * labels.millis <= MaxI64
                 && c.start + 2 * (labels.millis * NanosPerMilli) <= MaxInstant
                 && MinInstant <= c.end - (labels.horizon + 1) * (labels.millis * NanosPerMilli)
                 && WindowsUsed(c, clocks)
                 && 0 <= clocks[0] - c.start <= 2 * (labels.millis * NanosPerMilli)
                 && 0 < c.end - clocks[|clocks| - 1] <= (labels.horizon + 1) * (labels.millis * NanosPerMilli)
                 && (forall i :: 0 <= i < |clocks| ==> clocks[i] == clocks[0] + i * (labels.millis * NanosPerMilli))
  {
    var step := labels.millis * NanosPerMilli;
    BucketsInNanos(labels);
    if |clocks| > 0 && labels.millis > 0 {
      EvenlySpacedIff(clocks, step);
      if EvenlySpaced(clocks, step) && CalendarValid(c) { WindowsUsedIff(c, clocks, step); }
    }
  }

  lemma BucketsInNanos(labels: Labels)
    ensures (labels.horizon + 1) * labels.millis * NanosPerMilli == (labels.horizon + 1) * (labels.millis * NanosPerMilli)
    ensures labels.millis * 2 * NanosPerMilli == 2 * (labels.millis * NanosPerMilli)
    ensures labels.millis > 0 ==> labels.horizon + 1 <= (labels.horizon + 1) * labels.millis
  {
    if labels.millis > 0 { ProductAtLeast(labels.horizon + 1, labels.millis); }
  }

  // ----- Exactly when binding succeeds -----

  lemma Quotient(u: nat, d: nat)
    requires d > 0
    ensures u / d > 0 <==> u >= d
    ensures 0 <= d * (u / d) <= u
  {}

  /** A quotient of at least one, and what it uses up. */
  lemma ShareOf(usable: nat, folds: nat)
    requires folds > 0
    ensures usable / (folds * 2) > 0 <==> usable >= folds * 2
    ensures folds * (usable / (folds * 2)) <= usable
    ensures usable >= folds * 2 ==> folds * (usable / (folds * 2)) < usable
  {
    var n := usable / (folds * 2);
    Quotient(usable, folds * 2);
    assert (folds * 2) * n == folds * n + folds * n;
    assert n > 0 ==> folds * n > 0;
  }

  lemma ProductAtLeast(a: nat, f: nat)
    requires f > 0
    ensures a <= a * f
  {}

  /** Checked sums do not overflow when the plain sum fits. */
  lemma SearchEndIs(w: WalkForward, product: nat)
    requires w.folds > 0 && product == (w.validation + w.embargo) * w.folds
    requires product + w.initialTrain + w.purge <= MaxU64
    ensures SearchEnd(w) == Some(product + w.initialTrain + w.purge)
  {
    ProductAtLeast(w.validation + w.embargo, w.folds);
  }

  /** The row arithmetic of a bound protocol never overflows: everything adds up to the total. */
  lemma BoundRowsAddUp(p: Protocol, b: Binding, walk: WalkForward, search: nat)
    requires ProtocolValid(p) && b.totalRows <= MaxU64 && CalendarValid(b.calendar)
    requires SearchEnd(walk) == Some(search) && search + walk.purge == b.developEndRow
    requires walk.purge == p.walk.purge && walk.folds > 0 && walk.validation > 0 && walk.initialTrain > 0
    requires walk.holdout == b.totalRows - b.validationEndRow
    requires b.developEndRow + walk.purge < b.validationEndRow < b.totalRows
    ensures ProtocolValid(p.(walk := walk, selection := Some(b.validationEndRow - walk.purge - b.developEndRow),
                             calendar := Some(b), version := V3))
  {}

  /** Development holds two purges, the embargoes and two rows a fold, and every window is left nonempty. */
  predicate LeavesRoom(b: Binding, w: WalkForward) {
    && 2 * w.purge + w.folds * w.embargo + 2 * w.folds <= b.developEndRow
    && b.developEndRow + w.purge < b.validationEndRow < b.totalRows
  }

  function RoomyWalk(b: Binding, w: WalkForward): WalkForward
    requires LeavesRoom(b, w) && w.folds > 0
  {
    var usable := b.developEndRow - w.purge - w.purge - w.folds * w.embargo;
    ShareOf(usable, w.folds);
    var validation := usable / (w.folds * 2);
    w.(initialTrain := usable - w.folds * validation, validation := validation, holdout := b.totalRows - b.validationEndRow)
  }

  lemma RoomGivesWalk(b: Binding, w: WalkForward)
    requires LeavesRoom(b, w) && w.folds > 0 && b.totalRows <= MaxU64
    ensures BoundWalk(b, w) == Some((RoomyWalk(b, w), b.validationEndRow - w.purge - b.developEndRow))
  {
    ShareOf(b.developEndRow - w.purge - w.purge - w.folds * w.embargo, w.folds);
  }

  lemma RoomyWalkEnds(b: Binding, w: WalkForward)
    requires LeavesRoom(b, w) && w.folds > 0 && b.totalRows <= MaxU64
    ensures var walk := RoomyWalk(b, w);
            walk.initialTrain > 0 && walk.validation > 0 && SearchEnd(walk) == Some(b.developEndRow - w.purge)
  {
    var usable := b.developEndRow - w.purge - w.purge - w.folds * w.embargo;
    ShareOf(usable, w.folds);
    var walk := RoomyWalk(b, w);
    FoldsFillDevelopment(usable, w.folds, walk.validation, w.embargo, w.purge);
    SearchEndIs(walk, (walk.validation + w.embargo) * w.folds);
  }

  lemma RoomSuffices(b: Binding, p: Protocol)
    requires ProtocolValid(p) && b.totalRows <= MaxU64 && CalendarValid(b.calendar) && LeavesRoom(b, p.walk)
    ensures Bind(b, p).Some?
  {
    RoomGivesWalk(b, p.walk);
    RoomyWalkEnds(b, p.walk);
    BoundRowsAddUp(p, b, RoomyWalk(b, p.walk), b.developEndRow - p.walk.purge);
  }

  /** A valid protocol binds to a calendar exactly when its rows leave room. */
  lemma BindSucceedsIff(b: Binding, p: Protocol)
    requires ProtocolValid(p) && b.totalRows <= MaxU64
    ensures Bind(b, p).Some? <==> CalendarValid(b.calendar) && LeavesRoom(b, p.walk)
  {
    if CalendarValid(b.calendar) && LeavesRoom(b, p.walk) {
      RoomSuffices(b, p);
    } else if Bind(b, p).Some? {
      BoundRows(b, p);
      ShareOf(b.developEndRow - p.walk.purge - p.walk.purge - p.walk.folds * p.walk.embargo, p.walk.folds);
    }
  }

  lemma LeadingBelowIs(clocks: seq<int>, step: int, t: int, n: nat)
    requires EvenlySpaced(clocks, step) && step > 0 && n < |clocks| && clocks[n] >= t && (n > 0 ==> clocks[n - 1] < t)
    ensures LeadingBelow(clocks, t) == n
  {
    var m := LeadingBelow(clocks, t);
    if m < n { ClocksAscend(clocks, step, m, n - 1); }
  }

  const Second: int := 1_000_000_000

  /** Eight hours of one-second decision clocks, without two warm-up rows and the label tail. */
  function EightHours(start: int, horizon: nat): seq<int>
    requires horizon < 28_798
  {
    seq(28_798 - horizon, i => start + (i + 2) * Second)
  }

  lemma {:induction false} EightHoursResolve(start: int, horizon: nat, c: Calendar)
    requires MinInstant + 28_800 * Second <= start <= MaxInstant - 28_800 * Second && 0 < horizon <= 30
    requires c == Calendar(start, start + 14_400 * Second, start + 21_600 * Second, start + 28_800 * Second)
    ensures Resolve(c, EightHours(start, horizon), Labels(horizon, 1_000)) == Some(Binding(c, 28_798 - horizon, 14_398, 21_598))
  {
    var clocks := EightHours(start, horizon);
    assert EvenlySpaced(clocks, Second);
    assert clocks[14_398] == c.developEnd && clocks[14_397] < c.developEnd;
    assert clocks[21_598] == c.validationEnd && clocks[21_597] < c.validationEnd;
    LeadingBelowIs(clocks, Second, c.developEnd, 14_398);
    LeadingBelowIs(clocks, Second, c.validationEnd, 21_598);
  }

  /** The registered 5, 10 and 30 second horizons all resolve a four/two/two hour calendar at its own rows, and bind. */
  lemma {:induction false} RegisteredHorizonsBind(start: int, horizon: nat, p: Protocol)
    requires MinInstant + 28_800 * Second <= start <= MaxInstant - 28_800 * Second
    requires horizon == 5 || horizon == 10 || horizon == 30
    requires ProtocolValid(p) && p.labels == Labels(horizon, 1_000)
    requires p.walk.purge == 2 * horizon && p.walk.embargo == horizon && p.walk.folds == 3
    ensures var c := Calendar(start, start + 14_400 * Second, start + 21_600 * Second, start + 28_800 * Second);
            Resolve(c, EightHours(start, horizon), p.labels) == Some(Binding(c, 28_798 - horizon, 14_398, 21_598))
            && Bind(Binding(c, 28_798 - horizon, 14_398, 21_598), p).Some?
  {
    var c := Calendar(start, start + 14_400 * Second, start + 21_600 * Second, start + 28_800 * Second);
    EightHoursResolve(start, horizon, c);
    BindSucceedsIff(Binding(c, 28_798 - horizon, 14_398, 21_598), p);
  }
}
