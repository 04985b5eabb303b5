/**
 The trusted input snapshot. While the admitted feature rows are present, a plan's development
 precheck is recomputed and remembered; once the snapshot has been exported and restored the rows
 are gone and remembered receipts take their place.
 */
module Snapshot {
  import opened Prelude
  import opened Calendar
  import PlanHistory

  type Sizing = PlanHistory.Sizing

  // ----- Data -----

  datatype Market = Spot | Usdm

  datatype Materialization = Materialization(market: string, rows: nat, horizonBuckets: nat, bucketMillis: nat, provenance: string)

  datatype Manifest = Manifest(id: string, artifactSha: string, facts: string)

  datatype Row = Row(available: int, labelAvailable: int, target: real, features: map<string, real>)

  datatype Horizon = Horizon(schema: string, target: string, labels: Labels, availability: string, purge: nat, embargo: nat)

  /** The decision policy a plan trades with: its sizing rule, market side and optional holding time. */
  datatype Policy = Policy(sizing: Sizing, longOnly: bool, holding: Option<nat>)

  datatype Report = Report(scope: string, cancels: bool, horizonMillis: nat, statistics: seq<real>)

  datatype Receipt = Receipt(
    schema: string, revision: string, featureSha: string, materializationSha: string,
    protocol: Protocol, policySha: string, report: Report)

  /** The parts of a research plan these checks read. */
  datatype Plan = Plan(
    calendar: Option<Calendar>, horizon: Option<Horizon>, precheck: Option<Receipt>,
    sizing: Sizing, holding: Option<nat>)

  /** Code outside this model: digests, JSON decoding, manifest checks and the label statistics. */
  datatype Env = Env(
    sha: string -> string,
    decode: string -> Option<Materialization>,
    manifestFits: (Materialization, Manifest) -> bool,
    summarize: (seq<Row>, Protocol, Policy) -> Option<seq<real>>,
    policySha: Policy -> string,
    revision: string)

  datatype Snapshot = Snapshot(
    materialization: Materialization, json: string, manifest: Manifest,
    featureSha: string, materializationSha: string,
    rows: Option<seq<Row>>, verified: seq<Receipt>)

  datatype Metadata = Metadata(json: string, manifest: Manifest, verified: seq<Receipt>)

  const PrecheckSchema := "monday.development_precheck.v1"
  const DevelopmentScope := "calendar_development_only_overlapping_labels"
  const MaxMaterializationBytes: nat := 16 * 1024 * 1024
  const HorizonSchema := "monday.campaign_label_horizon.v1"
  const HorizonTarget := "forward_mid_return"
  const HorizonAvailability := "feature_available_time_equals_event_time"

  // ----- The approved protocol -----

  predicate HorizonValid(h: Horizon) {
    && h.schema == HorizonSchema && h.target == HorizonTarget && h.availability == HorizonAvailability
    && 0 < h.labels.horizon <= 3_600 && 0 < h.labels.millis <= 86_400_000
    && h.labels.horizon <= h.purge <= 100_000 && 0 < h.embargo <= 100_000
  }

  function ApprovedCosts(): Costs {
    Costs(2.0, 0.0, 0.0, 0.5, 0.0, true, 1_000.0, 5, 0.05)
  }

  function ApprovedWalk(purge: nat, embargo: nat): WalkForward {
    WalkForward(7_200, 3_600, 3, purge, embargo, 3_600)
  }

  /** `EvaluationProtocolV1::new`, then `with_independent_selection`. */
  function NewProtocol(walk: WalkForward, labels: Labels): Option<Protocol> {
    var first := Protocol(V1, walk, ApprovedCosts(), labels, None, None);
    if !ProtocolValid(first) then None else Validated(first.(version := V2, selection := Some(3_600)))
  }

  function BaseProtocol(m: Materialization, horizon: Option<Horizon>): Option<Protocol> {
    match horizon
    case None => NewProtocol(ApprovedWalk(10, 5), Labels(m.horizonBuckets, m.bucketMillis))
    case Some(h) =>
      if !HorizonValid(h) || h.labels != Labels(m.horizonBuckets, m.bucketMillis) then None
      else NewProtocol(ApprovedWalk(h.purge, h.embargo), h.labels)
  }

  function MarketOf(m: Materialization): Option<Market> {
    if m.market == "spot" then Some(Spot) else if m.market == "usdm" then Some(Usdm) else None
  }

  /** A holding plan trades cost-aware for a fixed time; any other plan follows its own sizing rule. */
  function PolicyOf(plan: Plan, market: Market): Option<Policy> {
    match plan.holding
    case None => Some(Policy(plan.sizing, market == Spot, None))
    case Some(h) => if 0 < h && h * 1000 <= MaxU64 then Some(Policy(PlanHistory.CostAware, market == Spot, Some(h))) else None
  }

  function PolicyFor(m: Materialization, plan: Plan): Option<Policy> {
    if MarketOf(m).None? then None else PolicyOf(plan, MarketOf(m).value)
  }

  // ----- Recomputation from rows -----

  function Clocks(rows: seq<Row>): (clocks: seq<int>)
    ensures |clocks| == |rows|
  {
    seq(|rows|, i requires 0 <= i < |rows| => rows[i].available)
  }

  function DevelopmentRows(rows: seq<Row>, c: Calendar): seq<Row> {
    if rows == [] then []
    else if c.start <= rows[0].available < c.developEnd then [rows[0]] + DevelopmentRows(rows[1..], c)
    else DevelopmentRows(rows[1..], c)
  }

  function DevelopmentReport(env: Env, rows: seq<Row>, p: Protocol, policy: Policy): Option<Report> {
    if !ProtocolValid(p) || p.calendar.None? || p.labels.millis * p.labels.horizon > MaxU64 then None
    else
      match env.summarize(DevelopmentRows(rows, p.calendar.value.calendar), p, policy)
      case None => None
      case Some(statistics) => Some(Report(DevelopmentScope, false, p.labels.millis * p.labels.horizon, statistics))
  }

  function BoundProtocol(m: Materialization, rows: seq<Row>, calendar: Calendar, horizon: Option<Horizon>): Option<Protocol> {
    var base := BaseProtocol(m, horizon);
    if base.None? then None
    else
      var binding := Resolve(calendar, Clocks(rows), base.value.labels);
      if binding.None? then None else Bind(binding.value, base.value)
  }

  /** `development_precheck`. */
  function Precheck(env: Env, s: Snapshot, plan: Plan): Option<Receipt> {
    if plan.calendar.None? || s.rows.None? then None
    else
      var protocol := BoundProtocol(s.materialization, s.rows.value, plan.calendar.value, plan.horizon);
      var policy := PolicyFor(s.materialization, plan);
      if protocol.None? || policy.None? then None
      else
        match DevelopmentReport(env, s.rows.value, protocol.value, policy.value)
        case None => None
        case Some(report) =>
          Some(Receipt(PrecheckSchema, env.revision, s.featureSha, s.materializationSha,
                       protocol.value, env.policySha(policy.value), report))
  }

  // ----- What a receipt depends on -----

  lemma {:induction false} OutsideRowsAreSkipped(rows: seq<Row>, c: Calendar)
    requires forall i :: 0 <= i < |rows| ==> rows[i].available >= c.developEnd
    ensures DevelopmentRows(rows, c) == []
  {
    if rows != [] { OutsideRowsAreSkipped(rows[1..], c); }
  }

  lemma {:induction false} PrefixIsKept(rows: seq<Row>, c: Calendar, n: nat)
    requires n <= |rows|
    requires forall i :: 0 <= i < n ==> c.start <= rows[i].available < c.developEnd
    requires forall i :: n <= i < |rows| ==> rows[i].available >= c.developEnd
    ensures DevelopmentRows(rows, c) == rows[..n]
    decreases n
  {
    if n == 0 {
      OutsideRowsAreSkipped(rows, c);
    } else {
      PrefixIsKept(rows[1..], c, n - 1);
      assert rows[..n] == [rows[0]] + rows[1..][..n - 1];
    }
  }

  /** On resolved clocks the precheck reads exactly the rows before the development boundary, in order. */
  lemma DevelopmentRowsAreThePrefix(rows: seq<Row>, c: Calendar, labels: Labels)
    requires Resolve(c, Clocks(rows), labels).Some?
    ensures DevelopmentRows(rows, c) == rows[..Resolve(c, Clocks(rows), labels).value.developEndRow]
  {
    var clocks, step := Clocks(rows), labels.millis * NanosPerMilli;
    var n := LeadingBelow(clocks, c.developEnd);
    forall i | 0 <= i < n ensures c.start <= rows[i].available < c.developEnd {
      ClocksAscend(clocks, step, 0, i);
      assert clocks[i] == rows[i].available;
    }
    forall i | n <= i < |rows| ensures rows[i].available >= c.developEnd {
      AtOrAfter(clocks, step, c.developEnd, i);
      assert clocks[i] == rows[i].available;
    }
    PrefixIsKept(rows, c, n);
  }

  /** Whatever the clocks: exactly the rows inside the window, as often as they occur. */
  lemma {:induction false} DevelopmentRowsAreTheWindow(rows: seq<Row>, c: Calendar, r: Row)
    ensures multiset(DevelopmentRows(rows, c))[r] == if c.start <= r.available && r.available < c.developEnd then multiset(rows)[r] else 0
  {
    if rows != [] {
      DevelopmentRowsAreTheWindow(rows[1..], c, r);
      assert rows == [rows[0]] + rows[1..];
    }
  }

  /** Equal clocks, and equal rows before the boundary. */
  ghost predicate SameDevelopment(a: seq<Row>, b: seq<Row>, c: Calendar) {
    && |a| == |b| && (forall i :: 0 <= i < |a| ==> a[i].available == b[i].available)
    && (forall i :: 0 <= i < |a| && a[i].available < c.developEnd ==> a[i] == b[i])
  }

  lemma {:induction false} SameDevelopmentRows(a: seq<Row>, b: seq<Row>, c: Calendar)
    requires SameDevelopment(a, b, c)
    ensures DevelopmentRows(a, c) == DevelopmentRows(b, c)
  {
    if a != [] { SameDevelopmentRows(a[1..], b[1..], c); }
  }

  /** Non-interference: labels and features at or after the development boundary cannot change a receipt. */
  lemma PrecheckIgnoresLaterRows(env: Env, s: Snapshot, a: seq<Row>, b: seq<Row>, plan: Plan)
    requires plan.calendar.Some? && SameDevelopment(a, b, plan.calendar.value)
    ensures Precheck(env, s.(rows := Some(a)), plan) == Precheck(env, s.(rows := Some(b)), plan)
  {
    assert Clocks(a) == Clocks(b);
    SameDevelopmentRows(a, b, plan.calendar.value);
    BoundNamesCalendar(s.materialization, a, plan.calendar.value, plan.horizon);
  }

  lemma BoundNamesCalendar(m: Materialization, rows: seq<Row>, c: Calendar, h: Option<Horizon>)
    ensures var p := BoundProtocol(m, rows, c, h);
            p.Some? ==> ProtocolValid(p.value) && p.value.calendar.Some? && p.value.calendar.value.calendar == c
                        && p.value.calendar.value.totalRows == |rows|
  {
    var base := BaseProtocol(m, h);
    if base.Some? {
      ResolveKeeps(c, Clocks(rows), base.value.labels);
      var binding := Resolve(c, Clocks(rows), base.value.labels);
      if binding.Some? { BindKeeps(binding.value, base.value); }
    }
  }

  /** The trading policy: long only exactly on spot; a holding plan is cost-aware whatever its own rule; other markets have none. */
  lemma PolicyMeans(m: Materialization, plan: Plan)
    ensures PolicyFor(m, plan).Some?
            <==> (m.market == "spot" || m.market == "usdm")
                 && (plan.holding.Some? ==> plan.holding.value > 0 && plan.holding.value * 1000 <= MaxU64)
    ensures PolicyFor(m, plan).Some? ==>
              var p := PolicyFor(m, plan).value;
              && p.longOnly == (m.market == "spot") && p.holding == plan.holding
              && p.sizing == (if plan.holding.Some? then PlanHistory.CostAware else plan.sizing)
  {}

  /** What a receipt says, field by field. */
  lemma ReceiptMeans(env: Env, s: Snapshot, plan: Plan)
    requires Precheck(env, s, plan).Some?
    ensures var r := Precheck(env, s, plan).value;
            && plan.calendar.Some? && s.rows.Some? && PolicyFor(s.materialization, plan).Some?
            && r.schema == "monday.development_precheck.v1" && r.revision == env.revision
            && r.featureSha == s.featureSha && r.materializationSha == s.materializationSha
            && r.protocol.calendar.Some? && r.protocol.calendar.value.calendar == plan.calendar.value
            && r.policySha == env.policySha(PolicyFor(s.materialization, plan).value)
            && r.report.scope == "calendar_development_only_overlapping_labels" && !r.report.cancels
            && r.report.horizonMillis == s.materialization.bucketMillis * s.materialization.horizonBuckets <= MaxU64
            && env.summarize(DevelopmentRows(s.rows.value, plan.calendar.value), r.protocol, PolicyFor(s.materialization, plan).value)
               == Some(r.report.statistics)
  {
    BoundNamesCalendar(s.materialization, s.rows.value, plan.calendar.value, plan.horizon);
    BoundLabels(s.materialization, s.rows.value, plan.calendar.value, plan.horizon);
  }

  lemma BoundLabels(m: Materialization, rows: seq<Row>, c: Calendar, h: Option<Horizon>)
    ensures var p := BoundProtocol(m, rows, c, h); p.Some? ==> p.value.labels == Labels(m.horizonBuckets, m.bucketMillis)
  {
    BaseProtocolLabels(m, h);
    var base := BaseProtocol(m, h);
    if base.Some? {
      var binding := Resolve(c, Clocks(rows), base.value.labels);
      if binding.Some? { BindKeeps(binding.value, base.value); }
    }
  }

  /** The protocol approved for a materialization: exactly when there is one, and what it is. */
  lemma ApprovedMeans(m: Materialization, h: Option<Horizon>)
    ensures BaseProtocol(m, h).Some?
            <==> match h
                 case None => 0 < m.horizonBuckets <= 10 && 0 < m.bucketMillis
                 case Some(x) =>
                   && x.schema == "monday.campaign_label_horizon.v1" && x.target == "forward_mid_return"
                   && x.availability == "feature_available_time_equals_event_time"
                   && x.labels.horizon == m.horizonBuckets && x.labels.millis == m.bucketMillis
                   && 0 < x.labels.horizon <= 3_600 && 0 < x.labels.millis <= 86_400_000
                   && x.labels.horizon <= x.purge <= 100_000 && 0 < x.embargo <= 100_000
    ensures BaseProtocol(m, h).Some? ==>
              var p := BaseProtocol(m, h).value;
              && p.version == V2 && p.selection == Some(3_600) && p.calendar == None
              && p.walk.initialTrain == 7_200 && p.walk.validation == 3_600 && p.walk.folds == 3 && p.walk.holdout == 3_600
              && p.walk.purge == (if h.Some? then h.value.purge else 10) && p.walk.embargo == (if h.Some? then h.value.embargo else 5)
              && p.costs == Costs(2.0, 0.0, 0.0, 0.5, 0.0, true, 1_000.0, 5, 0.05)
  {}

  // ----- The checks a plan must pass -----

  predicate NamesInputs(s: Snapshot, r: Receipt) {
    r.featureSha == s.featureSha && r.materializationSha == s.materializationSha
  }

  function Remember(verified: seq<Receipt>, r: Receipt): seq<Receipt> {
    if r in verified then verified else verified + [r]
  }

  /** `verify_development_precheck`: by recomputation while rows are present, from memory afterwards. */
  function Check(env: Env, s: Snapshot, plan: Plan): (Snapshot, bool) {
    if plan.calendar.None? then (s, true)
    else if plan.precheck.None? || !NamesInputs(s, plan.precheck.value) then (s, false)
    else if s.rows.Some? then
      if Precheck(env, s, plan) == plan.precheck then (s.(verified := Remember(s.verified, plan.precheck.value)), true)
      else (s, false)
    else (s, plan.precheck.value in s.verified)
  }

  function BindingOf(env: Env, r: Receipt): Option<Binding> {
    if r.schema != PrecheckSchema || r.revision != env.revision || r.report.scope != DevelopmentScope || r.report.cancels
       || !ProtocolValid(r.protocol) then None
    else r.protocol.calendar
  }

  /** `approved_evaluation_protocol_for_plan`. */
  function PlanProtocol(env: Env, m: Materialization, plan: Plan): Option<Protocol> {
    var base := BaseProtocol(m, plan.horizon);
    if base.None? || plan.calendar.None? then base
    else if plan.precheck.None? then None
    else
      var receipt := plan.precheck.value;
      var binding := BindingOf(env, receipt);
      var policy := PolicyFor(m, plan);
      if binding.None? || policy.None? then None
      else
        var expected := Bind(binding.value, base.value);
        if expected.None? || binding.value.calendar != plan.calendar.value || binding.value.totalRows != m.rows
           || expected.value != receipt.protocol || receipt.policySha != env.policySha(policy.value)
        then None else expected
  }

  // ----- Export and restore -----

  function Export(s: Snapshot): Metadata {
    Metadata(s.json, s.manifest, s.verified)
  }

  function Restore(env: Env, m: Metadata, featureSha: string, materializationSha: string): Option<Snapshot> {
    if Utf8Length(m.json) > MaxMaterializationBytes || env.sha(m.json) != materializationSha
       || m.manifest.artifactSha != featureSha || m.manifest.id != "dataset-" + featureSha then None
    else
      match env.decode(m.json)
      case None => None
      case Some(materialization) =>
        if !env.manifestFits(materialization, m.manifest) then None
        else Some(Snapshot(materialization, m.json, m.manifest, featureSha, materializationSha, None, m.verified))
  }

  /** What the loader establishes before it hands out a snapshot. */
  ghost predicate Admitted(env: Env, s: Snapshot) {
    && Utf8Length(s.json) <= MaxMaterializationBytes && s.materializationSha == env.sha(s.json)
    && env.decode(s.json) == Some(s.materialization) && env.manifestFits(s.materialization, s.manifest)
    && s.manifest.artifactSha == s.featureSha && s.manifest.id == "dataset-" + s.featureSha
  }

  // ----- The cell that remembers receipts -----

  class PreparedInputs {
    const materialization: Materialization
    const json: string
    const manifest: Manifest
    const featureSha: string
    const materializationSha: string
    const rows: Option<seq<Row>>
    var verified: seq<Receipt>

    constructor (s: Snapshot)
      ensures View() == s
    {
      materialization, json, manifest := s.materialization, s.json, s.manifest;
      featureSha, materializationSha := s.featureSha, s.materializationSha;
      rows, verified := s.rows, s.verified;
    }

    function View(): Snapshot
      reads this
    {
      Snapshot(materialization, json, manifest, featureSha, materializationSha, rows, verified)
    }

    method VerifyDevelopmentPrecheck(env: Env, plan: Plan) returns (ok: bool)
      modifies this
      ensures (View(), ok) == Check(env, old(View()), plan)
    {
      if plan.calendar.None? { return true; }
      if plan.precheck.None? { return false; }
      var expected := plan.precheck.value;
      if expected.featureSha != featureSha || expected.materializationSha != materializationSha { return false; }
      if rows.Some? {
        var actual := Precheck(env, View(), plan);
        if actual != Some(expected) { return false; }
        if expected !in verified { verified := verified + [actual.value]; }
        return true;
      }
      return expected in verified;
    }
  }

  // ----- Agreement of the two routes -----

  ghost predicate PolicyShaInjective(env: Env) {
    forall p: Policy, q: Policy :: env.policySha(p) == env.policySha(q) ==> p == q
  }

  /** The receipt came from recomputation over these inputs, for some plan. */
  ghost predicate RowMade(env: Env, s: Snapshot, r: Receipt) {
    exists plan: Plan :: Precheck(env, s, plan) == Some(r)
  }

  ghost predicate Trusted(env: Env, s: Snapshot) {
    forall i :: 0 <= i < |s.verified| ==> RowMade(env, s, s.verified[i])
  }

  lemma BaseProtocolLabels(m: Materialization, h: Option<Horizon>)
    ensures BaseProtocol(m, h).Some? ==> BaseProtocol(m, h).value.labels == Labels(m.horizonBuckets, m.bucketMillis)
  {}

  /** A protocol bound from rows determines the binding, whatever horizon it was approved under. */
  lemma RebindIsRecompute(m: Materialization, rows: seq<Row>, c: Calendar, h: Option<Horizon>, h': Option<Horizon>)
    requires BoundProtocol(m, rows, c, h).Some? && BaseProtocol(m, h').Some?
    ensures var b := BoundProtocol(m, rows, c, h).value.calendar;
            b.Some? && b.value.calendar == c && b.value.totalRows == |rows|
            && BoundProtocol(m, rows, c, h') == Bind(b.value, BaseProtocol(m, h').value)
  {
    BaseProtocolLabels(m, h);
    BaseProtocolLabels(m, h');
    var base := BaseProtocol(m, h).value;
    ResolveKeeps(c, Clocks(rows), base.labels);
    BindKeeps(Resolve(c, Clocks(rows), base.labels).value, base);
  }

  lemma RecordedProtocolIsValid(m: Materialization, rows: seq<Row>, c: Calendar, h: Option<Horizon>)
    requires BoundProtocol(m, rows, c, h).Some?
    ensures ProtocolValid(BoundProtocol(m, rows, c, h).value)
  {
    var base := BaseProtocol(m, h).value;
    BindKeeps(Resolve(c, Clocks(rows), base.labels).value, base);
  }

  /** Rebinding the recorded calendar rows gives the recorded protocol exactly when resolving the plan's calendar does. */
  lemma ProtocolsAgree(m: Materialization, rows: seq<Row>, made: Plan, plan: Plan, p: Protocol)
    requires made.calendar.Some? && plan.calendar.Some?
    requires BoundProtocol(m, rows, made.calendar.value, made.horizon) == Some(p)
    ensures p.calendar.Some? && p.calendar.value.totalRows == |rows|
    ensures BoundProtocol(m, rows, plan.calendar.value, plan.horizon) == Some(p)
            <==> BaseProtocol(m, plan.horizon).Some? && p.calendar.value.calendar == plan.calendar.value
                 && Bind(p.calendar.value, BaseProtocol(m, plan.horizon).value) == Some(p)
  {
    RebindIsRecompute(m, rows, made.calendar.value, made.horizon, made.horizon);
    if BaseProtocol(m, plan.horizon).Some? {
      RebindIsRecompute(m, rows, made.calendar.value, made.horizon, plan.horizon);
      if BoundProtocol(m, rows, plan.calendar.value, plan.horizon).Some? {
        RebindIsRecompute(m, rows, plan.calendar.value, plan.horizon, plan.horizon);
      }
    }
  }

  /** What the plan itself contributes to a receipt: the bound protocol and the policy digest. */
  lemma ReceiptDetermined(env: Env, s: Snapshot, made: Plan, plan: Plan, r: Receipt)
    requires PolicyShaInjective(env) && s.rows.Some? && plan.calendar.Some? && Precheck(env, s, made) == Some(r)
    ensures Precheck(env, s, plan) == Some(r)
            <==> BoundProtocol(s.materialization, s.rows.value, plan.calendar.value, plan.horizon) == Some(r.protocol)
                 && PolicyFor(s.materialization, plan).Some?
                 && env.policySha(PolicyFor(s.materialization, plan).value) == r.policySha
  {}

  /** For a receipt made from rows by `made`: a plan carrying it passes recomputation iff it passes the protocol check. */
  lemma ReceiptAgreement(env: Env, s: Snapshot, made: Plan, plan: Plan)
    requires PolicyShaInjective(env) && s.rows.Some? && |s.rows.value| == s.materialization.rows
    requires plan.calendar.Some? && plan.precheck.Some? && Precheck(env, s, made) == plan.precheck
    ensures Precheck(env, s, plan) == plan.precheck <==> PlanProtocol(env, s.materialization, plan).Some?
    ensures PlanProtocol(env, s.materialization, plan).Some? ==>
              PlanProtocol(env, s.materialization, plan) == Some(plan.precheck.value.protocol)
  {
    var m, rows, r := s.materialization, s.rows.value, plan.precheck.value;
    RecordedProtocolIsValid(m, rows, made.calendar.value, made.horizon);
    ProtocolsAgree(m, rows, made, plan, r.protocol);
    ReceiptDetermined(env, s, made, plan, r);
    assert BindingOf(env, r) == r.protocol.calendar;
  }

  lemma RememberedAgreement(env: Env, s: Snapshot, plan: Plan)
    requires PolicyShaInjective(env) && Trusted(env, s) && s.rows.Some? && |s.rows.value| == s.materialization.rows
    requires plan.calendar.Some? && plan.precheck.Some? && plan.precheck.value in s.verified
    ensures Precheck(env, s, plan) == plan.precheck <==> PlanProtocol(env, s.materialization, plan).Some?
  {
    var i :| 0 <= i < |s.verified| && s.verified[i] == plan.precheck.value;
    assert RowMade(env, s, s.verified[i]);
    var made :| Precheck(env, s, made) == Some(s.verified[i]);
    ReceiptAgreement(env, s, made, plan);
  }

  /**
   The restored route agrees with the recomputing one. Take a snapshot with rows whose remembered
   receipts all came from recomputation, and the same snapshot without its rows: a plan accepted from
   memory is accepted by recomputation exactly when it passes the protocol check.
   */
  lemma CachedRouteAgreesWithRows(env: Env, s: Snapshot, plan: Plan)
    requires PolicyShaInjective(env) && Trusted(env, s) && s.rows.Some? && |s.rows.value| == s.materialization.rows
    requires plan.calendar.Some? && Check(env, s.(rows := None), plan).1
    ensures Check(env, s, plan).1 <==> PlanProtocol(env, s.materialization, plan).Some?
  {
    RememberedAgreement(env, s, plan);
  }

  lemma ReceiptNamesCalendar(env: Env, s: Snapshot, plan: Plan)
    requires Precheck(env, s, plan).Some?
    ensures var b := Precheck(env, s, plan).value.protocol.calendar; b.Some? && b.value.calendar == plan.calendar.value
  {
    RebindIsRecompute(s.materialization, s.rows.value, plan.calendar.value, plan.horizon, plan.horizon);
  }

  // ----- Plans that passed `validate` -----

  /** The three label horizons a calendar plan may name. */
  predicate Registered(h: Horizon) {
    h.labels.millis == 1_000
    && (h.labels.horizon == 5 || h.labels.horizon == 10 || h.labels.horizon == 30)
    && h.purge == 2 * h.labels.horizon && h.embargo == h.labels.horizon
  }

  /** What plan validation demands of the fields kept here; it runs before any precheck. */
  predicate PlanValid(env: Env, plan: Plan) {
    && (plan.horizon.Some? ==> HorizonValid(plan.horizon.value))
    && (plan.holding.Some? ==> 0 < plan.holding.value && plan.holding.value * 1000 <= MaxU64 && plan.sizing == PlanHistory.CostAware)
    && match plan.calendar
       case None => plan.precheck.None?
       case Some(c) =>
         && CalendarValid(c) && plan.horizon.Some? && Registered(plan.horizon.value)
         && plan.holding == Some(plan.horizon.value.labels.millis * plan.horizon.value.labels.horizon)
         && (plan.precheck.Some? ==>
               BindingOf(env, plan.precheck.value).Some? && BindingOf(env, plan.precheck.value).value.calendar == c)
  }

  /** The labels of a registered horizon determine all of it. */
  lemma RegisteredByLabels(a: Horizon, b: Horizon)
    requires HorizonValid(a) && HorizonValid(b) && Registered(a) && Registered(b) && a.labels == b.labels
    ensures a == b
  {}

  predicate LabelsFit(m: Materialization, plan: Plan) {
    plan.horizon.Some? && plan.horizon.value.labels == Labels(m.horizonBuckets, m.bucketMillis)
  }

  lemma PrecheckNeedsLabels(env: Env, s: Snapshot, plan: Plan)
    requires plan.horizon.Some? && Precheck(env, s, plan).Some?
    ensures LabelsFit(s.materialization, plan)
  {}

  /** Precheck reads a holding plan only through its calendar, horizon and holding time. */
  lemma PrecheckReads(env: Env, s: Snapshot, a: Plan, b: Plan)
    requires a.calendar == b.calendar && a.horizon == b.horizon && a.holding == b.holding && a.holding.Some?
    ensures Precheck(env, s, a) == Precheck(env, s, b)
  {}

  /** Two validated plans with fitting labels that carry one receipt are prechecked alike. */
  lemma ValidatedPlansShareReceipt(env: Env, s: Snapshot, made: Plan, plan: Plan)
    requires PlanValid(env, made) && PlanValid(env, plan) && plan.calendar.Some? && plan.precheck.Some?
    requires Precheck(env, s, made) == plan.precheck
    ensures Precheck(env, s, plan) == plan.precheck <==> LabelsFit(s.materialization, plan)
  {
    ReceiptNamesCalendar(env, s, made);
    PrecheckNeedsLabels(env, s, made);
    if LabelsFit(s.materialization, plan) {
      RegisteredByLabels(made.horizon.value, plan.horizon.value);
      PrecheckReads(env, s, made, plan);
    } else if Precheck(env, s, plan).Some? {
      PrecheckNeedsLabels(env, s, plan);
    }
  }

  lemma MisfitHasNoBase(m: Materialization, h: Horizon)
    requires h.labels != Labels(m.horizonBuckets, m.bucketMillis)
    ensures BaseProtocol(m, Some(h)) == None
  {}

  /**
   Memory alone is not enough: a confirmed receipt still passes in any plan that moves to a horizon whose
   labels do not fit the materialization, which recomputation and the protocol check refuse.
   */
  lemma MemoryAloneIgnoresTheHorizon(env: Env, s: Snapshot, plan: Plan, moved: Plan)
    requires s.rows.Some? && plan.calendar.Some? && Check(env, s, plan).1
    requires moved.calendar == plan.calendar && moved.precheck == plan.precheck
    requires moved.horizon.Some? && !LabelsFit(s.materialization, moved)
    ensures Check(env, Check(env, s, plan).0.(rows := None), moved).1
    ensures !Check(env, s, moved).1 && PlanProtocol(env, s.materialization, moved).None?
  {
    MisfitHasNoBase(s.materialization, moved.horizon.value);
    assert Precheck(env, s, moved) == None;
  }

  /** Validation does not stand in the way: a validated plan stays valid on any other registered horizon and its holding time. */
  lemma MovedHorizonIsValid(env: Env, plan: Plan, other: Horizon, holding: nat)
    requires PlanValid(env, plan) && plan.calendar.Some? && HorizonValid(other) && Registered(other)
    requires holding == other.labels.millis * other.labels.horizon
    ensures PlanValid(env, plan.(horizon := Some(other), holding := Some(holding)))
  {
    assert holding == 1_000 * other.labels.horizon;
  }

  /** The registered horizons of a calendar plan give a bound protocol on eight hours of one-second rows. */
  lemma RegisteredPlansBind(m: Materialization, rows: seq<Row>, start: int, h: nat)
    requires MinInstant + 28_800 * Second <= start <= MaxInstant - 28_800 * Second
    requires (h == 5 || h == 10 || h == 30) && m.horizonBuckets == h && m.bucketMillis == 1_000
    requires Clocks(rows) == EightHours(start, h)
    ensures var c := Calendar(start, start + 14_400 * Second, start + 21_600 * Second, start + 28_800 * Second);
            BoundProtocol(m, rows, c, Some(Horizon(HorizonSchema, HorizonTarget, Labels(h, 1_000), HorizonAvailability, 2 * h, h))).Some?
  {
    var horizon := Some(Horizon(HorizonSchema, HorizonTarget, Labels(h, 1_000), HorizonAvailability, 2 * h, h));
    assert BaseProtocol(m, horizon).Some?;
    RegisteredHorizonsBind(start, h, BaseProtocol(m, horizon).value);
  }

  /** What a plan's approved protocol guarantees about the receipt it carries, wherever that came from. */
  lemma PlanProtocolMeans(env: Env, m: Materialization, plan: Plan)
    requires plan.calendar.Some? && PlanProtocol(env, m, plan).Some?
    ensures plan.precheck.Some? && PolicyFor(m, plan).Some?
    ensures var p, r := PlanProtocol(env, m, plan).value, plan.precheck.value;
            && r.protocol == p && r.schema == "monday.development_precheck.v1" && r.revision == env.revision
            && r.report.scope == "calendar_development_only_overlapping_labels" && !r.report.cancels
            && p.calendar.Some? && p.calendar.value.calendar == plan.calendar.value && p.calendar.value.totalRows == m.rows
            && p.labels == Labels(m.horizonBuckets, m.bucketMillis) && r.policySha == env.policySha(PolicyFor(m, plan).value)
  {
    BaseProtocolLabels(m, plan.horizon);
    BindKeeps(BindingOf(env, plan.precheck.value).value, BaseProtocol(m, plan.horizon).value);
  }

  /** A plan without a calendar needs no receipt: its protocol is the approved one. */
  lemma PlainPlanProtocol(env: Env, m: Materialization, plan: Plan)
    requires plan.calendar.None?
    ensures PlanProtocol(env, m, plan) == BaseProtocol(m, plan.horizon)
  {}

  /** What the precheck accepts, by recomputation and from memory. */
  lemma CheckMeans(env: Env, s: Snapshot, plan: Plan)
    ensures plan.calendar.None? ==> Check(env, s, plan) == (s, true)
    ensures plan.calendar.Some? && s.rows.Some? ==>
              (Check(env, s, plan).1 <==> plan.precheck.Some? && Precheck(env, s, plan) == plan.precheck)
    ensures plan.calendar.Some? && s.rows.None? ==>
              (Check(env, s, plan).1 <==> plan.precheck.Some? && plan.precheck.value in s.verified
                                          && plan.precheck.value.featureSha == s.featureSha
                                          && plan.precheck.value.materializationSha == s.materializationSha)
  {}

  /** Restoring succeeds exactly on the metadata of some admitted snapshot with these identities, and gives it back without rows. */
  lemma RestoreIff(env: Env, m: Metadata, featureSha: string, materializationSha: string)
    ensures Restore(env, m, featureSha, materializationSha).Some?
            <==> exists s :: Admitted(env, s) && Export(s) == m && s.featureSha == featureSha && s.materializationSha == materializationSha
    ensures Restore(env, m, featureSha, materializationSha).Some? ==>
              var s := Restore(env, m, featureSha, materializationSha).value;
              Admitted(env, s) && Export(s) == m && s.rows == None && s.featureSha == featureSha && s.materializationSha == materializationSha
  {
    var r := Restore(env, m, featureSha, materializationSha);
    if r.Some? { assert Admitted(env, r.value) && Export(r.value) == m; }
  }

  // ----- Whole histories: any plans checked, then export and restore -----

  function Checks(env: Env, s: Snapshot, plans: seq<Plan>): Snapshot
    decreases plans
  {
    if plans == [] then s else Checks(env, Check(env, s, plans[0]).0, plans[1..])
  }

  lemma CheckKeepsInputs(env: Env, s: Snapshot, plan: Plan)
    ensures Check(env, s, plan).0 == s.(verified := Check(env, s, plan).0.verified)
    ensures s.verified <= Check(env, s, plan).0.verified
    ensures Trusted(env, s) ==> Trusted(env, Check(env, s, plan).0)
    ensures forall other: Plan, v: seq<Receipt> :: Precheck(env, s.(verified := v), other) == Precheck(env, s, other)
  {
    var s' := Check(env, s, plan).0;
    if Trusted(env, s) {
      forall i | 0 <= i < |s'.verified| ensures RowMade(env, s', s'.verified[i]) {
        if i < |s.verified| {
          assert RowMade(env, s, s.verified[i]);
          var made :| Precheck(env, s, made) == Some(s.verified[i]);
          assert Precheck(env, s', made) == Some(s'.verified[i]);
        } else {
          assert Precheck(env, s', plan) == Some(s'.verified[i]);
        }
      }
    }
  }

  /** The plan carries this receipt and recomputation confirms it. */
  ghost predicate Confirms(env: Env, s: Snapshot, plan: Plan, r: Receipt) {
    plan.precheck == Some(r) && Precheck(env, s, plan) == Some(r)
  }

  /** Some plan in the list confirms the receipt. */
  ghost predicate Confirmed(env: Env, s: Snapshot, plans: seq<Plan>, r: Receipt)
    decreases plans
  {
    plans != [] && (Confirms(env, s, plans[0], r) || Confirmed(env, s, plans[1..], r))
  }

  lemma {:induction false} ConfirmedByOne(env: Env, s: Snapshot, plans: seq<Plan>, i: nat, r: Receipt)
    requires i < |plans| && Confirms(env, s, plans[i], r)
    ensures Confirmed(env, s, plans, r)
    decreases plans
  {
    if i > 0 { ConfirmedByOne(env, s, plans[1..], i - 1, r); }
  }

  lemma {:induction false} ConfirmedIgnoresMemory(env: Env, s: Snapshot, verified: seq<Receipt>, plans: seq<Plan>, r: Receipt)
    ensures Confirmed(env, s.(verified := verified), plans, r) <==> Confirmed(env, s, plans, r)
    decreases plans
  {
    if plans != [] {
      ConfirmedIgnoresMemory(env, s, verified, plans[1..], r);
    }
  }

  lemma CheckRemembers(env: Env, s: Snapshot, plan: Plan, r: Receipt)
    requires s.rows.Some?
    ensures r in Check(env, s, plan).0.verified <==> r in s.verified || Confirms(env, s, plan, r)
  {}

  /** Exactly the confirmed receipts are remembered. */
  lemma {:induction false} RemembersConfirmed(env: Env, s: Snapshot, plans: seq<Plan>, r: Receipt)
    requires s.rows.Some?
    ensures r in Checks(env, s, plans).verified <==> r in s.verified || Confirmed(env, s, plans, r)
    decreases plans
  {
    if plans != [] {
      var s1 := Check(env, s, plans[0]).0;
      CheckKeepsInputs(env, s, plans[0]);
      CheckRemembers(env, s, plans[0], r);
      ConfirmedIgnoresMemory(env, s, s1.verified, plans[1..], r);
      RemembersConfirmed(env, s1, plans[1..], r);
    }
  }

  lemma {:induction false} ChecksKeepTrust(env: Env, s: Snapshot, plans: seq<Plan>)
    requires Trusted(env, s)
    ensures Trusted(env, Checks(env, s, plans))
    ensures Checks(env, s, plans) == s.(verified := Checks(env, s, plans).verified)
    decreases plans
  {
    if plans != [] {
      CheckKeepsInputs(env, s, plans[0]);
      ChecksKeepTrust(env, Check(env, s, plans[0]).0, plans[1..]);
    }
  }

  lemma RestoreUndoesExport(env: Env, s: Snapshot)
    requires Admitted(env, s)
    ensures Restore(env, Export(s), s.featureSha, s.materializationSha) == Some(s.(rows := None))
  {}

  /**
   Load, check any plans, export, restore: the restored snapshot accepts a calendar plan exactly when
   its receipt was confirmed by recomputation before the export; so every plan accepted then is still
   accepted, and with the protocol check every plan accepted now would have been accepted then.
   */
  lemma {:induction false} RestoredSnapshotAgrees(env: Env, loaded: Snapshot, plans: seq<Plan>, plan: Plan)
    requires PolicyShaInjective(env) && Admitted(env, loaded) && loaded.verified == []
    requires loaded.rows.Some? && |loaded.rows.value| == loaded.materialization.rows
    requires plan.calendar.Some?
    ensures Restore(env, Export(Checks(env, loaded, plans)), loaded.featureSha, loaded.materializationSha).Some?
    ensures var restored := Restore(env, Export(Checks(env, loaded, plans)), loaded.featureSha, loaded.materializationSha).value;
            && (Check(env, restored, plan).1
                <==> plan.precheck.Some? && Confirmed(env, loaded, plans, plan.precheck.value))
            && (Check(env, loaded, plan).1 && plan in plans ==> Check(env, restored, plan).1)
            && (Check(env, restored, plan).1 && PlanProtocol(env, restored.materialization, plan).Some? ==> Check(env, loaded, plan).1)
  {
    var s := Checks(env, loaded, plans);
    ChecksKeepTrust(env, loaded, plans);
    if plan.precheck.Some? {
      RemembersConfirmed(env, loaded, plans, plan.precheck.value);
      if Confirmed(env, loaded, plans, plan.precheck.value) {
        ConfirmedNamesInputs(env, loaded, plans, plan.precheck.value);
      }
      if plan in plans {
        var i :| 0 <= i < |plans| && plans[i] == plan;
        if Check(env, loaded, plan).1 { ConfirmedByOne(env, loaded, plans, i, plan.precheck.value); }
      }
    }
    RestoreUndoesExport(env, s);
    if Check(env, s.(rows := None), plan).1 { CachedRouteAgreesWithRows(env, s, plan); }
    SameRowsSameVerdict(env, loaded, s.verified, plan);
  }

  lemma {:induction false} ConfirmedNamesInputs(env: Env, s: Snapshot, plans: seq<Plan>, r: Receipt)
    requires Confirmed(env, s, plans, r)
    ensures NamesInputs(s, r)
    decreases plans
  {
    if !Confirms(env, s, plans[0], r) { ConfirmedNamesInputs(env, s, plans[1..], r); }
  }

  lemma {:induction false} ConfirmedWitness(env: Env, s: Snapshot, plans: seq<Plan>, r: Receipt) returns (i: nat)
    requires Confirmed(env, s, plans, r)
    ensures i < |plans| && Confirms(env, s, plans[i], r)
    decreases plans
  {
    i := 0;
    if !Confirms(env, s, plans[0], r) {
      var k := ConfirmedWitness(env, s, plans[1..], r);
      assert plans[1..][k] == plans[k + 1];
      i := k + 1;
    }
  }

  /**
   For validated plans the exact condition is one a caller can read off the plan: what the restored
   snapshot accepts would have been accepted by recomputation exactly when the label horizon is the
   materialization's own. No assumption on digests is needed.
   */
  lemma {:induction false} ValidatedPlansAgreeIff(env: Env, loaded: Snapshot, plans: seq<Plan>, plan: Plan)
    requires Admitted(env, loaded) && loaded.verified == [] && loaded.rows.Some?
    requires (forall i :: 0 <= i < |plans| ==> PlanValid(env, plans[i])) && PlanValid(env, plan) && plan.calendar.Some?
    requires Check(env, Checks(env, loaded, plans).(rows := None), plan).1
    ensures Restore(env, Export(Checks(env, loaded, plans)), loaded.featureSha, loaded.materializationSha)
            == Some(Checks(env, loaded, plans).(rows := None))
    ensures Check(env, loaded, plan).1 <==> LabelsFit(loaded.materialization, plan)
  {
    ChecksKeepTrust(env, loaded, plans);
    RestoreUndoesExport(env, Checks(env, loaded, plans));
    var r := plan.precheck.value;
    RemembersConfirmed(env, loaded, plans, r);
    ConfirmedNamesInputs(env, loaded, plans, r);
    var i := ConfirmedWitness(env, loaded, plans, r);
    ValidatedPlansShareReceipt(env, loaded, plans[i], plan);
  }

  lemma SameRowsSameVerdict(env: Env, s: Snapshot, verified: seq<Receipt>, plan: Plan)
    requires s.rows.Some?
    ensures Check(env, s.(verified := verified), plan).1 == Check(env, s, plan).1
  {}
}
