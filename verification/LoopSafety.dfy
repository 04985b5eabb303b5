/** What holds of every version of a loop run that ever reaches the store, over its whole life. */
module LoopSafety {
  import opened Prelude
  import opened LoopModel

  // ----- Record identifiers never collide -----

  lemma {:induction false} DecimalHasNoColon(n: nat)
    ensures ':' !in Decimal(n) && |Decimal(n)| > 0 && (|Decimal(n)| == 1 <==> n < 10)
  {
    if n >= 10 { DecimalHasNoColon(n / 10); }
  }

  lemma {:induction false} DecimalInjective(m: nat, n: nat)
    requires Decimal(m) == Decimal(n)
    ensures m == n
  {
    DecimalHasNoColon(m);
    DecimalHasNoColon(n);
    var x, y := Decimal(m), Decimal(n);
    assert x[|x| - 1] == y[|y| - 1];
    if m >= 10 {
      assert Decimal(m / 10) == x[..|x| - 1] == y[..|y| - 1] == Decimal(n / 10);
      DecimalInjective(m / 10, n / 10);
    }
  }

  lemma LongerHeadLeavesColon(a: string, x: string, b: string, y: string)
    requires a + ":" + x == b + ":" + y && |a| < |b|
    ensures ':' in x
  {
    var t := a + ":" + x;
    assert t == b + ":" + y;
    assert t[|b|] == ':' && t[|b|] == x[|b| - |a| - 1];
  }

  /** The text after the last colon is determined by the whole text. */
  lemma TailAfterColon(a: string, x: string, b: string, y: string)
    requires a + ":" + x == b + ":" + y && ':' !in x && ':' !in y
    ensures x == y
  {
    if |a| < |b| {
      LongerHeadLeavesColon(a, x, b, y);
    } else if |b| < |a| {
      LongerHeadLeavesColon(b, y, a, x);
    } else {
      assert x == (a + ":" + x)[|a| + 1..] == (b + ":" + y)[|b| + 1..] == y;
    }
  }

  /** Whatever the run, missions and stages: equal identifiers mean equal trailing counters. */
  lemma RecordIdDeterminesCounter(r1: string, m1: string, s1: Stage, n1: nat, r2: string, m2: string, s2: Stage, n2: nat)
    requires RecordId(r1, m1, s1, n1) == RecordId(r2, m2, s2, n2)
    ensures n1 == n2
  {
    DecimalHasNoColon(n1);
    DecimalHasNoColon(n2);
    TailAfterColon(r1 + ":" + m1 + ":" + Slug(s1), Decimal(n1), r2 + ":" + m2 + ":" + Slug(s2), Decimal(n2));
    DecimalInjective(n1, n2);
  }

  ghost predicate Numbered(run: LoopRun) {
    forall i :: 0 <= i < |run.records| ==>
      run.records[i].id == RecordId(run.id, run.records[i].mission, run.records[i].stage, i + 1)
  }

  lemma NumberedIdsAreDistinct(run: LoopRun)
    requires Numbered(run)
    ensures forall i, j :: 0 <= i < j < |run.records| ==> run.records[i].id != run.records[j].id
  {
    forall i, j | 0 <= i < j < |run.records| ensures run.records[i].id != run.records[j].id {
      var a, b := run.records[i], run.records[j];
      if a.id == b.id {
        RecordIdDeterminesCounter(run.id, a.mission, a.stage, i + 1, run.id, b.mission, b.stage, j + 1);
      }
    }
  }

  // ----- Stages are recorded in order -----

  ghost predicate Has(records: seq<Record>, mission: string, stage: Stage, status: Status) {
    exists i :: 0 <= i < |records| && records[i].mission == mission && records[i].stage == stage && records[i].status == status
  }

  /** Every pipeline stage below `k` is recorded as completed for the mission. */
  ghost predicate CompletedBelow(records: seq<Record>, mission: string, k: nat) {
    forall stage: Stage :: Rank(stage) < k ==> Has(records, mission, stage, Completed)
  }

  /** A completed pipeline stage follows all earlier ones; completed learning follows an exhausted search. */
  ghost predicate Earned(records: seq<Record>, mission: string, stage: Stage, status: Status) {
    status == Completed ==>
      if stage == Learning then Has(records, mission, Researching, BudgetExhausted)
      else CompletedBelow(records, mission, Rank(stage))
  }

  ghost predicate Ordered(records: seq<Record>) {
    forall i :: 0 <= i < |records| ==> Earned(records[..i], records[i].mission, records[i].stage, records[i].status)
  }

  /** A target stop names the run's own target and a mission with every stage up to it recorded. */
  ghost predicate StopJustified(run: LoopRun) {
    run.stop.Some? && run.stop.value.TargetStageReached? ==>
      run.stop.value.stage == run.target && CompletedBelow(run.records, run.stop.value.mission, Rank(run.target) + 1)
  }

  ghost predicate RunOk(run: LoopRun) {
    && run.target != Learning && run.root !in run.children && Distinct(run.children)
    && Numbered(run) && Ordered(run.records) && StopJustified(run)
  }

  lemma HasGrows(records: seq<Record>, more: seq<Record>, mission: string, stage: Stage, status: Status)
    requires Has(records, mission, stage, status) && records <= more
    ensures Has(more, mission, stage, status)
  {
    var i :| 0 <= i < |records| && records[i].mission == mission && records[i].stage == stage && records[i].status == status;
    assert more[i] == records[i];
  }

  lemma CompletedBelowGrows(records: seq<Record>, more: seq<Record>, mission: string, k: nat)
    requires CompletedBelow(records, mission, k) && records <= more
    ensures CompletedBelow(more, mission, k)
  {
    forall stage: Stage | Rank(stage) < k ensures Has(more, mission, stage, Completed) {
      HasGrows(records, more, mission, stage, Completed);
    }
  }

  lemma {:induction false} LatestIsRecorded(records: seq<Record>, mission: string, stage: Stage)
    ensures var r := Latest(records, mission, stage);
            r.Some? ==> r.value.mission == mission && r.value.stage == stage && Has(records, mission, stage, r.value.status)
  {
    if records != [] {
      var last, rest := records[|records| - 1], records[..|records| - 1];
      if last.mission != mission || last.stage != stage {
        LatestIsRecorded(rest, mission, stage);
        if Latest(rest, mission, stage).Some? {
          HasGrows(rest, records, mission, stage, Latest(rest, mission, stage).value.status);
        }
      }
    }
  }

  lemma AppendedIsOk(run: LoopRun, mission: string, stage: Stage, status: Status, reason: string)
    requires RunOk(run) && run.status == Running && run.stop == None && Earned(run.records, mission, stage, status)
    ensures RunOk(Appended(run, mission, stage, status, reason))
    ensures Has(Appended(run, mission, stage, status, reason).records, mission, stage, status)
  {
    var grown := Appended(run, mission, stage, status, reason);
    var n := |run.records|;
    assert grown.records[n].status == status && grown.records[n].stage == stage && grown.records[n].mission == mission;
    forall i | 0 <= i < |grown.records| ensures (var r := grown.records[i]; Earned(grown.records[..i], r.mission, r.stage, r.status)) {
      if i < n {
        assert grown.records[..i] == run.records[..i];
        assert Earned(run.records[..i], run.records[i].mission, run.records[i].stage, run.records[i].status);
      } else {
        assert grown.records[..i] == run.records;
      }
    }
  }

  // ----- The journal -----

  /** One version follows another: the history grows, and nothing follows a terminal version. */
  ghost predicate Follows(before: LoopRun, after: LoopRun) {
    Appends(before, after) && !Terminal(before.status)
  }

  ghost predicate JournalOk(journal: seq<LoopRun>) {
    var n := |journal|;
    && n > 0 && Valid(journal[n - 1]) && RunOk(journal[n - 1])
    && (n > 1 ==> JournalOk(journal[..n - 1]) && Follows(journal[n - 2], journal[n - 1]))
  }

  lemma {:induction false} JournalPrefixOk(journal: seq<LoopRun>, k: nat)
    requires JournalOk(journal) && 0 < k <= |journal|
    ensures JournalOk(journal[..k])
  {
    if k < |journal| {
      JournalPrefixOk(journal[..|journal| - 1], k);
      assert journal[..|journal| - 1][..k] == journal[..k];
    } else {
      assert journal[..k] == journal;
    }
  }

  lemma {:induction false} VersionOk(journal: seq<LoopRun>, i: nat)
    requires JournalOk(journal) && i < |journal|
    ensures Valid(journal[i]) && RunOk(journal[i])
    ensures i > 0 ==> Follows(journal[i - 1], journal[i])
    decreases |journal|
  {
    var n := |journal| - 1;
    if i < n {
      VersionOk(journal[..n], i);
      assert journal[..n][i] == journal[i] && (i > 0 ==> journal[..n][i - 1] == journal[i - 1]);
    }
  }

  function Disk(l: Loop): LoopRun
    requires |l.journal| > 0
  {
    l.journal[|l.journal| - 1]
  }

  /** The part of the worklist that the mission limit allows to be visited. */
  function Budgeted(run: LoopRun): seq<string> {
    if |Ids(run)| <= run.max then Ids(run) else Ids(run)[..run.max]
  }

  ghost predicate WithinLimit(journal: seq<LoopRun>, e: Execution) {
    0 < e.saves <= |journal| && e.mission in Budgeted(journal[e.saves - 1])
  }

  /** Every execution was of a mission among the first `max` entries of the worklist that was on disk at that moment. */
  ghost predicate ExecutionsOk(l: Loop) {
    forall i :: 0 <= i < |l.executed| ==> WithinLimit(l.journal, l.executed[i])
  }

  ghost predicate LoopOk(l: Loop) {
    JournalOk(l.journal) && Appends(Disk(l), l.run) && RunOk(l.run) && ExecutionsOk(l)
  }

  lemma SaveKeepsOk(l: Loop, w: World)
    requires LoopOk(l) && !Terminal(Disk(l).status)
    ensures LoopOk(Save(l, w).0) && (Save(l, w).1 ==> Disk(Save(l, w).0) == l.run)
  {
    if Saveable(l, w) {
      var l1 := Save(l, w).0;
      assert l1.journal[..|l.journal|] == l.journal;
      forall i | 0 <= i < |l1.executed| ensures WithinLimit(l1.journal, l1.executed[i]) {
        assert WithinLimit(l.journal, l.executed[i]);
        assert l1.journal[l.executed[i].saves - 1] == l.journal[l.executed[i].saves - 1];
      }
    }
  }

  ghost predicate Active(l: Loop) {
    LoopOk(l) && !Terminal(Disk(l).status) && l.run.status == Running && l.run.stop == None
  }

  lemma SaveAppendedKeepsOk(l: Loop, w: World, mission: string, stage: Stage, status: Status, reason: string)
    requires Active(l) && Earned(l.run.records, mission, stage, status)
    ensures var grown := l.(run := Appended(l.run, mission, stage, status, reason));
            Active(Save(grown, w).0) && Has(grown.run.records, mission, stage, status)
  {
    AppendedIsOk(l.run, mission, stage, status, reason);
    var grown := l.(run := Appended(l.run, mission, stage, status, reason));
    assert LoopOk(grown);
    SaveKeepsOk(grown, w);
  }

  lemma AppendStageKeepsOk(l: Loop, w: World, mission: string, stage: Stage, status: Status, reason: string)
    requires Active(l) && Earned(l.run.records, mission, stage, status)
    ensures var (l1, ok) := AppendStage(l, w, mission, stage, status, reason);
            Active(l1) && (ok ==> Has(l1.run.records, mission, stage, status))
  {
    LatestIsRecorded(l.run.records, mission, stage);
    SaveAppendedKeepsOk(l, w, mission, stage, status, reason);
  }

  lemma StopKeepsOk(l: Loop, w: World, reason: StopReason)
    requires Active(l)
    requires reason.TargetStageReached? ==>
               reason.stage == l.run.target && CompletedBelow(l.run.records, reason.mission, Rank(l.run.target) + 1)
    ensures LoopOk(Stop(l, w, reason).0)
  {
    SaveKeepsOk(l.(run := Stopped(l.run, reason)), w);
  }

  /** The notes cover consecutive stages from `first`, all of them up to the target when it is reached. */
  ghost predicate InOrder(plan: (seq<StageNote>, Verdict), first: nat, target: Stage) {
    && (forall i :: 0 <= i < |plan.0| ==> Rank(plan.0[i].stage) == first + i)
    && first + |plan.0| <= Rank(target) + 1
    && (plan.1 == Reached ==> first + |plan.0| == Rank(target) + 1)
    && (plan.1.Awaiting? ==> first + |plan.0| == Rank(plan.1.stage) <= Rank(target))
  }

  lemma NotedIsInOrder(stage: Stage, reason: string, rest: (seq<StageNote>, Verdict), target: Stage)
    requires InOrder(rest, Rank(stage) + 1, target)
    ensures InOrder(Noted(stage, reason, rest), Rank(stage), target)
  {}

  lemma LivePlanIsInOrder(e: Evidence)
    ensures InOrder(LivePlan(e), 5, LiveSmallEligible)
  {}

  lemma ShadowPlanIsInOrder(e: Evidence, candidate: string, target: Stage)
    requires 4 <= Rank(target) < 6
    ensures InOrder(ShadowPlan(e, candidate, target), 4, target)
  {
    if e.shadow {
      LivePlanIsInOrder(e);
      NotedIsInOrder(ShadowHealthy, "shadow runtime healthy for candidate " + candidate,
                     if target == ShadowHealthy then ([], Reached) else LivePlan(e), target);
    }
  }

  lemma PaperPlanIsInOrder(e: Evidence, candidate: string, target: Stage)
    requires 3 <= Rank(target) < 6
    ensures InOrder(PaperPlan(e, candidate, target), 3, target)
  {
    if target != PaperHealthy { ShadowPlanIsInOrder(e, candidate, target); }
    if e.paper {
      NotedIsInOrder(PaperHealthy, "paper runtime healthy for candidate " + candidate,
                     if target == PaperHealthy then ([], Reached) else ShadowPlan(e, candidate, target), target);
    }
  }

  lemma HoldoutPlanIsInOrder(e: Evidence, target: Stage)
    requires e.candidates.Some? && 2 <= Rank(target) < 6
    ensures InOrder(HoldoutPlan(e, target), 2, target)
  {
    if e.sealedCandidate.Some? && e.sealedCandidate.value.Some? && (target == HoldoutPassed || e.attributions) {
      var candidate := e.sealedCandidate.value.value;
      if target != HoldoutPassed { PaperPlanIsInOrder(e, candidate, target); }
      NotedIsInOrder(HoldoutPassed, "sealed holdout passed for candidate " + candidate,
                     if target == HoldoutPassed then ([], Reached) else PaperPlan(e, candidate, target), target);
    }
  }

  lemma PlanIsInOrder(e: Evidence, reason: string, target: Stage)
    requires target != Learning
    ensures InOrder(Plan(e, reason, target), 1, target)
  {
    if target != Researching && e.candidates.Some? && e.candidates.value != [] {
      if target != WalkForwardKept { HoldoutPlanIsInOrder(e, target); }
      NotedIsInOrder(WalkForwardKept, reason + "; canonical walk-forward candidates: " + Join(e.candidates.value),
                     if target == WalkForwardKept then ([], Reached) else HoldoutPlan(e, target), target);
    }
  }

  /** The evidence supports every pipeline stage of rank 1 to `k`. */
  predicate Supports(e: Evidence, k: nat) {
    && (k >= 1 ==> e.candidates.Some? && e.candidates.value != [])
    && (k >= 2 ==> e.sealedCandidate.Some? && e.sealedCandidate.value.Some? && e.sealedCandidate.value.value in e.candidates.value)
    && (k >= 3 ==> e.attributions && e.paper)
    && (k >= 4 ==> e.shadow)
    && (k >= 5 ==> e.approval.Some? && e.approval.value.Some?)
  }

  /** The store could not be read for the stage of rank `k`. */
  predicate Unread(e: Evidence, k: nat) {
    || (k == 1 && e.candidates.None?) || (k == 2 && e.sealedCandidate.None?)
    || (k == 3 && !e.attributions) || (k == 5 && e.approval.None?)
  }

  /** The first stage, up to the target, that the evidence does not support. */
  predicate FirstUnsupported(e: Evidence, target: Stage, stage: Stage) {
    0 < Rank(stage) <= Rank(target) && Supports(e, Rank(stage) - 1) && !Supports(e, Rank(stage))
  }

  /** The verdict is what the evidence says: the target when everything up to it is supported, else the first stage that is not, or an error if that one could not be read. */
  ghost predicate Tells(verdict: Verdict, e: Evidence, target: Stage) {
    && (verdict == Reached <==> Supports(e, Rank(target)))
    && forall stage :: FirstUnsupported(e, target, stage) ==> verdict == if Unread(e, Rank(stage)) then Broken else Awaiting(stage)
  }

  lemma NotedVerdict(stage: Stage, reason: string, rest: (seq<StageNote>, Verdict))
    ensures Noted(stage, reason, rest).1 == rest.1
  {}

  lemma ShadowVerdict(e: Evidence, candidate: string, target: Stage)
    requires 4 <= Rank(target) < 6 && Supports(e, 3)
    ensures Tells(ShadowPlan(e, candidate, target).1, e, target)
  {
    var rest := if target == ShadowHealthy then ([], Reached) else LivePlan(e);
    NotedVerdict(ShadowHealthy, "shadow runtime healthy for candidate " + candidate, rest);
    assert e.shadow ==> Tells(rest.1, e, target);
  }

  lemma PaperVerdict(e: Evidence, candidate: string, target: Stage)
    requires 3 <= Rank(target) < 6 && Supports(e, 2) && e.attributions
    ensures Tells(PaperPlan(e, candidate, target).1, e, target)
  {
    var rest := if target == PaperHealthy then ([], Reached) else ShadowPlan(e, candidate, target);
    NotedVerdict(PaperHealthy, "paper runtime healthy for candidate " + candidate, rest);
    if e.paper && target != PaperHealthy { ShadowVerdict(e, candidate, target); }
    assert e.paper ==> Tells(rest.1, e, target);
  }

  lemma HoldoutVerdict(e: Evidence, target: Stage)
    requires 2 <= Rank(target) < 6 && Supports(e, 1)
    ensures Tells(HoldoutPlan(e, target).1, e, target)
  {
    if Supports(e, 2) {
      var candidate := e.sealedCandidate.value.value;
      var rest := if target == HoldoutPassed then ([], Reached) else PaperPlan(e, candidate, target);
      NotedVerdict(HoldoutPassed, "sealed holdout passed for candidate " + candidate, rest);
      if e.attributions && target != HoldoutPassed { PaperVerdict(e, candidate, target); }
    }
  }

  /** A verdict reports the evidence, whatever the stages noted on the way. */
  lemma VerdictTellsEvidence(e: Evidence, reason: string, target: Stage)
    requires target != Learning
    ensures Tells(Plan(e, reason, target).1, e, target)
  {
    if Rank(target) >= 2 && Supports(e, 1) { HoldoutVerdict(e, target); }
  }

  lemma {:induction false} AppendAllKeepsOk(l: Loop, w: World, mission: string, notes: seq<StageNote>, k: nat)
    requires Active(l) && CompletedBelow(l.run.records, mission, k)
    requires forall i :: 0 <= i < |notes| ==> Rank(notes[i].stage) == k + i && notes[i].stage != Learning
    ensures var (l1, ok) := AppendAll(l, w, mission, notes);
            Active(l1) && (ok ==> CompletedBelow(l1.run.records, mission, k + |notes|))
    decreases notes
  {
    if notes != [] {
      var (l1, ok) := AppendStage(l, w, mission, notes[0].stage, Completed, notes[0].reason);
      AppendStageKeepsOk(l, w, mission, notes[0].stage, Completed, notes[0].reason);
      AppendStageFrame(l, w, mission, notes[0].stage, Completed, notes[0].reason);
      if ok {
        CompletedBelowGrows(l.run.records, l1.run.records, mission, k);
        forall stage: Stage | Rank(stage) < k + 1 ensures Has(l1.run.records, mission, stage, Completed) {
          if Rank(stage) == k { RankInjective(stage, notes[0].stage); }
        }
        AppendAllKeepsOk(l1, w, mission, notes[1..], k + 1);
      }
    }
  }

  lemma RankInjective(a: Stage, b: Stage)
    requires Rank(a) == Rank(b)
    ensures a == b
  {}

  lemma ResearchedFirst(records: seq<Record>, mission: string)
    requires Has(records, mission, Researching, Completed)
    ensures CompletedBelow(records, mission, 1)
  {
    forall stage: Stage | Rank(stage) < 1 ensures Has(records, mission, stage, Completed) {
      RankInjective(stage, Researching);
    }
  }

  lemma CarryOutKeepsOk(l: Loop, w: World, mission: string, plan: (seq<StageNote>, Verdict))
    requires Active(l) && CompletedBelow(l.run.records, mission, 1) && InOrder(plan, 1, l.run.target)
    ensures var (l1, verdict) := CarryOut(l, w, mission, plan);
            && Active(l1) && l1.run.target == l.run.target
            && (verdict == Reached ==> CompletedBelow(l1.run.records, mission, Rank(l.run.target) + 1))
  {
    AppendAllKeepsOk(l, w, mission, plan.0, 1);
    AppendAllFrame(l, w, mission, plan.0);
  }

  lemma ProgressKeepsOk(l: Loop, w: World, mission: string)
    requires Active(l) && Has(l.run.records, mission, Researching, Completed)
    ensures var (l1, verdict) := Progress(l, w, mission);
            && Active(l1) && l1.run.target == l.run.target
            && (verdict == Reached ==> CompletedBelow(l1.run.records, mission, Rank(l.run.target) + 1))
  {
    PlanIsInOrder(w.evidence(mission), ResearchReason(l.run, mission), l.run.target);
    ResearchedFirst(l.run.records, mission);
    CarryOutKeepsOk(l, w, mission, Plan(w.evidence(mission), ResearchReason(l.run, mission), l.run.target));
  }

  lemma VisitCompletedKeepsOk(l: Loop, w: World, mission: string)
    requires Active(l) && Has(l.run.records, mission, Researching, Completed)
    ensures LoopOk(VisitCompleted(l, w, mission).0)
    ensures VisitCompleted(l, w, mission).1 != Continue
  {
    ProgressKeepsOk(l, w, mission);
    var (l1, v) := Progress(l, w, mission);
    match v
    case Reached => StopKeepsOk(l1, w, TargetStageReached(mission, l1.run.target));
    case Awaiting(stage) => StopKeepsOk(l1, w, AwaitingEvidence(mission, stage));
    case Broken =>
  }

  lemma RecordFailureKeepsOk(l: Loop, w: World, mission: string, stage: Stage, reason: string)
    requires Active(l)
    ensures LoopOk(RecordFailure(l, w, mission, stage, reason).0)
  {
    var (l1, ok) := AppendStage(l, w, mission, stage, Failed, reason);
    AppendStageKeepsOk(l, w, mission, stage, Failed, reason);
    StopKeepsOk(l1, w, MissionFailed(mission, reason));
  }

  lemma {:induction false} AddChildrenKeepsOk(run: LoopRun, followUps: seq<string>)
    requires RunOk(run)
    ensures RunOk(AddChildren(run, followUps).0)
    decreases followUps
  {
    if followUps != [] && !Blank(followUps[0]) && followUps[0] != run.root {
      if followUps[0] in run.children {
        AddChildrenKeepsOk(run, followUps[1..]);
      } else {
        var grown := run.(children := run.children + [followUps[0]]);
        if Valid(grown) { AddChildrenKeepsOk(grown, followUps[1..]); }
      }
    }
  }

  /** The loop is between two missions: running, and the whole worklist is on disk. */
  ghost predicate Between(l: Loop) {
    Active(l) && Disk(l).children == l.run.children
  }

  lemma SaveChildrenKeepsOk(l: Loop, w: World, followUps: seq<string>)
    requires Active(l)
    ensures var l1 := l.(run := AddChildren(l.run, followUps).0);
            LoopOk(l1) && LoopOk(Save(l1, w).0) && (Save(l1, w).1 ==> Between(Save(l1, w).0))
  {
    AddChildrenKeepsOk(l.run, followUps);
    AddChildrenFrame(l.run, followUps);
    SaveKeepsOk(l.(run := AddChildren(l.run, followUps).0), w);
  }

  lemma AfterLearningKeepsOk(l: Loop, w: World, mission: string, followUps: seq<string>)
    requires Active(l)
    ensures var (l1, v) := AfterLearning(l, w, mission, followUps); LoopOk(l1) && (v == Continue ==> Between(l1))
  {
    if followUps == [] {
      StopKeepsOk(l, w, ResearchBudgetExhausted(mission));
    } else {
      SaveChildrenKeepsOk(l, w, followUps);
    }
  }

  lemma VisitExhaustedKeepsOk(l: Loop, w: World, mission: string)
    requires Active(l) && Has(l.run.records, mission, Researching, BudgetExhausted)
    ensures var (l1, v) := VisitExhausted(l, w, mission); LoopOk(l1) && (v == Continue ==> Between(l1))
  {
    if w.learn(mission).None? {
      RecordFailureKeepsOk(l, w, mission, Learning, w.learnError(mission));
    } else {
      var learned := w.learn(mission).value;
      AppendStageKeepsOk(l, w, mission, Learning, Completed, learned.summary);
      AfterLearningKeepsOk(AppendStage(l, w, mission, Learning, Completed, learned.summary).0, w, mission, learned.followUps);
    }
  }

  lemma VisitSettledKeepsOk(l: Loop, w: World, mission: string, m: Mission)
    requires Active(l)
    ensures var (l1, v) := VisitSettled(l, w, mission, m); LoopOk(l1) && (v == Continue ==> Between(l1))
  {
    if m.status != Pending && m.status != Running {
      var (l1, ok) := AppendStage(l, w, mission, Researching, m.status, m.reason);
      AppendStageKeepsOk(l, w, mission, Researching, m.status, m.reason);
      if ok {
        match m.status {
          case Paused => StopKeepsOk(l1, w, MissionPaused(mission));
          case Failed => StopKeepsOk(l1, w, MissionFailed(mission, m.reason));
          case Completed => VisitCompletedKeepsOk(l1, w, mission);
          case BudgetExhausted => VisitExhaustedKeepsOk(l1, w, mission);
        }
      }
    }
  }

  lemma ExecuteKeepsOk(l: Loop, w: World, cursor: nat)
    requires Between(l) && cursor < |Ids(l.run)| && cursor < l.run.max
    ensures Active(Execute(l, w, Ids(l.run)[cursor]))
  {
    var mission := Ids(l.run)[cursor];
    var l1 := Execute(l, w, mission);
    assert Ids(Disk(l)) == Ids(l.run);
    assert Budgeted(l.run)[cursor] == mission;
    assert WithinLimit(l.journal, Execution(mission, |l.journal|));
    forall i | 0 <= i < |l1.executed| ensures WithinLimit(l1.journal, l1.executed[i]) {
      if i < |l.executed| { assert WithinLimit(l.journal, l.executed[i]); }
    }
  }

  lemma VisitKeepsOk(l: Loop, w: World, cursor: nat)
    requires Between(l) && cursor < |Ids(l.run)| && cursor < l.run.max
    ensures var (l1, v) := Visit(l, w, Ids(l.run)[cursor]); LoopOk(l1) && (v == Continue ==> Between(l1))
  {
    var mission := Ids(l.run)[cursor];
    ExecuteKeepsOk(l, w, cursor);
    var l1 := Execute(l, w, mission);
    if w.stored(mission).Some? {
      match Settled(w, mission)
      case None => RecordFailureKeepsOk(l1, w, mission, Researching, w.executeError(mission));
      case Some(m) => VisitSettledKeepsOk(l1, w, mission, m);
    }
  }

  lemma {:induction false} DriveKeepsOk(l: Loop, w: World, cursor: nat)
    requires Between(l) && cursor <= l.run.max
    ensures LoopOk(Drive(l, w, cursor).0)
    decreases l.run.max - cursor
  {
    if cursor >= |Ids(l.run)| || cursor >= l.run.max {
      StopKeepsOk(l, w, MissionLimitReached(cursor));
    } else {
      var mission := Ids(l.run)[cursor];
      VisitFrame(l, w, mission);
      VisitKeepsOk(l, w, cursor);
      var (l1, visited) := Visit(l, w, mission);
      if visited == Continue { DriveKeepsOk(l1, w, cursor + 1); }
    }
  }

  /** A run just loaded from the store. */
  ghost predicate Loaded(l: Loop) {
    LoopOk(l) && l.run == Disk(l)
  }

  lemma InvokeKeepsOk(l: Loop, w: World)
    requires Loaded(l)
    ensures LoopOk(Invoke(l, w).0) && Frame(l, Invoke(l, w).0)
  {
    if l.run.status == Running {
      DriveKeepsOk(l, w, 0);
      DriveFrame(l, w, 0);
    } else if !Terminal(l.run.status) {
      var (l1, ok) := Save(l.(run := Started(l.run)), w);
      SaveKeepsOk(l.(run := Started(l.run)), w);
      if ok {
        DriveKeepsOk(l1, w, 0);
        DriveFrame(l1, w, 0);
        FrameTrans(l, l1, Drive(l1, w, 0).0);
      }
    }
  }

  // ----- Whole lives: invocations, each cut short by a crash after any number of saves -----

  datatype Session = Session(world: World, saves: nat)

  function Survivors(executed: seq<Execution>, saves: nat): seq<Execution> {
    if executed == [] then []
    else if executed[|executed| - 1].saves <= saves then Survivors(executed[..|executed| - 1], saves) + [executed[|executed| - 1]]
    else Survivors(executed[..|executed| - 1], saves)
  }

  /** What is on disk, and what has been executed, if the process died when the store held `saves` versions. */
  function Crash(before: Loop, after: Loop, saves: nat): Loop
    requires 0 < |before.journal| <= |after.journal|
  {
    var k := if saves < |before.journal| then |before.journal| else if saves > |after.journal| then |after.journal| else saves;
    Loop(after.journal[k - 1], after.journal[..k], Survivors(after.executed, k))
  }

  ghost function Life(l: Loop, sessions: seq<Session>): Loop
    requires Loaded(l)
    ensures Loaded(Life(l, sessions)) && l.journal <= Life(l, sessions).journal
    decreases sessions
  {
    if sessions == [] then l
    else
      InvokeKeepsOk(l, sessions[0].world);
      CrashIsLoaded(l, sessions[0].world, sessions[0].saves);
      Life(Crash(l, Invoke(l, sessions[0].world).0, sessions[0].saves), sessions[1..])
  }

  lemma {:induction false} SurvivorsWithin(journal: seq<LoopRun>, executed: seq<Execution>, k: nat, i: nat)
    requires 0 < k <= |journal| && forall i :: 0 <= i < |executed| ==> WithinLimit(journal, executed[i])
    requires i < |Survivors(executed, k)|
    ensures WithinLimit(journal[..k], Survivors(executed, k)[i])
    decreases |executed|
  {
    var rest, last := executed[..|executed| - 1], executed[|executed| - 1];
    if i < |Survivors(rest, k)| {
      SurvivorsWithin(journal, rest, k, i);
    } else {
      assert WithinLimit(journal, last) && Survivors(executed, k)[i] == last;
      assert journal[..k][last.saves - 1] == journal[last.saves - 1];
    }
  }

  lemma CutIsLoaded(before: Loop, after: Loop, saves: nat)
    requires JournalOk(before.journal) && LoopOk(after) && before.journal <= after.journal
    ensures Loaded(Crash(before, after, saves)) && before.journal <= Crash(before, after, saves).journal
  {
    var c := Crash(before, after, saves);
    forall i | 0 <= i < |c.executed| ensures WithinLimit(c.journal, c.executed[i]) {
      SurvivorsWithin(after.journal, after.executed, |c.journal|, i);
    }
    JournalPrefixOk(after.journal, |c.journal|);
  }

  /** Whatever a crash leaves behind can be loaded again. */
  lemma CrashIsLoaded(l: Loop, w: World, saves: nat)
    requires Loaded(l)
    ensures LoopOk(Invoke(l, w).0) && l.journal <= Invoke(l, w).0.journal
    ensures Loaded(Crash(l, Invoke(l, w).0, saves))
    ensures l.journal <= Crash(l, Invoke(l, w).0, saves).journal
  {
    InvokeKeepsOk(l, w);
    CutIsLoaded(l, Invoke(l, w).0, saves);
  }

  // ----- The laws of a whole life -----

  /** The run that `load_or_create_run` writes when the store has none. */
  function Created(id: string, root: string, target: Stage, max: nat): Loop {
    var run := LoopRun(id, root, target, max, [], [], Pending, None);
    Loop(run, [run], [])
  }

  lemma CreatedIsLoaded(id: string, root: string, target: Stage, max: nat)
    requires !Blank(id) && !Blank(root) && max > 0 && target != Learning
    ensures Loaded(Created(id, root, target, max))
  {}

  lemma {:induction false} HistoryOnlyGrows(journal: seq<LoopRun>, i: nat, j: nat)
    requires JournalOk(journal) && i <= j < |journal|
    ensures Appends(journal[i], journal[j])
    decreases j - i
  {
    if i < j {
      HistoryOnlyGrows(journal, i, j - 1);
      VersionOk(journal, j);
    }
  }

  lemma BudgetedGrows(before: LoopRun, after: LoopRun)
    requires Appends(before, after)
    ensures Budgeted(before) <= Budgeted(after) && |Budgeted(after)| <= after.max + 1
    ensures after.max > 0 ==> |Budgeted(after)| <= after.max
  {}

  ghost function Missions(executed: seq<Execution>): set<string> {
    set i | 0 <= i < |executed| :: executed[i].mission
  }

  /** Every mission ever executed is among the first `max` entries of the list now on disk, so there are at most `max` of them. */
  lemma ExecutionsAreBounded(l: Loop)
    requires Loaded(l)
    ensures forall i :: 0 <= i < |l.executed| ==> l.executed[i].mission in Budgeted(l.run)
    ensures |Missions(l.executed)| <= l.run.max
  {
    forall i | 0 <= i < |l.executed| ensures l.executed[i].mission in Budgeted(l.run) {
      assert WithinLimit(l.journal, l.executed[i]);
      HistoryOnlyGrows(l.journal, l.executed[i].saves - 1, |l.journal| - 1);
      BudgetedGrows(l.journal[l.executed[i].saves - 1], l.run);
    }
    var all := Members(Budgeted(l.run));
    SubsetSize(Missions(l.executed), all);
    MembersAtMostLength(Budgeted(l.run));
    BudgetedGrows(l.run, l.run);
  }

  /** A saved version makes sense on its own: its texts, its worklist, its records' missions, and its status against its stop. */
  ghost predicate Coherent(run: LoopRun) {
    && !Blank(run.id) && !Blank(run.root) && run.max > 0 && run.root !in run.children
    && (forall i :: 0 <= i < |run.children| ==> !Blank(run.children[i]))
    && (forall i, j :: 0 <= i < j < |run.children| ==> run.children[i] != run.children[j])
    && (forall i :: 0 <= i < |run.records| ==>
          !Blank(run.records[i].reason) && (run.records[i].mission == run.root || run.records[i].mission in run.children))
    && match run.stop
       case None => run.status == Pending || run.status == Running
       case Some(TargetStageReached(_, _)) => run.status == Completed
       case Some(AwaitingEvidence(_, _)) => run.status == Paused
       case Some(MissionPaused(_)) => run.status == Paused
       case Some(ResearchBudgetExhausted(_)) => run.status == BudgetExhausted
       case Some(MissionLimitReached(_)) => run.status == BudgetExhausted
       case Some(MissionFailed(_, _)) => run.status == Failed
  }

  lemma ValidIsCoherent(run: LoopRun)
    requires Valid(run) && RunOk(run)
    ensures Coherent(run)
  {
    forall i | 0 <= i < |run.records|
      ensures !Blank(run.records[i].reason) && (run.records[i].mission == run.root || run.records[i].mission in run.children)
    {
      assert RecordValid(run, run.records[i]);
    }
  }

  /**
   Over any sequence of invocations, each cut short anywhere or not at all: executions stay
   within the mission limit and the worklist; histories only grow; record identifiers never
   collide; stages complete in order; a target stop is earned; nothing is saved after a
   terminal version.
   */
  lemma {:induction false} WholeLifeIsSafe(id: string, root: string, target: Stage, max: nat, sessions: seq<Session>)
    requires !Blank(id) && !Blank(root) && max > 0 && target != Learning
    ensures Loaded(Created(id, root, target, max))
    ensures var l := Life(Created(id, root, target, max), sessions);
            && |Missions(l.executed)| <= max
            && (forall i :: 0 <= i < |l.executed| ==> l.executed[i].mission in Budgeted(l.run))
            && (forall i, j :: 0 <= i <= j < |l.journal| ==> Appends(l.journal[i], l.journal[j]))
            && (forall i, j, k :: 0 <= i < |l.journal| && 0 <= j < k < |l.journal[i].records| ==>
                  l.journal[i].records[j].id != l.journal[i].records[k].id)
            && (forall i :: 0 <= i < |l.journal| ==> Coherent(l.journal[i]) && Ordered(l.journal[i].records) && StopJustified(l.journal[i]))
            && (forall i :: 0 <= i < |l.journal| && Terminal(l.journal[i].status) ==> i == |l.journal| - 1)
  {
    CreatedIsLoaded(id, root, target, max);
    var l := Life(Created(id, root, target, max), sessions);
    ExecutionsAreBounded(l);
    HistoryOnlyGrows(l.journal, 0, |l.journal| - 1);
    forall i, j | 0 <= i <= j < |l.journal| ensures Appends(l.journal[i], l.journal[j]) {
      HistoryOnlyGrows(l.journal, i, j);
    }
    forall i, j, k | 0 <= i < |l.journal| && 0 <= j < k < |l.journal[i].records|
      ensures l.journal[i].records[j].id != l.journal[i].records[k].id
    {
      VersionOk(l.journal, i);
      NumberedIdsAreDistinct(l.journal[i]);
    }
    forall i | 0 <= i < |l.journal|
      ensures Coherent(l.journal[i]) && Ordered(l.journal[i].records) && StopJustified(l.journal[i])
      ensures Terminal(l.journal[i].status) ==> i == |l.journal| - 1
    {
      VersionOk(l.journal, i);
      ValidIsCoherent(l.journal[i]);
      if i < |l.journal| - 1 { VersionOk(l.journal, i + 1); }
    }
  }

  lemma {:induction false} AllSurvive(executed: seq<Execution>, saves: nat)
    requires forall i :: 0 <= i < |executed| ==> executed[i].saves <= saves
    ensures Survivors(executed, saves) == executed
  {
    if executed != [] { AllSurvive(executed[..|executed| - 1], saves); }
  }

  lemma CrashOfIdle(l: Loop, saves: nat)
    requires Loaded(l)
    ensures Crash(l, l, saves) == l
  {
    forall i | 0 <= i < |l.executed| ensures l.executed[i].saves <= |l.journal| {
      assert WithinLimit(l.journal, l.executed[i]);
    }
    AllSurvive(l.executed, |l.journal|);
    assert l.journal[..|l.journal|] == l.journal;
  }

  /** A terminal run is never changed again, and nothing more is executed for it. */
  lemma {:induction false} TerminalRunNeverChanges(l: Loop, sessions: seq<Session>)
    requires Loaded(l) && Terminal(l.run.status)
    ensures Life(l, sessions) == l
    decreases sessions
  {
    if sessions != [] {
      CrashOfIdle(l, sessions[0].saves);
      assert Invoke(l, sessions[0].world).0 == l;
      TerminalRunNeverChanges(l, sessions[1..]);
    }
  }
}
