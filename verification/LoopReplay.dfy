/** Re-running a run that paused on missing evidence changes nothing while the world reads back the same. */
module LoopReplay {
  import opened Prelude
  import opened LoopModel
  import opened LoopSafety

  // ----- What a visit leaves behind for other missions and stages -----

  /** Only records about `mission`, at stages of rank at least `from`, were added. */
  ghost predicate Touches(before: seq<Record>, after: seq<Record>, mission: string, from: nat) {
    && before <= after
    && forall i :: |before| <= i < |after| ==> after[i].mission == mission && Rank(after[i].stage) >= from
  }

  lemma TouchesTrans(a: seq<Record>, b: seq<Record>, c: seq<Record>, mission: string, from: nat)
    requires Touches(a, b, mission, from) && Touches(b, c, mission, from)
    ensures Touches(a, c, mission, from)
  {}

  lemma {:induction false} LatestElsewhere(before: seq<Record>, after: seq<Record>, mission: string, from: nat, other: string, stage: Stage)
    requires Touches(before, after, mission, from) && (other != mission || Rank(stage) < from)
    ensures Latest(after, other, stage) == Latest(before, other, stage)
    decreases |after|
  {
    if |after| > |before| {
      LatestElsewhere(before, after[..|after| - 1], mission, from, other, stage);
    } else {
      assert after == before;
    }
  }

  lemma AppendStageEffect(l: Loop, w: World, mission: string, stage: Stage, status: Status, reason: string)
    ensures var r := AppendStage(l, w, mission, stage, status, reason);
            Touches(l.run.records, r.0.run.records, mission, Rank(stage)) && r.0.executed == l.executed
            && (r.1 ==> Unchanged(r.0.run.records, mission, stage, status, reason)
                        && r.0.run == l.run.(records := r.0.run.records))
  {
    if !Unchanged(l.run.records, mission, stage, status, reason) {
      var records := Appended(l.run, mission, stage, status, reason).records;
      assert Latest(records, mission, stage) == Some(records[|records| - 1]);
    }
  }

  /** The records settle a list of notes for the mission. */
  ghost predicate Noting(records: seq<Record>, mission: string, notes: seq<StageNote>) {
    forall i :: 0 <= i < |notes| ==> Unchanged(records, mission, notes[i].stage, Completed, notes[i].reason)
  }

  lemma {:induction false} AppendAllEffect(l: Loop, w: World, mission: string, notes: seq<StageNote>, first: nat)
    requires forall i :: 0 <= i < |notes| ==> Rank(notes[i].stage) == first + i
    ensures var r := AppendAll(l, w, mission, notes);
            Touches(l.run.records, r.0.run.records, mission, first) && r.0.executed == l.executed
            && (r.1 ==> Noting(r.0.run.records, mission, notes) && r.0.run == l.run.(records := r.0.run.records))
    decreases notes
  {
    if notes != [] {
      var r := AppendStage(l, w, mission, notes[0].stage, Completed, notes[0].reason);
      AppendStageEffect(l, w, mission, notes[0].stage, Completed, notes[0].reason);
      if r.1 {
        AppendAllEffect(r.0, w, mission, notes[1..], first + 1);
        var records := AppendAll(r.0, w, mission, notes[1..]).0.run.records;
        assert AppendAll(l, w, mission, notes) == AppendAll(r.0, w, mission, notes[1..]);
        TouchesTrans(l.run.records, r.0.run.records, records, mission, first);
        LatestElsewhere(r.0.run.records, records, mission, first + 1, mission, notes[0].stage);
        if AppendAll(l, w, mission, notes).1 {
          forall i | 0 <= i < |notes| ensures Unchanged(records, mission, notes[i].stage, Completed, notes[i].reason) {
            if i > 0 { assert notes[i] == notes[1..][i - 1]; }
          }
        }
      }
    }
  }

  lemma {:induction false} AppendAllIsQuiet(l: Loop, w: World, mission: string, notes: seq<StageNote>)
    requires Noting(l.run.records, mission, notes)
    ensures AppendAll(l, w, mission, notes) == (l, true)
    decreases notes
  {
    if notes != [] {
      assert Unchanged(l.run.records, mission, notes[0].stage, Completed, notes[0].reason);
      forall i | 0 <= i < |notes[1..]|
        ensures Unchanged(l.run.records, mission, notes[1..][i].stage, Completed, notes[1..][i].reason)
      {
        assert notes[1..][i] == notes[i + 1];
      }
      AppendAllIsQuiet(l, w, mission, notes[1..]);
    }
  }

  /** Every follow-up is already a child. */
  ghost predicate Adopted(run: LoopRun, followUps: seq<string>) {
    forall i :: 0 <= i < |followUps| ==> !Blank(followUps[i]) && followUps[i] != run.root && followUps[i] in run.children
  }

  lemma {:induction false} AddChildrenAdopts(run: LoopRun, followUps: seq<string>)
    ensures AddChildren(run, followUps).1 ==> Adopted(AddChildren(run, followUps).0, followUps)
    decreases followUps
  {
    if followUps != [] && !Blank(followUps[0]) && followUps[0] != run.root {
      var grown := if followUps[0] in run.children then run else run.(children := run.children + [followUps[0]]);
      if grown == run || Valid(grown) {
        AddChildrenAdopts(grown, followUps[1..]);
        AddChildrenFrame(grown, followUps[1..]);
        var last := AddChildren(grown, followUps[1..]).0;
        assert followUps[0] in last.children;
        assert AddChildren(run, followUps) == AddChildren(grown, followUps[1..]);
        if AddChildren(run, followUps).1 {
          forall i | 0 <= i < |followUps|
            ensures !Blank(followUps[i]) && followUps[i] != last.root && followUps[i] in last.children
          {
            if i > 0 { assert followUps[i] == followUps[1..][i - 1]; }
          }
        }
      }
    }
  }

  lemma {:induction false} AddChildrenIsQuiet(run: LoopRun, followUps: seq<string>)
    requires Adopted(run, followUps)
    ensures AddChildren(run, followUps) == (run, true)
    decreases followUps
  {
    if followUps != [] { AddChildrenIsQuiet(run, followUps[1..]); }
  }

  // ----- Missions whose next visit adds nothing -----

  /** The next visit finds the search exhausted, the learning recorded and every follow-up adopted. */
  ghost predicate QuietExhausted(run: LoopRun, w: World, mission: string) {
    var m := Settled(w, mission);
    && m.Some? && m.value.status == BudgetExhausted
    && Unchanged(run.records, mission, Researching, BudgetExhausted, m.value.reason)
    && w.learn(mission).Some? && w.learn(mission).value.followUps != []
    && Unchanged(run.records, mission, Learning, Completed, w.learn(mission).value.summary)
    && Adopted(run, w.learn(mission).value.followUps)
  }

  /** The next visit finds every supported stage recorded and stops again for want of evidence of `stage`. */
  ghost predicate QuietAwaiting(run: LoopRun, w: World, mission: string, stage: Stage) {
    var m := Settled(w, mission);
    && m.Some? && m.value.status == Completed
    && Unchanged(run.records, mission, Researching, Completed, m.value.reason)
    && Plan(w.evidence(mission), m.value.reason, run.target).1 == Awaiting(stage)
    && Noting(run.records, mission, Plan(w.evidence(mission), m.value.reason, run.target).0)
  }

  lemma AfterLearningEffect(l: Loop, w: World, mission: string, followUps: seq<string>)
    ensures var r := AfterLearning(l, w, mission, followUps);
            r.1 == Continue ==> r.0.run.records == l.run.records && followUps != [] && Adopted(r.0.run, followUps)
  {
    AddChildrenAdopts(l.run, followUps);
    AddChildrenFrame(l.run, followUps);
  }

  lemma VisitExhaustedEffect(l: Loop, w: World, mission: string)
    ensures var r := VisitExhausted(l, w, mission);
            r.1 == Continue ==>
              && Touches(l.run.records, r.0.run.records, mission, 1)
              && w.learn(mission).Some? && w.learn(mission).value.followUps != []
              && Unchanged(r.0.run.records, mission, Learning, Completed, w.learn(mission).value.summary)
              && Adopted(r.0.run, w.learn(mission).value.followUps)
  {
    if w.learn(mission).Some? {
      var learned := w.learn(mission).value;
      AppendStageEffect(l, w, mission, Learning, Completed, learned.summary);
      AfterLearningEffect(AppendStage(l, w, mission, Learning, Completed, learned.summary).0, w, mission, learned.followUps);
    }
  }

  lemma VisitContinueEffect(l: Loop, w: World, mission: string)
    requires Visit(l, w, mission).1 == Continue
    ensures QuietExhausted(Visit(l, w, mission).0.run, w, mission)
    ensures Touches(l.run.records, Visit(l, w, mission).0.run.records, mission, 0)
  {
    var l0 := Execute(l, w, mission);
    var m := Settled(w, mission).value;
    var l1 := AppendStage(l0, w, mission, Researching, m.status, m.reason).0;
    AppendStageEffect(l0, w, mission, Researching, m.status, m.reason);
    VisitCompletedNeverContinues(l1, w, mission);
    VisitExhaustedEffect(l1, w, mission);
    var l2 := VisitExhausted(l1, w, mission).0;
    assert Visit(l, w, mission) == VisitExhausted(l1, w, mission);
    LatestElsewhere(l1.run.records, l2.run.records, mission, 1, mission, Researching);
    TouchesTrans(l0.run.records, l1.run.records, l2.run.records, mission, 0);
  }

  lemma VisitCompletedNeverContinues(l: Loop, w: World, mission: string)
    ensures VisitCompleted(l, w, mission).1 != Continue
  {}

  /** The loop stopped for want of evidence, and that is what is on disk. */
  ghost predicate PausedOn(l: Loop, w: World, mission: string, stage: Stage) {
    && l.run.stop == Some(AwaitingEvidence(mission, stage)) && Saveable(l, w) && Disk(l) == l.run
  }

  lemma CarryOutEffect(l: Loop, w: World, mission: string, plan: (seq<StageNote>, Verdict), target: Stage)
    requires InOrder(plan, 1, target)
    ensures var (l1, verdict) := CarryOut(l, w, mission, plan);
            Touches(l.run.records, l1.run.records, mission, 1)
            && (verdict.Awaiting? ==> verdict == plan.1 && Noting(l1.run.records, mission, plan.0))
  {
    AppendAllEffect(l, w, mission, plan.0, 1);
  }

  lemma VisitCompletedEffect(l: Loop, w: World, mission: string, reason: string)
    requires l.run.target != Learning && Unchanged(l.run.records, mission, Researching, Completed, reason)
    ensures var r := VisitCompleted(l, w, mission);
            r.1 == Halted && r.0.run.stop.Some? && r.0.run.stop.value.AwaitingEvidence? ==>
              var stage := r.0.run.stop.value.stage;
              && Touches(l.run.records, r.0.run.records, mission, 1) && PausedOn(r.0, w, mission, stage)
              && Plan(w.evidence(mission), reason, l.run.target).1 == Awaiting(stage)
              && Noting(r.0.run.records, mission, Plan(w.evidence(mission), reason, l.run.target).0)
  {
    assert ResearchReason(l.run, mission) == reason;
    PlanIsInOrder(w.evidence(mission), reason, l.run.target);
    CarryOutEffect(l, w, mission, Plan(w.evidence(mission), reason, l.run.target), l.run.target);
  }

  /** Only a completed mission can end a visit for want of evidence. */
  lemma OnlyCompletedAwaits(l: Loop, w: World, mission: string, m: Mission)
    requires l.run.stop == None
    requires var r := VisitSettled(l, w, mission, m);
             r.1 == Halted && r.0.run.stop.Some? && r.0.run.stop.value.AwaitingEvidence?
    ensures m.status == Completed && AppendStage(l, w, mission, Researching, Completed, m.reason).1
    ensures VisitSettled(l, w, mission, m) == VisitCompleted(AppendStage(l, w, mission, Researching, Completed, m.reason).0, w, mission)
  {
    var l1 := AppendStage(l, w, mission, Researching, m.status, m.reason).0;
    AppendStageEffect(l, w, mission, Researching, m.status, m.reason);
    if m.status == BudgetExhausted && l1.run.stop == None { VisitExhaustedNeverAwaits(l1, w, mission); }
  }

  lemma VisitAwaitingEffect(l: Loop, w: World, mission: string)
    requires l.run.target != Learning && l.run.stop == None
    requires var r := Visit(l, w, mission);
             r.1 == Halted && r.0.run.stop.Some? && r.0.run.stop.value.AwaitingEvidence?
    ensures var r := Visit(l, w, mission);
            && Touches(l.run.records, r.0.run.records, mission, 0)
            && PausedOn(r.0, w, mission, r.0.run.stop.value.stage)
            && QuietAwaiting(r.0.run, w, mission, r.0.run.stop.value.stage)
  {
    var l0 := Execute(l, w, mission);
    var m := Settled(w, mission).value;
    assert Visit(l, w, mission) == VisitSettled(l0, w, mission, m);
    OnlyCompletedAwaits(l0, w, mission, m);
    var l1 := AppendStage(l0, w, mission, Researching, Completed, m.reason).0;
    AppendStageEffect(l0, w, mission, Researching, Completed, m.reason);
    VisitCompletedEffect(l1, w, mission, m.reason);
    VisitCompletedFrame(l1, w, mission);
    var l2 := VisitCompleted(l1, w, mission).0;
    LatestElsewhere(l1.run.records, l2.run.records, mission, 1, mission, Researching);
    TouchesTrans(l0.run.records, l1.run.records, l2.run.records, mission, 0);
  }

  lemma VisitExhaustedNeverAwaits(l: Loop, w: World, mission: string)
    requires l.run.stop == None
    ensures var r := VisitExhausted(l, w, mission);
            r.1 == Halted && r.0.run.stop.Some? ==> !r.0.run.stop.value.AwaitingEvidence?
  {}

  lemma QuietSurvives(before: LoopRun, after: LoopRun, w: World, visited: string, mission: string)
    requires QuietExhausted(before, w, mission) && mission != visited
    requires Appends(before, after) && Touches(before.records, after.records, visited, 0)
    ensures QuietExhausted(after, w, mission)
  {
    LatestElsewhere(before.records, after.records, visited, 0, mission, Researching);
    LatestElsewhere(before.records, after.records, visited, 0, mission, Learning);
  }

  /** All missions before position `k` of the worklist are quiet. */
  ghost predicate QuietBefore(run: LoopRun, w: World, k: nat) {
    k <= |Ids(run)| && forall i :: 0 <= i < k ==> QuietExhausted(run, w, Ids(run)[i])
  }

  lemma QuietBeforeSurvives(before: LoopRun, after: LoopRun, w: World, k: nat)
    requires QuietBefore(before, w, k) && k < |Ids(before)| && Distinct(Ids(before))
    requires Appends(before, after) && Touches(before.records, after.records, Ids(before)[k], 0)
    ensures QuietBefore(after, w, k) && Ids(after)[k] == Ids(before)[k]
  {
    forall i | 0 <= i < k ensures QuietExhausted(after, w, Ids(after)[i]) {
      QuietSurvives(before, after, w, Ids(before)[k], Ids(before)[i]);
      assert Ids(after)[i] == Ids(before)[i];
    }
  }

  lemma WorklistIsDistinct(run: LoopRun)
    requires RunOk(run)
    ensures Distinct(Ids(run))
  {}

  /** The loop is paused at position `k`, and another pass up to there would find nothing new. */
  ghost predicate Rests(l: Loop, w: World, k: nat) {
    && k < l.run.max && k < |Ids(l.run)| && QuietBefore(l.run, w, k)
    && l.run.stop.Some? && l.run.stop.value.AwaitingEvidence?
    && PausedOn(l, w, Ids(l.run)[k], l.run.stop.value.stage)
    && QuietAwaiting(l.run, w, Ids(l.run)[k], l.run.stop.value.stage)
  }

  ghost predicate Awaits(r: (Loop, bool)) {
    r.1 && r.0.run.stop.Some? && r.0.run.stop.value.AwaitingEvidence?
  }

  /** A visit that goes on makes its own position quiet too. */
  lemma QuietOneMore(l: Loop, w: World, cursor: nat, l1: Loop)
    requires cursor < |Ids(l.run)| && Distinct(Ids(l.run)) && QuietBefore(l.run, w, cursor) && Appends(l.run, l1.run)
    requires Touches(l.run.records, l1.run.records, Ids(l.run)[cursor], 0) && QuietExhausted(l1.run, w, Ids(l.run)[cursor])
    ensures cursor + 1 <= |Ids(l1.run)| && QuietBefore(l1.run, w, cursor + 1)
  {
    QuietBeforeSurvives(l.run, l1.run, w, cursor);
  }

  lemma ContinueStaysQuiet(l: Loop, w: World, cursor: nat)
    requires cursor < |Ids(l.run)| && RunOk(l.run) && QuietBefore(l.run, w, cursor)
    requires Visit(l, w, Ids(l.run)[cursor]).1 == Continue
    ensures var l1 := Visit(l, w, Ids(l.run)[cursor]).0;
            l1.run.max == l.run.max && cursor + 1 <= |Ids(l1.run)| && QuietBefore(l1.run, w, cursor + 1)
  {
    var mission := Ids(l.run)[cursor];
    VisitFrame(l, w, mission);
    VisitContinueEffect(l, w, mission);
    WorklistIsDistinct(l.run);
    QuietOneMore(l, w, cursor, Visit(l, w, mission).0);
  }

  /** What a visit that paused leaves behind, seen from its position in the worklist. */
  lemma PausedRests(l: Loop, w: World, cursor: nat, l1: Loop, stage: Stage)
    requires cursor < |Ids(l.run)| && cursor < l.run.max && Distinct(Ids(l.run)) && QuietBefore(l.run, w, cursor)
    requires Appends(l.run, l1.run) && Touches(l.run.records, l1.run.records, Ids(l.run)[cursor], 0)
    requires PausedOn(l1, w, Ids(l.run)[cursor], stage) && QuietAwaiting(l1.run, w, Ids(l.run)[cursor], stage)
    ensures Rests(l1, w, cursor)
  {
    QuietBeforeSurvives(l.run, l1.run, w, cursor);
  }

  lemma AwaitingRests(l: Loop, w: World, cursor: nat)
    requires cursor < |Ids(l.run)| && cursor < l.run.max && RunOk(l.run) && l.run.stop == None && QuietBefore(l.run, w, cursor)
    requires var r := Visit(l, w, Ids(l.run)[cursor]);
             r.1 == Halted && r.0.run.stop.Some? && r.0.run.stop.value.AwaitingEvidence?
    ensures Rests(Visit(l, w, Ids(l.run)[cursor]).0, w, cursor)
  {
    var mission := Ids(l.run)[cursor];
    var l1 := Visit(l, w, mission).0;
    VisitFrame(l, w, mission);
    VisitAwaitingEffect(l, w, mission);
    WorklistIsDistinct(l.run);
    PausedRests(l, w, cursor, l1, l1.run.stop.value.stage);
  }

  lemma {:induction false} DriveRests(l: Loop, w: World, cursor: nat) returns (k: nat)
    requires Between(l) && cursor <= l.run.max && cursor <= |Ids(l.run)| && QuietBefore(l.run, w, cursor)
    requires Awaits(Drive(l, w, cursor))
    ensures Rests(Drive(l, w, cursor).0, w, k)
    decreases l.run.max - cursor
  {
    if cursor >= |Ids(l.run)| || cursor >= l.run.max {
      NoMissionNoWait(l, w, cursor);
    }
    var r := Visit(l, w, Ids(l.run)[cursor]);
    DriveStep(l, w, cursor, r.0, r.1);
    if r.1 == Continue {
      VisitKeepsOk(l, w, cursor);
      ContinueStaysQuiet(l, w, cursor);
      k := DriveRests(r.0, w, cursor + 1);
    } else {
      AwaitingRests(l, w, cursor);
      k := cursor;
    }
  }

  lemma NoMissionNoWait(l: Loop, w: World, cursor: nat)
    requires Active(l) && cursor <= l.run.max && (cursor >= |Ids(l.run)| || cursor >= l.run.max)
    ensures !Awaits(Drive(l, w, cursor))
  {
    DriveEnds(l, w, cursor);
  }

  // ----- The second pass -----

  /** Missions, learning outcomes, evidence and known missions read back as the first pass left them. */
  ghost predicate ReadsBack(w: World, w': World) {
    forall x: string ::
      && (Settled(w, x).Some? && Terminal(Settled(w, x).value.status) ==> w'.stored(x) == Settled(w, x))
      && w'.learn(x) == w.learn(x) && w'.evidence(x) == w.evidence(x) && (w.known(x) ==> w'.known(x))
  }

  lemma QuietVisitExhausted(l: Loop, w: World, w': World, mission: string)
    requires ReadsBack(w, w') && QuietExhausted(l.run, w, mission) && Saveable(l, w')
    ensures Visit(l, w', mission) == (l.(journal := l.journal + [l.run]), Continue)
  {
    AddChildrenIsQuiet(l.run, w.learn(mission).value.followUps);
  }

  lemma QuietStop(l: Loop, w: World, reason: StopReason)
    requires Saveable(l, w) && l.run.status == Running
    ensures Stop(l, w, reason) == (l.(run := Stopped(l.run, reason), journal := l.journal + [Stopped(l.run, reason)]), true)
  {}

  lemma QuietVisitCompleted(l: Loop, w: World, mission: string, reason: string, stage: Stage)
    requires Unchanged(l.run.records, mission, Researching, Completed, reason)
    requires Plan(w.evidence(mission), reason, l.run.target).1 == Awaiting(stage)
    requires Noting(l.run.records, mission, Plan(w.evidence(mission), reason, l.run.target).0)
    ensures VisitCompleted(l, w, mission) == Halt(Stop(l, w, AwaitingEvidence(mission, stage)))
  {
    assert ResearchReason(l.run, mission) == reason;
    AppendAllIsQuiet(l, w, mission, Plan(w.evidence(mission), reason, l.run.target).0);
  }

  lemma QuietVisitAwaiting(l: Loop, w: World, w': World, mission: string, stage: Stage)
    requires ReadsBack(w, w') && QuietAwaiting(l.run, w, mission, stage) && Saveable(l, w') && l.run.status == Running
    ensures var r := Visit(l, w', mission);
            r.1 == Halted && r.0.run == Stopped(l.run, AwaitingEvidence(mission, stage)) && r.0.executed == l.executed
  {
    var m := Settled(w, mission).value;
    QuietVisitCompleted(l, w', mission, m.reason, stage);
    assert Visit(l, w', mission) == VisitSettled(l, w', mission, m) == VisitCompleted(l, w', mission);
    QuietStop(l, w', AwaitingEvidence(mission, stage));
  }

  lemma {:induction false} QuietDrive(l: Loop, w: World, w': World, cursor: nat, k: nat, stage: Stage)
    requires ReadsBack(w, w') && Saveable(l, w') && l.run.status == Running
    requires cursor <= k < |Ids(l.run)| && k < l.run.max && QuietBefore(l.run, w, k)
    requires QuietAwaiting(l.run, w, Ids(l.run)[k], stage)
    ensures var (l1, ok) := Drive(l, w', cursor);
            ok && l1.run == Stopped(l.run, AwaitingEvidence(Ids(l.run)[k], stage)) && l1.executed == l.executed
    decreases k - cursor
  {
    var mission := Ids(l.run)[cursor];
    if cursor < k {
      QuietVisitExhausted(l, w, w', mission);
      var l1 := l.(journal := l.journal + [l.run]);
      DriveStep(l, w', cursor, l1, Continue);
      QuietDrive(l1, w, w', cursor + 1, k, stage);
    } else {
      QuietVisitAwaiting(l, w, w', mission, stage);
      DriveStep(l, w', cursor, Visit(l, w', mission).0, Halted);
    }
  }

  /**
   A run that paused on missing evidence is a fixed point: invoked again while the world reads
   back the same, it ends with the very same run, records and stop reason included, and
   executes nothing.
   */
  lemma {:induction false} PausedRunIsAFixedPoint(l: Loop, w: World, w': World)
    requires Loaded(l) && !Terminal(l.run.status) && Awaits(Invoke(l, w)) && ReadsBack(w, w')
    ensures var l1 := Invoke(l, w).0;
            var (l2, ok) := Invoke(l1, w');
            Loaded(l1) && ok && l2.run == l1.run && l2.executed == l1.executed
  {
    var started := StartOf(l, w);
    var k := DriveRests(started, w, 0);
    DriveKeepsOk(started, w, 0);
    Replay(Invoke(l, w).0, w, w', k);
  }

  /** An invocation that does not fail at once drives from a saved, running version. */
  lemma StartOf(l: Loop, w: World) returns (started: Loop)
    requires Loaded(l) && !Terminal(l.run.status) && Invoke(l, w).1
    ensures Between(started) && Invoke(l, w) == Drive(started, w, 0) && started.run.max == l.run.max
  {
    started := l;
    if l.run.status != Running {
      SaveKeepsOk(l.(run := Started(l.run)), w);
      started := Save(l.(run := Started(l.run)), w).0;
    }
  }

  lemma Replay(l1: Loop, w: World, w': World, k: nat)
    requires Rests(l1, w, k) && ReadsBack(w, w')
    ensures var (l2, ok) := Invoke(l1, w'); ok && l2.run == l1.run && l2.executed == l1.executed
  {
    var again := l1.(run := Started(l1.run));
    assert Saveable(again, w');
    var saved := Save(again, w').0;
    assert Ids(saved.run) == Ids(l1.run);
    QuietDrive(saved, w, w', 0, k, l1.run.stop.value.stage);
  }

  /** Such runs exist: a fresh run whose completed root mission has no walk-forward candidate pauses on that stage. */
  lemma {:induction false} FreshRunCanPause(id: string, root: string, target: Stage, max: nat, reason: string, w: World)
    requires !Blank(id) && !Blank(root) && max > 0 && target != Learning && target != Researching && !Blank(reason)
    requires w.stored(root) == Some(Mission(Completed, reason)) && w.evidence(root).candidates == Some([])
    ensures Loaded(Created(id, root, target, max))
    ensures var r := Invoke(Created(id, root, target, max), w);
            Awaits(r) && r.0.run.stop == Some(AwaitingEvidence(root, WalkForwardKept))
  {
    CreatedIsLoaded(id, root, target, max);
    var l := Created(id, root, target, max);
    var l1 := Save(l.(run := Started(l.run)), w).0;
    assert Invoke(l, w) == Drive(l1, w, 0);
    var l2 := FirstRecord(l1, w, root, reason);
    assert VisitCompleted(l2, w, root) == Halt(Stop(l2, w, AwaitingEvidence(root, WalkForwardKept)));
    QuietStop(l2, w, AwaitingEvidence(root, WalkForwardKept));
    assert Visit(l1, w, root) == VisitSettled(l1, w, root, Mission(Completed, reason)) == VisitCompleted(l2, w, root);
    DriveStep(l1, w, 0, Visit(l1, w, root).0, Halted);
  }

  lemma FirstRecord(l: Loop, w: World, root: string, reason: string) returns (l1: Loop)
    requires l.run.records == [] && l.run.children == [] && l.run.root == root && l.run.status == Running
    requires Saveable(l, w) && !Blank(reason)
    ensures AppendStage(l, w, root, Researching, Completed, reason) == (l1, true)
    ensures Saveable(l1, w) && l1.run.status == Running && l1.run.target == l.run.target
  {
    var run := Appended(l.run, root, Researching, Completed, reason);
    var id := run.records[0].id;
    assert id[|l.run.id|] == ':' && !Whitespace(':');
    assert Valid(run);
    l1 := l.(run := run, journal := l.journal + [run]);
  }
}
