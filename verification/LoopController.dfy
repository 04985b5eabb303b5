/** The loop controller as it runs: it updates a run in place and persists every change, step by step. */
module LoopController {
  import opened Prelude
  import opened LoopModel

  lemma AppendAllNoted(l: Loop, w: World, mission: string, stage: Stage, reason: string, rest: seq<StageNote>)
    ensures var (l1, ok) := AppendStage(l, w, mission, stage, Completed, reason);
            AppendAll(l, w, mission, [StageNote(stage, reason)] + rest) == if ok then AppendAll(l1, w, mission, rest) else (l1, false)
  {
    var notes := [StageNote(stage, reason)] + rest;
    assert notes[0] == StageNote(stage, reason) && notes[1..] == rest;
  }

  lemma CarryOutNoted(l: Loop, w: World, mission: string, stage: Stage, reason: string, rest: (seq<StageNote>, Verdict))
    ensures var (l1, ok) := AppendStage(l, w, mission, stage, Completed, reason);
            CarryOut(l, w, mission, Noted(stage, reason, rest)) == if ok then CarryOut(l1, w, mission, rest) else (l1, Broken)
  {
    AppendAllNoted(l, w, mission, stage, reason, rest.0);
  }

  class Controller {
    var run: LoopRun
    var journal: seq<LoopRun>
    var executed: seq<Execution>

    constructor (run: LoopRun, journal: seq<LoopRun>, executed: seq<Execution>)
      ensures View() == Loop(run, journal, executed)
    {
      this.run, this.journal, this.executed := run, journal, executed;
    }

    function View(): Loop
      reads this
    {
      Loop(run, journal, executed)
    }

    method Persist(w: World) returns (ok: bool)
      modifies this
      ensures (View(), ok) == Save(old(View()), w)
    {
      ok := Saveable(View(), w);
      if ok { journal := journal + [run]; }
    }

    method LatestStage(mission: string, stage: Stage) returns (latest: Option<Record>)
      ensures latest == Latest(run.records, mission, stage)
    {
      var n := |run.records|;
      assert run.records[..n] == run.records;
      while n > 0
        invariant n <= |run.records|
        invariant Latest(run.records[..n], mission, stage) == Latest(run.records, mission, stage)
      {
        assert run.records[..n][..n - 1] == run.records[..n - 1];
        n := n - 1;
        if run.records[n].mission == mission && run.records[n].stage == stage { return Some(run.records[n]); }
      }
      return None;
    }

    method AppendStageIfChanged(w: World, mission: string, stage: Stage, status: Status, reason: string) returns (ok: bool)
      modifies this
      ensures (View(), ok) == AppendStage(old(View()), w, mission, stage, status, reason)
    {
      var latest := LatestStage(mission, stage);
      if latest.Some? && latest.value.status == status && latest.value.reason == reason { return true; }
      if run.status != Running { return false; }
      var id := RecordId(run.id, mission, stage, |run.records| + 1);
      var before := run;
      run := run.(records := run.records + [Record(id, mission, stage, status, reason)]);
      assert run == Appended(before, mission, stage, status, reason);
      if !Valid(run) {
        run := before;
        return false;
      }
      ok := Persist(w);
    }

    method StopAndPersist(w: World, reason: StopReason) returns (ok: bool)
      modifies this
      ensures (View(), ok) == Stop(old(View()), w, reason)
    {
      if run.status != Running { return false; }
      run := run.(status := StatusOf(reason), stop := Some(reason));
      ok := Persist(w);
    }

    method AddChildMission(mission: string) returns (ok: bool)
      modifies this
      ensures journal == old(journal) && executed == old(executed)
      ensures (run, ok) == AddChildren(old(run), [mission])
      ensures ok ==> Ids(run) == Ids(old(run)) + if mission in Ids(old(run)) then [] else [mission]
    {
      assert [mission][1..] == [];
      if Blank(mission) || mission == run.root { return false; }
      if mission in run.children { return true; }
      var children := run.children;
      run := run.(children := children + [mission]);
      if !Valid(run) {
        run := run.(children := children);
        return false;
      }
      return true;
    }

    /** The stages from the sealed holdout on. */
    method ProgressRuntime(w: World, mission: string) returns (verdict: Verdict)
      requires w.evidence(mission).candidates.Some?
      modifies this
      ensures (View(), verdict) == CarryOut(old(View()), w, mission, HoldoutPlan(w.evidence(mission), old(run.target)))
    {
      var e := w.evidence(mission);
      var target := run.target;
      if e.sealedCandidate.None? { return Broken; }
      if e.sealedCandidate.value.None? { return Awaiting(HoldoutPassed); }
      var candidate := e.sealedCandidate.value.value;
      if candidate !in e.candidates.value { return Awaiting(HoldoutPassed); }
      if target != HoldoutPassed && !e.attributions { return Broken; }
      CarryOutNoted(View(), w, mission, HoldoutPassed, "sealed holdout passed for candidate " + candidate,
                    if target == HoldoutPassed then ([], Reached) else PaperPlan(e, candidate, target));
      var ok := AppendStageIfChanged(w, mission, HoldoutPassed, Completed, "sealed holdout passed for candidate " + candidate);
      if !ok { return Broken; }
      if target == HoldoutPassed { return Reached; }
      verdict := ProgressHealth(w, mission, candidate, target);
    }

    method ProgressHealth(w: World, mission: string, candidate: string, target: Stage) returns (verdict: Verdict)
      modifies this
      ensures (View(), verdict) == CarryOut(old(View()), w, mission, PaperPlan(w.evidence(mission), candidate, target))
    {
      var e := w.evidence(mission);
      if !e.paper { return Awaiting(PaperHealthy); }
      CarryOutNoted(View(), w, mission, PaperHealthy, "paper runtime healthy for candidate " + candidate,
                    if target == PaperHealthy then ([], Reached) else ShadowPlan(e, candidate, target));
      var ok := AppendStageIfChanged(w, mission, PaperHealthy, Completed, "paper runtime healthy for candidate " + candidate);
      if !ok { return Broken; }
      if target == PaperHealthy { return Reached; }
      if !e.shadow { return Awaiting(ShadowHealthy); }
      CarryOutNoted(View(), w, mission, ShadowHealthy, "shadow runtime healthy for candidate " + candidate,
                    if target == ShadowHealthy then ([], Reached) else LivePlan(e));
      ok := AppendStageIfChanged(w, mission, ShadowHealthy, Completed, "shadow runtime healthy for candidate " + candidate);
      if !ok { return Broken; }
      if target == ShadowHealthy { return Reached; }
      verdict := ProgressLive(w, mission);
    }

    method ProgressLive(w: World, mission: string) returns (verdict: Verdict)
      modifies this
      ensures (View(), verdict) == CarryOut(old(View()), w, mission, LivePlan(w.evidence(mission)))
    {
      var e := w.evidence(mission);
      if e.approval.None? { return Broken; }
      if e.approval.value.None? { return Awaiting(LiveSmallEligible); }
      var reason := e.approval.value.value;
      CarryOutNoted(View(), w, mission, LiveSmallEligible, reason, ([], Reached));
      var ok := AppendStageIfChanged(w, mission, LiveSmallEligible, Completed, reason);
      return if ok then Reached else Broken;
    }

    method ProgressCompletedMission(w: World, mission: string) returns (verdict: Verdict)
      modifies this
      ensures (View(), verdict) == Progress(old(View()), w, mission)
    {
      var e := w.evidence(mission);
      var latest := LatestStage(mission, Researching);
      var reason := if latest.Some? then latest.value.reason else "mission completed";
      if run.target == Researching { return Reached; }
      if e.candidates.None? { return Broken; }
      if e.candidates.value == [] { return Awaiting(WalkForwardKept); }
      var kept := reason + "; canonical walk-forward candidates: " + Join(e.candidates.value);
      CarryOutNoted(View(), w, mission, WalkForwardKept, kept,
                    if run.target == WalkForwardKept then ([], Reached) else HoldoutPlan(e, run.target));
      AppendStageFrame(View(), w, mission, WalkForwardKept, Completed, kept);
      var ok := AppendStageIfChanged(w, mission, WalkForwardKept, Completed, kept);
      if !ok { return Broken; }
      if run.target == WalkForwardKept { return Reached; }
      verdict := ProgressRuntime(w, mission);
    }

    /** Either the learning outcome, with its record persisted, or an error. */
    method CloseLearningStage(w: World, mission: string) returns (outcome: Option<Learned>)
      modifies this
      ensures outcome.Some? ==>
                && w.learn(mission) == outcome
                && (View(), true) == AppendStage(old(View()), w, mission, Learning, Completed, outcome.value.summary)
      ensures outcome.None? ==> (View(), Errored) == VisitExhausted(old(View()), w, mission)
    {
      if w.learn(mission).None? {
        var recorded := AppendStageIfChanged(w, mission, Learning, Failed, w.learnError(mission));
        if recorded { var _ := StopAndPersist(w, MissionFailed(mission, w.learnError(mission))); }
        return None;
      }
      var ok := AppendStageIfChanged(w, mission, Learning, Completed, w.learn(mission).value.summary);
      return if ok then w.learn(mission) else None;
    }

    /** An engine error: record it and stop as failed; the invocation returns the error either way. */
    method RecordFailedResearch(w: World, mission: string, reason: string)
      modifies this
      ensures (View(), Errored) == RecordFailure(old(View()), w, mission, Researching, reason)
    {
      var recorded := AppendStageIfChanged(w, mission, Researching, Failed, reason);
      if recorded { var _ := StopAndPersist(w, MissionFailed(mission, reason)); }
    }

    method AdoptFollowUps(missionIds: seq<string>, followUps: seq<string>) returns (grown: seq<string>, ok: bool)
      requires missionIds == Ids(run)
      modifies this
      ensures journal == old(journal) && executed == old(executed)
      ensures (run, ok) == AddChildren(old(run), followUps)
      ensures ok ==> grown == Ids(run)
    {
      grown := missionIds;
      var i := 0;
      while i < |followUps|
        invariant i <= |followUps|
        invariant journal == old(journal) && executed == old(executed) && grown == Ids(run)
        invariant AddChildren(old(run), followUps) == AddChildren(run, followUps[i..])
      {
        ghost var before := run;
        assert followUps[i..][0] == followUps[i] && followUps[i..][1..] == followUps[i + 1..];
        ok := AddChildMission(followUps[i]);
        AddChildrenHead(before, followUps[i..]);
        if !ok { return; }
        if followUps[i] !in grown { grown := grown + [followUps[i]]; }
        i := i + 1;
      }
      ok := true;
    }

    /** What follows the Researching record of a mission: stop, or learn and go on. */
    method Conclude(w: World, mission: string, m: Mission, missionIds: seq<string>) returns (grown: seq<string>, visited: Visited)
      requires m.status != Pending && m.status != Running && missionIds == Ids(run)
      modifies this
      ensures (View(), visited) == Concluded(old(View()), w, mission, m)
      ensures visited == Continue ==> grown == Ids(run)
    {
      grown := missionIds;
      var ok;
      match m.status
      case Paused =>
        ok := StopAndPersist(w, MissionPaused(mission));
        return grown, if ok then Halted else Errored;
      case Failed =>
        ok := StopAndPersist(w, MissionFailed(mission, m.reason));
        return grown, if ok then Halted else Errored;
      case Completed =>
        var verdict := ProgressCompletedMission(w, mission);
        if verdict == Broken { return grown, Errored; }
        var reason := if verdict == Reached then TargetStageReached(mission, run.target) else AwaitingEvidence(mission, verdict.stage);
        ok := StopAndPersist(w, reason);
        return grown, if ok then Halted else Errored;
      case BudgetExhausted =>
        grown, visited := ConcludeExhausted(w, mission, missionIds);
    }

    method ConcludeExhausted(w: World, mission: string, missionIds: seq<string>) returns (grown: seq<string>, visited: Visited)
      requires missionIds == Ids(run)
      modifies this
      ensures (View(), visited) == VisitExhausted(old(View()), w, mission)
      ensures visited == Continue ==> grown == Ids(run)
    {
      grown := missionIds;
      if w.learn(mission).Some? { AppendStageKeepsIds(View(), w, mission, Learning, Completed, w.learn(mission).value.summary); }
      var outcome := CloseLearningStage(w, mission);
      if outcome.None? { return grown, Errored; }
      var ok;
      if outcome.value.followUps == [] {
        ok := StopAndPersist(w, ResearchBudgetExhausted(mission));
        return grown, if ok then Halted else Errored;
      }
      grown, ok := AdoptFollowUps(grown, outcome.value.followUps);
      if !ok { return grown, Errored; }
      ok := Persist(w);
      return grown, if ok then Continue else Errored;
    }

    /** One round of the worklist loop. */
    method VisitMission(w: World, mission: string, missionIds: seq<string>) returns (grown: seq<string>, visited: Visited)
      requires missionIds == Ids(run)
      modifies this
      ensures (View(), visited) == Visit(old(View()), w, mission)
      ensures visited == Continue ==> grown == Ids(run)
    {
      grown := missionIds;
      var stored := w.stored(mission);
      if stored.None? { return grown, Errored; }
      var m := stored.value;
      if !Terminal(m.status) {
        executed := executed + [Execution(mission, |journal|)];
        if w.execute(mission).None? {
          RecordFailedResearch(w, mission, w.executeError(mission));
          return grown, Errored;
        }
        m := w.execute(mission).value;
        if m.status == Pending || m.status == Running { return grown, Errored; }
      }
      ghost var before := View();
      VisitSettledConcludes(before, w, mission, m);
      AppendStageKeepsIds(before, w, mission, Researching, m.status, m.reason);
      var ok := AppendStageIfChanged(w, mission, Researching, m.status, m.reason);
      if !ok { return grown, Errored; }
      grown, visited := Conclude(w, mission, m, grown);
    }

    /** The worklist loop: it visits missions in list order while the list grows behind it. */
    method DriveWorklist(w: World) returns (ok: bool)
      modifies this
      ensures (View(), ok) == Drive(old(View()), w, 0)
    {
      var missionIds := [run.root] + run.children;
      var cursor := 0;
      while cursor < |missionIds|
        invariant missionIds == Ids(run) && cursor <= run.max && old(run.max) == run.max
        invariant Drive(old(View()), w, 0) == Drive(View(), w, cursor)
        decreases old(run.max) - cursor
      {
        if cursor >= run.max {
          DriveEnds(View(), w, cursor);
          ok := StopAndPersist(w, MissionLimitReached(cursor));
          return;
        }
        ghost var before := View();
        var visited;
        missionIds, visited := VisitMission(w, missionIds[cursor], missionIds);
        DriveStep(before, w, cursor, View(), visited);
        cursor := cursor + 1;
        if visited != Continue { return visited == Halted; }
      }
      DriveEnds(View(), w, cursor);
      ok := StopAndPersist(w, MissionLimitReached(cursor));
    }

    /** `run_loop` on a loaded run. */
    method RunLoop(w: World) returns (ok: bool)
      modifies this
      ensures (View(), ok) == Invoke(old(View()), w)
    {
      if Terminal(run.status) { return true; }
      if run.status == Pending || run.status == Paused {
        run := run.(status := Running, stop := None);
        ok := Persist(w);
        if !ok { return; }
      }
      ok := DriveWorklist(w);
    }
  }

  lemma AddChildrenHead(run: LoopRun, followUps: seq<string>)
    requires followUps != []
    ensures var (grown, ok) := AddChildren(run, [followUps[0]]);
            AddChildren(run, followUps) == if ok then AddChildren(grown, followUps[1..]) else (grown, false)
  {
    assert [followUps[0]][1..] == [];
    assert AddChildren(run, []) == (run, true);
  }

  function Concluded(l: Loop, w: World, mission: string, m: Mission): (Loop, Visited)
    requires m.status != Pending && m.status != Running
  {
    match m.status
    case Paused => Halt(Stop(l, w, MissionPaused(mission)))
    case Failed => Halt(Stop(l, w, MissionFailed(mission, m.reason)))
    case Completed => VisitCompleted(l, w, mission)
    case BudgetExhausted => VisitExhausted(l, w, mission)
  }

  lemma VisitSettledConcludes(l: Loop, w: World, mission: string, m: Mission)
    requires m.status != Pending && m.status != Running
    ensures var (l1, ok) := AppendStage(l, w, mission, Researching, m.status, m.reason);
            VisitSettled(l, w, mission, m) == if ok then Concluded(l1, w, mission, m) else (l1, Errored)
  {}

  lemma AppendStageKeepsIds(l: Loop, w: World, mission: string, stage: Stage, status: Status, reason: string)
    ensures Ids(AppendStage(l, w, mission, stage, status, reason).0.run) == Ids(l.run)
  {}
}
