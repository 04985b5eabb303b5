/**
 The durable research loop as values: a persisted run, the store that only accepts
 appended histories, and one invocation as a function of what the outside world answers.
 */
module LoopModel {
  import opened Prelude

  datatype Stage =
    | Researching | WalkForwardKept | HoldoutPassed | PaperHealthy | ShadowHealthy | LiveSmallEligible
    | Learning

  /** Position in the promotion pipeline; Learning is outside it. */
  function Rank(s: Stage): nat {
    match s
    case Researching => 0
    case WalkForwardKept => 1
    case HoldoutPassed => 2
    case PaperHealthy => 3
    case ShadowHealthy => 4
    case LiveSmallEligible => 5
    case Learning => 6
  }

  /** Missions, loop runs and stage records share these status names. */
  datatype Status = Pending | Running | Paused | Completed | BudgetExhausted | Failed

  predicate Terminal(s: Status) {
    s == Completed || s == BudgetExhausted || s == Failed
  }

  datatype Record = Record(id: string, mission: string, stage: Stage, status: Status, reason: string)

  datatype StopReason =
    | TargetStageReached(mission: string, stage: Stage)
    | AwaitingEvidence(mission: string, stage: Stage)
    | MissionPaused(mission: string)
    | ResearchBudgetExhausted(mission: string)
    | MissionFailed(mission: string, code: string)
    | MissionLimitReached(attempted: nat)

  function StatusOf(r: StopReason): Status {
    match r
    case TargetStageReached(_, _) => Completed
    case AwaitingEvidence(_, _) => Paused
    case MissionPaused(_) => Paused
    case ResearchBudgetExhausted(_) => BudgetExhausted
    case MissionLimitReached(_) => BudgetExhausted
    case MissionFailed(_, _) => Failed
  }

  datatype LoopRun = LoopRun(
    id: string, root: string, target: Stage, max: nat,
    children: seq<string>, records: seq<Record>, status: Status, stop: Option<StopReason>)

  /** The worklist: the root mission, then the children in the order they were learned. */
  function Ids(run: LoopRun): seq<string> {
    [run.root] + run.children
  }

  // ----- Record identifiers -----

  function Decimal(n: nat): string {
    if n < 10 then [('0' as int + n) as char] else Decimal(n / 10) + [('0' as int + n % 10) as char]
  }

  function Slug(s: Stage): string {
    match s
    case Researching => "researching"
    case WalkForwardKept => "walkforward_kept"
    case HoldoutPassed => "holdout_passed"
    case PaperHealthy => "paper_healthy"
    case ShadowHealthy => "shadow_healthy"
    case LiveSmallEligible => "live_small_eligible"
    case Learning => "learning"
  }

  function RecordId(run: string, mission: string, stage: Stage, n: nat): string {
    run + ":" + mission + ":" + Slug(stage) + ":" + Decimal(n)
  }

  // ----- `LoopRun::validate` and the append-only store -----

  predicate RecordValid(run: LoopRun, r: Record) {
    !Blank(r.id) && !Blank(r.mission) && !Blank(r.reason) && (r.mission == run.root || r.mission in run.children)
  }

  predicate Valid(run: LoopRun) {
    && !Blank(run.id) && !Blank(run.root) && run.max > 0
    && (forall i :: 0 <= i < |run.children| ==> !Blank(run.children[i])) && Distinct(run.children)
    && (forall i :: 0 <= i < |run.records| ==> RecordValid(run, run.records[i]))
    && (forall i, j :: 0 <= i < j < |run.records| ==> run.records[i].id != run.records[j].id)
    && (match run.stop
        case None => run.status == Pending || run.status == Running
        case Some(r) => run.status == StatusOf(r))
  }

  /** `save_loop_run`'s history rule. */
  predicate Appends(before: LoopRun, after: LoopRun) {
    && after.id == before.id && after.root == before.root && after.target == before.target && after.max == before.max
    && before.children <= after.children && before.records <= after.records
  }

  /** A mission that was handed to the engine, and how many saves the store held at that moment. */
  datatype Execution = Execution(mission: string, saves: nat)

  /** The run in memory, every version the store accepted, and every execution. */
  datatype Loop = Loop(run: LoopRun, journal: seq<LoopRun>, executed: seq<Execution>)

  // ----- The outside world during one invocation; every mission is consulted at most once -----

  datatype Mission = Mission(status: Status, reason: string)

  datatype Learned = Learned(followUps: seq<string>, summary: string)

  /** Evidence for one mission; an outer None is a read error. A human approval is given as the text its record will carry. */
  datatype Evidence = Evidence(
    candidates: Option<seq<string>>, sealedCandidate: Option<Option<string>>, attributions: bool,
    paper: bool, shadow: bool, approval: Option<Option<string>>)

  datatype World = World(
    stored: string -> Option<Mission>,
    execute: string -> Option<Mission>,
    executeError: string -> string,
    learn: string -> Option<Learned>,
    learnError: string -> string,
    evidence: string -> Evidence,
    known: string -> bool)

  // ----- Persistence -----

  predicate Saveable(l: Loop, w: World) {
    && Valid(l.run) && |l.journal| > 0 && Appends(l.journal[|l.journal| - 1], l.run)
    && forall i :: 0 <= i < |l.run.children| ==> w.known(l.run.children[i])
  }

  function Save(l: Loop, w: World): (Loop, bool) {
    if Saveable(l, w) then (l.(journal := l.journal + [l.run]), true) else (l, false)
  }

  function Latest(records: seq<Record>, mission: string, stage: Stage): Option<Record> {
    if records == [] then None
    else
      var last := records[|records| - 1];
      if last.mission == mission && last.stage == stage then Some(last)
      else Latest(records[..|records| - 1], mission, stage)
  }

  predicate Unchanged(records: seq<Record>, mission: string, stage: Stage, status: Status, reason: string) {
    var latest := Latest(records, mission, stage);
    latest.Some? && latest.value.status == status && latest.value.reason == reason
  }

  function Appended(run: LoopRun, mission: string, stage: Stage, status: Status, reason: string): LoopRun {
    run.(records := run.records + [Record(RecordId(run.id, mission, stage, |run.records| + 1), mission, stage, status, reason)])
  }

  function AppendStage(l: Loop, w: World, mission: string, stage: Stage, status: Status, reason: string): (Loop, bool) {
    if Unchanged(l.run.records, mission, stage, status, reason) then (l, true)
    else
      var run := Appended(l.run, mission, stage, status, reason);
      if l.run.status != Running || !Valid(run) then (l, false) else Save(l.(run := run), w)
  }

  function Stopped(run: LoopRun, reason: StopReason): LoopRun {
    run.(status := StatusOf(reason), stop := Some(reason))
  }

  function Stop(l: Loop, w: World, reason: StopReason): (Loop, bool) {
    if l.run.status != Running then (l, false)
    else Save(l.(run := Stopped(l.run, reason)), w)
  }

  function Started(run: LoopRun): LoopRun {
    run.(status := Running, stop := None)
  }

  /** `add_child_mission` over the follow-ups, stopping at the first refusal. */
  function AddChildren(run: LoopRun, followUps: seq<string>): (LoopRun, bool)
    decreases followUps
  {
    if followUps == [] then (run, true)
    else if Blank(followUps[0]) || followUps[0] == run.root then (run, false)
    else if followUps[0] in run.children then AddChildren(run, followUps[1..])
    else
      var grown := run.(children := run.children + [followUps[0]]);
      if Valid(grown) then AddChildren(grown, followUps[1..]) else (run, false)
  }

  // ----- Progress of a completed mission -----

  datatype Verdict = Reached | Awaiting(stage: Stage) | Broken

  function Join(parts: seq<string>): string {
    if parts == [] then "" else if |parts| == 1 then parts[0] else parts[0] + "," + Join(parts[1..])
  }

  datatype StageNote = StageNote(stage: Stage, reason: string)

  function Noted(stage: Stage, reason: string, rest: (seq<StageNote>, Verdict)): (seq<StageNote>, Verdict) {
    ([StageNote(stage, reason)] + rest.0, rest.1)
  }

  /** The stages the evidence supports up to the target, in order, and how the mission then stands. */
  function Plan(e: Evidence, reason: string, target: Stage): (seq<StageNote>, Verdict) {
    if target == Researching then ([], Reached)
    else if e.candidates.None? then ([], Broken)
    else if e.candidates.value == [] then ([], Awaiting(WalkForwardKept))
    else Noted(WalkForwardKept, reason + "; canonical walk-forward candidates: " + Join(e.candidates.value),
               if target == WalkForwardKept then ([], Reached) else HoldoutPlan(e, target))
  }

  function HoldoutPlan(e: Evidence, target: Stage): (seq<StageNote>, Verdict)
    requires e.candidates.Some?
  {
    if e.sealedCandidate.None? then ([], Broken)
    else if e.sealedCandidate.value.None? || e.sealedCandidate.value.value !in e.candidates.value then ([], Awaiting(HoldoutPassed))
    else if target != HoldoutPassed && !e.attributions then ([], Broken)
    else
      var candidate := e.sealedCandidate.value.value;
      Noted(HoldoutPassed, "sealed holdout passed for candidate " + candidate,
            if target == HoldoutPassed then ([], Reached) else PaperPlan(e, candidate, target))
  }

  function PaperPlan(e: Evidence, candidate: string, target: Stage): (seq<StageNote>, Verdict) {
    if !e.paper then ([], Awaiting(PaperHealthy))
    else Noted(PaperHealthy, "paper runtime healthy for candidate " + candidate,
               if target == PaperHealthy then ([], Reached) else ShadowPlan(e, candidate, target))
  }

  function ShadowPlan(e: Evidence, candidate: string, target: Stage): (seq<StageNote>, Verdict) {
    if !e.shadow then ([], Awaiting(ShadowHealthy))
    else Noted(ShadowHealthy, "shadow runtime healthy for candidate " + candidate,
               if target == ShadowHealthy then ([], Reached) else LivePlan(e))
  }

  function LivePlan(e: Evidence): (seq<StageNote>, Verdict) {
    if e.approval.None? then ([], Broken)
    else if e.approval.value.None? then ([], Awaiting(LiveSmallEligible))
    else Noted(LiveSmallEligible, e.approval.value.value, ([], Reached))
  }

  function AppendAll(l: Loop, w: World, mission: string, notes: seq<StageNote>): (Loop, bool)
    decreases notes
  {
    if notes == [] then (l, true)
    else
      var (l1, ok) := AppendStage(l, w, mission, notes[0].stage, Completed, notes[0].reason);
      if ok then AppendAll(l1, w, mission, notes[1..]) else (l1, false)
  }

  function ResearchReason(run: LoopRun, mission: string): string {
    var latest := Latest(run.records, mission, Researching);
    if latest.Some? then latest.value.reason else "mission completed"
  }

  /** Carrying out a plan: its notes in order, then its verdict unless a note could not be persisted. */
  function CarryOut(l: Loop, w: World, mission: string, plan: (seq<StageNote>, Verdict)): (Loop, Verdict) {
    var (l1, ok) := AppendAll(l, w, mission, plan.0);
    (l1, if ok then plan.1 else Broken)
  }

  function Progress(l: Loop, w: World, mission: string): (Loop, Verdict) {
    CarryOut(l, w, mission, Plan(w.evidence(mission), ResearchReason(l.run, mission), l.run.target))
  }

  // ----- One mission, then the whole invocation -----

  /** How the visit of one mission ended: go on, return Ok, or return an error. */
  datatype Visited = Continue | Halted | Errored

  function Halt(r: (Loop, bool)): (Loop, Visited) {
    (r.0, if r.1 then Halted else Errored)
  }

  function Fail(r: (Loop, bool)): (Loop, Visited) {
    (r.0, Errored)
  }

  function VisitCompleted(l: Loop, w: World, mission: string): (Loop, Visited) {
    var (l1, verdict) := Progress(l, w, mission);
    match verdict
    case Reached => Halt(Stop(l1, w, TargetStageReached(mission, l1.run.target)))
    case Awaiting(stage) => Halt(Stop(l1, w, AwaitingEvidence(mission, stage)))
    case Broken => (l1, Errored)
  }

  /** An engine or learning error: record it, stop the run as failed, and return the error either way. */
  function RecordFailure(l: Loop, w: World, mission: string, stage: Stage, reason: string): (Loop, Visited) {
    var (l1, ok) := AppendStage(l, w, mission, stage, Failed, reason);
    if ok then Fail(Stop(l1, w, MissionFailed(mission, reason))) else (l1, Errored)
  }

  function VisitExhausted(l: Loop, w: World, mission: string): (Loop, Visited) {
    if w.learn(mission).None? then RecordFailure(l, w, mission, Learning, w.learnError(mission))
    else
      var learned := w.learn(mission).value;
      var (l1, ok) := AppendStage(l, w, mission, Learning, Completed, learned.summary);
      if ok then AfterLearning(l1, w, mission, learned.followUps) else (l1, Errored)
  }

  /** Without follow-ups the search is over; otherwise they join the worklist. */
  function AfterLearning(l: Loop, w: World, mission: string, followUps: seq<string>): (Loop, Visited) {
    if followUps == [] then Halt(Stop(l, w, ResearchBudgetExhausted(mission)))
    else
      var (run, added) := AddChildren(l.run, followUps);
      var grown := l.(run := run);
      if !added then (grown, Errored)
      else
        var (saved, ok) := Save(grown, w);
        (saved, if ok then Continue else Errored)
  }

  /** What an invocation learns about a mission: its stored terminal state, or the report of executing it. */
  function Settled(w: World, mission: string): Option<Mission> {
    if w.stored(mission).None? then None
    else if Terminal(w.stored(mission).value.status) then w.stored(mission)
    else w.execute(mission)
  }

  function Execute(l: Loop, w: World, mission: string): Loop {
    if w.stored(mission).Some? && !Terminal(w.stored(mission).value.status)
    then l.(executed := l.executed + [Execution(mission, |l.journal|)]) else l
  }

  function VisitSettled(l: Loop, w: World, mission: string, m: Mission): (Loop, Visited) {
    if m.status == Pending || m.status == Running then (l, Errored)
    else
      var (l1, ok) := AppendStage(l, w, mission, Researching, m.status, m.reason);
      if !ok then (l1, Errored)
      else
        match m.status
        case Paused => Halt(Stop(l1, w, MissionPaused(mission)))
        case Failed => Halt(Stop(l1, w, MissionFailed(mission, m.reason)))
        case Completed => VisitCompleted(l1, w, mission)
        case _ => VisitExhausted(l1, w, mission)
  }

  function Visit(l: Loop, w: World, mission: string): (Loop, Visited) {
    if w.stored(mission).None? then (l, Errored)
    else
      var l1 := Execute(l, w, mission);
      match Settled(w, mission)
      case None => RecordFailure(l1, w, mission, Researching, w.executeError(mission))
      case Some(m) => VisitSettled(l1, w, mission, m)
  }

  // ----- What every step keeps of the run's identity -----

  ghost predicate Frame(l: Loop, l': Loop) {
    && Appends(l.run, l'.run) && l.journal <= l'.journal && l.executed <= l'.executed
  }

  lemma FrameTrans(a: Loop, b: Loop, c: Loop)
    requires Frame(a, b) && Frame(b, c)
    ensures Frame(a, c)
  {}

  lemma AppendStageFrame(l: Loop, w: World, mission: string, stage: Stage, status: Status, reason: string)
    ensures Frame(l, AppendStage(l, w, mission, stage, status, reason).0)
  {}

  lemma {:induction false} AddChildrenFrame(run: LoopRun, followUps: seq<string>)
    ensures var grown := AddChildren(run, followUps).0;
            grown == run.(children := grown.children) && run.children <= grown.children
    decreases followUps
  {
    if followUps != [] && !Blank(followUps[0]) && followUps[0] != run.root {
      if followUps[0] in run.children {
        AddChildrenFrame(run, followUps[1..]);
      } else {
        AddChildrenFrame(run.(children := run.children + [followUps[0]]), followUps[1..]);
      }
    }
  }

  lemma {:induction false} AppendAllFrame(l: Loop, w: World, mission: string, notes: seq<StageNote>)
    ensures Frame(l, AppendAll(l, w, mission, notes).0)
    decreases notes
  {
    if notes != [] {
      var r := AppendStage(l, w, mission, notes[0].stage, Completed, notes[0].reason);
      AppendStageFrame(l, w, mission, notes[0].stage, Completed, notes[0].reason);
      if r.1 {
        AppendAllFrame(r.0, w, mission, notes[1..]);
        FrameTrans(l, r.0, AppendAll(r.0, w, mission, notes[1..]).0);
      }
    }
  }

  lemma StopFrame(l: Loop, w: World, reason: StopReason)
    ensures Frame(l, Stop(l, w, reason).0)
  {}

  lemma RecordFailureFrame(l: Loop, w: World, mission: string, stage: Stage, reason: string)
    ensures Frame(l, RecordFailure(l, w, mission, stage, reason).0)
  {
    var l1 := AppendStage(l, w, mission, stage, Failed, reason).0;
    AppendStageFrame(l, w, mission, stage, Failed, reason);
    StopFrame(l1, w, MissionFailed(mission, reason));
    FrameTrans(l, l1, Stop(l1, w, MissionFailed(mission, reason)).0);
  }

  lemma VisitCompletedFrame(l: Loop, w: World, mission: string)
    ensures Frame(l, VisitCompleted(l, w, mission).0)
  {
    var notes := Plan(w.evidence(mission), ResearchReason(l.run, mission), l.run.target).0;
    var (l1, verdict) := Progress(l, w, mission);
    AppendAllFrame(l, w, mission, notes);
    match verdict
    case Reached =>
      StopFrame(l1, w, TargetStageReached(mission, l1.run.target));
      FrameTrans(l, l1, VisitCompleted(l, w, mission).0);
    case Awaiting(stage) =>
      StopFrame(l1, w, AwaitingEvidence(mission, stage));
      FrameTrans(l, l1, VisitCompleted(l, w, mission).0);
    case Broken =>
  }

  lemma AfterLearningFrame(l: Loop, w: World, mission: string, followUps: seq<string>)
    ensures Frame(l, AfterLearning(l, w, mission, followUps).0)
  {
    if followUps == [] {
      StopFrame(l, w, ResearchBudgetExhausted(mission));
    } else {
      AddChildrenFrame(l.run, followUps);
    }
  }

  lemma VisitExhaustedFrame(l: Loop, w: World, mission: string)
    ensures Frame(l, VisitExhausted(l, w, mission).0)
  {
    if w.learn(mission).None? {
      RecordFailureFrame(l, w, mission, Learning, w.learnError(mission));
    } else {
      var learned := w.learn(mission).value;
      var l1 := AppendStage(l, w, mission, Learning, Completed, learned.summary).0;
      AppendStageFrame(l, w, mission, Learning, Completed, learned.summary);
      AfterLearningFrame(l1, w, mission, learned.followUps);
      FrameTrans(l, l1, AfterLearning(l1, w, mission, learned.followUps).0);
    }
  }

  lemma VisitSettledFrame(l: Loop, w: World, mission: string, m: Mission)
    ensures Frame(l, VisitSettled(l, w, mission, m).0)
  {
    var (l1, ok) := AppendStage(l, w, mission, Researching, m.status, m.reason);
    AppendStageFrame(l, w, mission, Researching, m.status, m.reason);
    if m.status != Pending && m.status != Running && ok {
      match m.status {
        case Paused => StopFrame(l1, w, MissionPaused(mission));
        case Failed => StopFrame(l1, w, MissionFailed(mission, m.reason));
        case Completed => VisitCompletedFrame(l1, w, mission);
        case BudgetExhausted => VisitExhaustedFrame(l1, w, mission);
      }
      FrameTrans(l, l1, VisitSettled(l, w, mission, m).0);
    }
  }

  lemma VisitFrame(l: Loop, w: World, mission: string)
    ensures Frame(l, Visit(l, w, mission).0)
  {
    if w.stored(mission).Some? {
      var l1 := Execute(l, w, mission);
      match Settled(w, mission)
      case None =>
        RecordFailureFrame(l1, w, mission, Researching, w.executeError(mission));
        FrameTrans(l, l1, Visit(l, w, mission).0);
      case Some(m) =>
        VisitSettledFrame(l1, w, mission, m);
        FrameTrans(l, l1, Visit(l, w, mission).0);
    }
  }

  /** The worklist loop from `cursor`; it ends because every round spends one of `max` missions. */
  function Drive(l: Loop, w: World, cursor: nat): (Loop, bool)
    requires cursor <= l.run.max
    decreases l.run.max - cursor
  {
    if cursor >= |Ids(l.run)| || cursor >= l.run.max then Stop(l, w, MissionLimitReached(cursor))
    else
      VisitFrame(l, w, Ids(l.run)[cursor]);
      var (l1, visited) := Visit(l, w, Ids(l.run)[cursor]);
      match visited
      case Continue => Drive(l1, w, cursor + 1)
      case Halted => (l1, true)
      case Errored => (l1, false)
  }

  /** `run_loop` on a loaded run: terminal runs are returned as they are; pending and paused runs are started and saved first. */
  function Invoke(l: Loop, w: World): (Loop, bool) {
    if Terminal(l.run.status) then (l, true)
    else if l.run.status == Running then Drive(l, w, 0)
    else
      var (l1, ok) := Save(l.(run := Started(l.run)), w);
      if ok then Drive(l1, w, 0) else (l1, false)
  }

  lemma DriveEnds(l: Loop, w: World, cursor: nat)
    requires cursor <= l.run.max && (cursor >= |Ids(l.run)| || cursor >= l.run.max)
    ensures Drive(l, w, cursor) == Stop(l, w, MissionLimitReached(cursor))
  {}

  lemma DriveStep(l: Loop, w: World, cursor: nat, l1: Loop, visited: Visited)
    requires cursor < |Ids(l.run)| && cursor < l.run.max && Visit(l, w, Ids(l.run)[cursor]) == (l1, visited)
    ensures l1.run.max == l.run.max
    ensures Drive(l, w, cursor) == if visited == Continue then Drive(l1, w, cursor + 1) else (l1, visited == Halted)
  {
    VisitFrame(l, w, Ids(l.run)[cursor]);
  }

  lemma {:induction false} DriveFrame(l: Loop, w: World, cursor: nat)
    requires cursor <= l.run.max
    ensures Frame(l, Drive(l, w, cursor).0)
    decreases l.run.max - cursor
  {
    if cursor >= |Ids(l.run)| || cursor >= l.run.max {
      StopFrame(l, w, MissionLimitReached(cursor));
    } else {
      var r := Visit(l, w, Ids(l.run)[cursor]);
      VisitFrame(l, w, Ids(l.run)[cursor]);
      DriveStep(l, w, cursor, r.0, r.1);
      if r.1 == Continue {
        DriveFrame(r.0, w, cursor + 1);
        assert Drive(l, w, cursor) == Drive(r.0, w, cursor + 1);
        FrameTrans(l, r.0, Drive(r.0, w, cursor + 1).0);
      } else {
        assert Drive(l, w, cursor).0 == r.0;
      }
    }
  }
}
