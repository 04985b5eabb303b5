/** Which stop an invocation reaches, from what it reads; nothing here goes through the loop's own definitions. */
module LoopOutcome {
  import opened Prelude
  import opened LoopModel
  import opened LoopSafety
  import opened LoopReplay

  // ----- Saves succeed on a live loop -----

  /** Running, numbered, and ready to be saved: valid, extending what is on disk, with every child known. */
  ghost predicate Live(l: Loop, w: World) {
    l.run.status == Running && l.run.stop == None && Numbered(l.run) && Saveable(l, w)
  }

  /** Only records were added. */
  ghost predicate SameButRecords(l: Loop, l1: Loop) {
    l1.run == l.run.(records := l1.run.records) && l1.executed == l.executed
  }

  lemma TextAfter(a: string, b: string)
    requires !Blank(a)
    ensures !Blank(a + b)
  {
    var i :| 0 <= i < |a| && !Whitespace(a[i]);
    assert (a + b)[i] == a[i];
  }

  lemma AppendedIsNumbered(run: LoopRun, mission: string, stage: Stage, status: Status, reason: string)
    requires Numbered(run)
    ensures Numbered(Appended(run, mission, stage, status, reason))
  {}

  lemma NewRecordIsValid(run: LoopRun, mission: string, stage: Stage, status: Status, reason: string)
    requires Valid(run) && mission in Ids(run) && !Blank(reason)
    ensures RecordValid(run, Record(RecordId(run.id, mission, stage, |run.records| + 1), mission, stage, status, reason))
  {
    var id := RecordId(run.id, mission, stage, |run.records| + 1);
    assert id[|run.id|] == ':' && !Whitespace(':');
    assert !Blank(mission) by { if mission != run.root { assert mission in run.children; } }
  }

  lemma AppendedIsValid(run: LoopRun, mission: string, stage: Stage, status: Status, reason: string)
    requires Valid(run) && Numbered(run) && mission in Ids(run) && !Blank(reason)
    ensures Valid(Appended(run, mission, stage, status, reason))
  {
    var grown := Appended(run, mission, stage, status, reason);
    NewRecordIsValid(run, mission, stage, status, reason);
    AppendedIsNumbered(run, mission, stage, status, reason);
    NumberedIdsAreDistinct(grown);
    forall i | 0 <= i < |grown.records| ensures RecordValid(grown, grown.records[i]) {
      if i < |run.records| { assert RecordValid(run, run.records[i]); }
    }
  }

  lemma SaveAppendedSucceeds(l: Loop, w: World, mission: string, stage: Stage, status: Status, reason: string)
    requires Live(l, w) && mission in Ids(l.run) && !Blank(reason)
    ensures var (l1, ok) := Save(l.(run := Appended(l.run, mission, stage, status, reason)), w);
            ok && Live(l1, w) && SameButRecords(l, l1)
  {
    AppendedIsValid(l.run, mission, stage, status, reason);
    AppendedIsNumbered(l.run, mission, stage, status, reason);
    assert Saveable(l.(run := Appended(l.run, mission, stage, status, reason)), w);
  }

  lemma AppendSucceeds(l: Loop, w: World, mission: string, stage: Stage, status: Status, reason: string)
    requires Live(l, w) && mission in Ids(l.run) && !Blank(reason)
    ensures var (l1, ok) := AppendStage(l, w, mission, stage, status, reason);
            ok && Live(l1, w) && SameButRecords(l, l1) && Unchanged(l1.run.records, mission, stage, status, reason)
  {
    AppendStageEffect(l, w, mission, stage, status, reason);
    AppendedIsValid(l.run, mission, stage, status, reason);
    SaveAppendedSucceeds(l, w, mission, stage, status, reason);
  }

  lemma {:induction false} AppendAllSucceeds(l: Loop, w: World, mission: string, notes: seq<StageNote>)
    requires Live(l, w) && mission in Ids(l.run) && forall i :: 0 <= i < |notes| ==> !Blank(notes[i].reason)
    ensures var (l1, ok) := AppendAll(l, w, mission, notes); ok && Live(l1, w) && SameButRecords(l, l1)
    decreases notes
  {
    if notes != [] {
      AppendSucceeds(l, w, mission, notes[0].stage, Completed, notes[0].reason);
      var l1 := AppendStage(l, w, mission, notes[0].stage, Completed, notes[0].reason).0;
      assert Ids(l1.run) == Ids(l.run);
      AppendAllSucceeds(l1, w, mission, notes[1..]);
    }
  }

  // ----- Every note of a plan has a text -----

  ghost predicate Worded(notes: seq<StageNote>) {
    forall i :: 0 <= i < |notes| ==> !Blank(notes[i].reason)
  }

  lemma NotedIsWorded(stage: Stage, reason: string, rest: (seq<StageNote>, Verdict))
    requires !Blank(reason) && Worded(rest.0)
    ensures Worded(Noted(stage, reason, rest).0)
  {}

  lemma CandidateText(prefix: string, candidate: string)
    requires |prefix| > 0 && !Whitespace(prefix[0])
    ensures !Blank(prefix + candidate)
  {
    TextAfter(prefix, candidate);
  }

  /** A human approval, if there is one, has a text. */
  predicate ApprovalWorded(e: Evidence) {
    e.approval.Some? && e.approval.value.Some? ==> !Blank(e.approval.value.value)
  }

  lemma ShadowWorded(e: Evidence, candidate: string, target: Stage)
    requires ApprovalWorded(e)
    ensures Worded(ShadowPlan(e, candidate, target).0)
  {
    if e.shadow {
      CandidateText("shadow runtime healthy for candidate ", candidate);
      NotedIsWorded(ShadowHealthy, "shadow runtime healthy for candidate " + candidate,
                    if target == ShadowHealthy then ([], Reached) else LivePlan(e));
    }
  }

  lemma PaperWorded(e: Evidence, candidate: string, target: Stage)
    requires ApprovalWorded(e)
    ensures Worded(PaperPlan(e, candidate, target).0)
  {
    ShadowWorded(e, candidate, target);
    if e.paper {
      CandidateText("paper runtime healthy for candidate ", candidate);
      NotedIsWorded(PaperHealthy, "paper runtime healthy for candidate " + candidate,
                    if target == PaperHealthy then ([], Reached) else ShadowPlan(e, candidate, target));
    }
  }

  lemma HoldoutWorded(e: Evidence, target: Stage)
    requires ApprovalWorded(e) && e.candidates.Some?
    ensures Worded(HoldoutPlan(e, target).0)
  {
    if e.sealedCandidate.Some? && e.sealedCandidate.value.Some? {
      var candidate := e.sealedCandidate.value.value;
      PaperWorded(e, candidate, target);
      CandidateText("sealed holdout passed for candidate ", candidate);
      NotedIsWorded(HoldoutPassed, "sealed holdout passed for candidate " + candidate,
                    if target == HoldoutPassed then ([], Reached) else PaperPlan(e, candidate, target));
    }
  }

  lemma PlanIsWorded(e: Evidence, reason: string, target: Stage)
    requires ApprovalWorded(e) && !Blank(reason)
    ensures Worded(Plan(e, reason, target).0)
  {
    if e.candidates.Some? {
      HoldoutWorded(e, target);
      var text := "; canonical walk-forward candidates: " + Join(e.candidates.value);
      TextAfter(reason, text);
      assert reason + "; canonical walk-forward candidates: " + Join(e.candidates.value) == reason + text;
      NotedIsWorded(WalkForwardKept, reason + "; canonical walk-forward candidates: " + Join(e.candidates.value),
                    if target == WalkForwardKept then ([], Reached) else HoldoutPlan(e, target));
    }
  }

  /** Candidates are listed in order, separated by commas. */
  lemma {:induction false} JoinSays(parts: seq<string>, last: string)
    ensures Join(parts + [last]) == if parts == [] then last else Join(parts) + "," + last
  {
    if parts != [] {
      assert (parts + [last])[1..] == parts[1..] + [last];
      JoinSays(parts[1..], last);
      if |parts| == 1 { assert Join(parts + [last]) == parts[0] + "," + last; }
    }
  }

  /** Every stage has its own name in record identifiers. */
  lemma StageNamesDiffer(a: Stage, b: Stage)
    requires Slug(a) == Slug(b)
    ensures a == b
  {
    assert |Slug(a)| == |Slug(b)| && Slug(a)[0] == Slug(b)[0];
  }

  /** What the records of a plan say, stage by stage. */
  lemma NotesSay(e: Evidence, reason: string, target: Stage)
    requires target != Learning
    ensures var notes := Plan(e, reason, target).0;
            && (|notes| > 0 ==>
                  e.candidates.Some?
                  && notes[0] == StageNote(WalkForwardKept, reason + "; canonical walk-forward candidates: " + Join(e.candidates.value)))
            && (|notes| > 1 ==>
                  e.sealedCandidate.Some? && e.sealedCandidate.value.Some?
                  && notes[1] == StageNote(HoldoutPassed, "sealed holdout passed for candidate " + e.sealedCandidate.value.value))
            && (|notes| > 2 ==> notes[2] == StageNote(PaperHealthy, "paper runtime healthy for candidate " + e.sealedCandidate.value.value))
            && (|notes| > 3 ==> notes[3] == StageNote(ShadowHealthy, "shadow runtime healthy for candidate " + e.sealedCandidate.value.value))
            && (|notes| > 4 ==> e.approval.Some? && e.approval.value.Some? && notes[4] == StageNote(LiveSmallEligible, e.approval.value.value))
  {}

  // ----- What one visit does -----

  /** What the visit learns of the mission: a stored final state, or the engine's report of running it. */
  predicate Reports(w: World, mission: string, m: Mission) {
    && w.stored(mission).Some?
    && var stored := w.stored(mission).value;
    if stored.status == Completed || stored.status == BudgetExhausted || stored.status == Failed then m == stored
    else w.execute(mission) == Some(m)
  }

  /** The engine was asked to run the mission and failed. */
  predicate EngineFails(w: World, mission: string) {
    && w.stored(mission).Some? && w.execute(mission).None?
    && (w.stored(mission).value.status == Pending || w.stored(mission).value.status == Running || w.stored(mission).value.status == Paused)
  }

  /** The run stopped with this reason and status, and that is on disk. */
  ghost predicate StoppedWith(l: Loop, status: Status, reason: StopReason) {
    l.run.status == status && l.run.stop == Some(reason) && |l.journal| > 0 && l.journal[|l.journal| - 1] == l.run
  }

  lemma StopsLive(l: Loop, w: World, reason: StopReason)
    requires Live(l, w)
    ensures Stop(l, w, reason).1 && StoppedWith(Stop(l, w, reason).0, StatusOf(reason), reason)
  {
    QuietStop(l, w, reason);
  }

  lemma ExecuteIsLive(l: Loop, w: World, mission: string)
    requires Live(l, w)
    ensures Live(Execute(l, w, mission), w) && Execute(l, w, mission).run == l.run
  {}

  /** Up to its Researching record every visit goes the same way. */
  lemma VisitRecords(l: Loop, w: World, mission: string, m: Mission) returns (l1: Loop)
    requires Live(l, w) && mission in Ids(l.run) && Reports(w, mission, m) && !Blank(m.reason)
    requires m.status != Pending && m.status != Running
    ensures Live(l1, w) && l1.run == l.run.(records := l1.run.records)
    ensures Unchanged(l1.run.records, mission, Researching, m.status, m.reason)
    ensures AppendStage(Execute(l, w, mission), w, mission, Researching, m.status, m.reason) == (l1, true)
    ensures Visit(l, w, mission) == VisitSettled(Execute(l, w, mission), w, mission, m)
  {
    ExecuteIsLive(l, w, mission);
    var l0 := Execute(l, w, mission);
    AppendSucceeds(l0, w, mission, Researching, m.status, m.reason);
    l1 := AppendStage(l0, w, mission, Researching, m.status, m.reason).0;
  }

  lemma CarryOutSucceeds(l: Loop, w: World, mission: string, plan: (seq<StageNote>, Verdict))
    requires Live(l, w) && mission in Ids(l.run) && Worded(plan.0)
    ensures var (l1, verdict) := CarryOut(l, w, mission, plan); verdict == plan.1 && Live(l1, w) && l1.run.target == l.run.target
  {
    AppendAllSucceeds(l, w, mission, plan.0);
  }

  lemma ProgressTells(l: Loop, w: World, mission: string, reason: string)
    requires Live(l, w) && mission in Ids(l.run) && l.run.target != Learning && ApprovalWorded(w.evidence(mission)) && !Blank(reason)
    requires Unchanged(l.run.records, mission, Researching, Completed, reason)
    ensures var (l1, verdict) := Progress(l, w, mission);
            Tells(verdict, w.evidence(mission), l.run.target) && Live(l1, w) && l1.run.target == l.run.target
  {
    assert ResearchReason(l.run, mission) == reason;
    PlanIsWorded(w.evidence(mission), reason, l.run.target);
    VerdictTellsEvidence(w.evidence(mission), reason, l.run.target);
    CarryOutSucceeds(l, w, mission, Plan(w.evidence(mission), reason, l.run.target));
  }

  /**
   A completed mission: the run stops as completed on its target exactly when the evidence supports every
   stage up to it; otherwise it pauses on the first unsupported stage, or fails to read it and stops nowhere.
   */
  lemma CompletedStops(l: Loop, w: World, mission: string, m: Mission)
    requires Live(l, w) && mission in Ids(l.run) && Reports(w, mission, m) && m.status == Completed && !Blank(m.reason)
    requires l.run.target != Learning && ApprovalWorded(w.evidence(mission))
    ensures var (l1, v) := Visit(l, w, mission);
            var e, target := w.evidence(mission), l.run.target;
            && (Supports(e, Rank(target)) ==> v == Halted && StoppedWith(l1, Completed, TargetStageReached(mission, target)))
            && (forall stage :: FirstUnsupported(e, target, stage) ==>
                  if Unread(e, Rank(stage)) then v == Errored && l1.run.status == Running && l1.run.stop == None
                  else v == Halted && StoppedWith(l1, Paused, AwaitingEvidence(mission, stage)))
  {
    var l1 := VisitRecords(l, w, mission, m);
    ProgressTells(l1, w, mission, m.reason);
    var (l2, verdict) := Progress(l1, w, mission);
    assert Visit(l, w, mission) == VisitCompleted(l1, w, mission);
    match verdict
    case Reached => StopsLive(l2, w, TargetStageReached(mission, l2.run.target));
    case Awaiting(stage) => StopsLive(l2, w, AwaitingEvidence(mission, stage));
    case Broken =>
  }

  /** A failed or paused mission stops the run with its own reason. */
  lemma UnfinishedStops(l: Loop, w: World, mission: string, m: Mission)
    requires Live(l, w) && mission in Ids(l.run) && Reports(w, mission, m) && !Blank(m.reason)
    ensures var (l1, v) := Visit(l, w, mission);
            && (m.status == Failed ==> v == Halted && StoppedWith(l1, Failed, MissionFailed(mission, m.reason)))
            && (m.status == Paused ==> v == Halted && StoppedWith(l1, Paused, MissionPaused(mission)))
            && (m.status == Pending || m.status == Running ==> v == Errored && l1.run == l.run && l1.journal == l.journal)
  {
    if m.status == Failed || m.status == Paused {
      var l1 := VisitRecords(l, w, mission, m);
      StopsLive(l1, w, if m.status == Failed then MissionFailed(mission, m.reason) else MissionPaused(mission));
    }
  }

  lemma RecordsFailure(l: Loop, w: World, mission: string, stage: Stage, reason: string)
    requires Live(l, w) && mission in Ids(l.run) && !Blank(reason)
    ensures var (l1, v) := RecordFailure(l, w, mission, stage, reason);
            v == Errored && StoppedWith(l1, Failed, MissionFailed(mission, reason))
  {
    AppendSucceeds(l, w, mission, stage, Failed, reason);
    StopsLive(AppendStage(l, w, mission, stage, Failed, reason).0, w, MissionFailed(mission, reason));
  }

  /** An engine error is returned, and the run is left failed with that error. */
  lemma EngineErrorStops(l: Loop, w: World, mission: string)
    requires Live(l, w) && mission in Ids(l.run) && EngineFails(w, mission) && !Blank(w.executeError(mission))
    ensures var (l1, v) := Visit(l, w, mission);
            v == Errored && StoppedWith(l1, Failed, MissionFailed(mission, w.executeError(mission)))
  {
    ExecuteIsLive(l, w, mission);
    RecordsFailure(Execute(l, w, mission), w, mission, Researching, w.executeError(mission));
  }

  // ----- Exhausted missions -----

  /** Follow-ups the run can take: texts, none of them the root, all known to the store. */
  predicate Takeable(run: LoopRun, w: World, followUps: seq<string>) {
    forall i :: 0 <= i < |followUps| ==> !Blank(followUps[i]) && followUps[i] != run.root && w.known(followUps[i])
  }

  /** The children are the old ones, in place, followed by follow-ups only. */
  ghost predicate GrownBy(before: seq<string>, after: seq<string>, followUps: seq<string>) {
    before <= after && forall x :: x in after <==> x in before || x in followUps
  }

  lemma ChildIsValid(run: LoopRun, child: string)
    requires Valid(run) && !Blank(child) && child !in run.children
    ensures Valid(run.(children := run.children + [child]))
  {
    var grown := run.(children := run.children + [child]);
    forall i | 0 <= i < |grown.records| ensures RecordValid(grown, grown.records[i]) {
      assert RecordValid(run, run.records[i]);
    }
  }

  lemma {:induction false} ChildrenAreTaken(run: LoopRun, w: World, followUps: seq<string>)
    requires Valid(run) && Takeable(run, w, followUps)
    ensures var (grown, ok) := AddChildren(run, followUps); ok && Valid(grown) && GrownBy(run.children, grown.children, followUps)
    decreases followUps
  {
    if followUps != [] {
      var f, rest := followUps[0], followUps[1..];
      assert followUps == [f] + rest;
      if f in run.children {
        ChildrenAreTaken(run, w, rest);
      } else {
        ChildIsValid(run, f);
        ChildrenAreTaken(run.(children := run.children + [f]), w, rest);
      }
    }
  }

  /** The outcome of learning from an exhausted mission. */
  lemma ExhaustedStops(l: Loop, w: World, mission: string, m: Mission)
    requires Live(l, w) && mission in Ids(l.run) && Reports(w, mission, m) && m.status == BudgetExhausted && !Blank(m.reason)
    requires w.learn(mission).None? ==> !Blank(w.learnError(mission))
    requires w.learn(mission).Some? ==> !Blank(w.learn(mission).value.summary) && Takeable(l.run, w, w.learn(mission).value.followUps)
    ensures var (l1, v) := Visit(l, w, mission);
            && (w.learn(mission).None? ==> v == Errored && StoppedWith(l1, Failed, MissionFailed(mission, w.learnError(mission))))
            && (w.learn(mission).Some? && w.learn(mission).value.followUps == [] ==>
                  v == Halted && StoppedWith(l1, BudgetExhausted, ResearchBudgetExhausted(mission)))
            && (w.learn(mission).Some? && w.learn(mission).value.followUps != [] ==>
                  v == Continue && Live(l1, w) && l1.journal[|l1.journal| - 1] == l1.run
                  && GrownBy(l.run.children, l1.run.children, w.learn(mission).value.followUps))
  {
    var l1 := VisitRecords(l, w, mission, m);
    assert Ids(l1.run) == Ids(l.run);
    assert Visit(l, w, mission) == VisitExhausted(l1, w, mission);
    if w.learn(mission).None? {
      RecordsFailure(l1, w, mission, Learning, w.learnError(mission));
    } else {
      var learned := w.learn(mission).value;
      AppendSucceeds(l1, w, mission, Learning, Completed, learned.summary);
      LearningStops(AppendStage(l1, w, mission, Learning, Completed, learned.summary).0, w, mission, learned.followUps);
    }
  }

  lemma KnownChild(l: Loop, w: World, followUps: seq<string>, child: string)
    requires Saveable(l, w) && Takeable(l.run, w, followUps) && (child in l.run.children || child in followUps)
    ensures w.known(child)
  {}

  lemma LearningStops(l: Loop, w: World, mission: string, followUps: seq<string>)
    requires Live(l, w) && Takeable(l.run, w, followUps)
    ensures var (l1, v) := AfterLearning(l, w, mission, followUps);
            && (followUps == [] ==> v == Halted && StoppedWith(l1, BudgetExhausted, ResearchBudgetExhausted(mission)))
            && (followUps != [] ==> v == Continue && Live(l1, w) && l1.journal[|l1.journal| - 1] == l1.run
                                    && GrownBy(l.run.children, l1.run.children, followUps))
  {
    if followUps == [] {
      StopsLive(l, w, ResearchBudgetExhausted(mission));
    } else {
      ChildrenAreTaken(l.run, w, followUps);
      AddChildrenFrame(l.run, followUps);
      var grown := AddChildren(l.run, followUps).0;
      forall i | 0 <= i < |grown.children| ensures w.known(grown.children[i]) {
        assert grown.children[i] in grown.children;
        KnownChild(l, w, followUps, grown.children[i]);
      }
      assert Saveable(l.(run := grown), w);
    }
  }

  // ----- What a visit executes -----

  lemma {:induction false} NotesExecuteNothing(l: Loop, w: World, mission: string, notes: seq<StageNote>)
    ensures AppendAll(l, w, mission, notes).0.executed == l.executed
    decreases notes
  {
    if notes != [] {
      var r := AppendStage(l, w, mission, notes[0].stage, Completed, notes[0].reason);
      AppendStageEffect(l, w, mission, notes[0].stage, Completed, notes[0].reason);
      if r.1 { NotesExecuteNothing(r.0, w, mission, notes[1..]); }
    }
  }

  lemma CompletedExecutesNothing(l: Loop, w: World, mission: string)
    ensures VisitCompleted(l, w, mission).0.executed == l.executed
  {
    NotesExecuteNothing(l, w, mission, Plan(w.evidence(mission), ResearchReason(l.run, mission), l.run.target).0);
  }

  lemma ExhaustedExecutesNothing(l: Loop, w: World, mission: string)
    ensures VisitExhausted(l, w, mission).0.executed == l.executed
  {}

  lemma SettledExecutesNothing(l: Loop, w: World, mission: string, m: Mission)
    ensures VisitSettled(l, w, mission, m).0.executed == l.executed
  {
    var l1 := AppendStage(l, w, mission, Researching, m.status, m.reason).0;
    AppendStageEffect(l, w, mission, Researching, m.status, m.reason);
    if m.status == Completed {
      CompletedExecutesNothing(l1, w, mission);
    } else if m.status == BudgetExhausted {
      ExhaustedExecutesNothing(l1, w, mission);
    }
  }

  /** A visit executes its own mission, once, exactly when the stored mission is not in a final state. */
  lemma VisitExecutes(l: Loop, w: World, mission: string)
    ensures var stored := w.stored(mission);
            Visit(l, w, mission).0.executed
            == l.executed + if stored.Some? && (stored.value.status == Pending || stored.value.status == Running || stored.value.status == Paused)
                            then [Execution(mission, |l.journal|)] else []
  {
    assert l.executed + [] == l.executed;
    if w.stored(mission).Some? && Settled(w, mission).Some? {
      SettledExecutesNothing(Execute(l, w, mission), w, mission, Settled(w, mission).value);
    }
  }

  // ----- The whole invocation -----

  /** A loaded run that is not terminal starts live, from its own worklist. */
  lemma InvocationStarts(l: Loop, w: World) returns (started: Loop)
    requires Loaded(l) && !Terminal(l.run.status) && forall i :: 0 <= i < |l.run.children| ==> w.known(l.run.children[i])
    ensures Live(started, w) && Invoke(l, w) == Drive(started, w, 0)
    ensures started.run == l.run.(status := Running, stop := None) && started.executed == l.executed
  {
    started := l;
    if l.run.status != Running { started := Save(l.(run := Started(l.run)), w).0; }
  }

  /** With no mission left to visit, or none allowed, the run ends on the mission limit. */
  lemma LimitStops(l: Loop, w: World, cursor: nat)
    requires Live(l, w) && cursor <= l.run.max && (cursor >= |Ids(l.run)| || cursor >= l.run.max)
    ensures var (l1, ok) := Drive(l, w, cursor); ok && StoppedWith(l1, BudgetExhausted, MissionLimitReached(cursor))
  {
    DriveEnds(l, w, cursor);
    StopsLive(l, w, MissionLimitReached(cursor));
  }

  /** Otherwise the next mission decides: its stop or error is the invocation's, and only an exhausted mission passes on. */
  lemma NextMissionDecides(l: Loop, w: World, cursor: nat)
    requires cursor < |Ids(l.run)| && cursor < l.run.max
    ensures var (l1, v) := Visit(l, w, Ids(l.run)[cursor]);
            && l1.run.max == l.run.max
            && Drive(l, w, cursor) == match v case Halted => (l1, true) case Errored => (l1, false) case Continue => Drive(l1, w, cursor + 1)
  {
    var r := Visit(l, w, Ids(l.run)[cursor]);
    DriveStep(l, w, cursor, r.0, r.1);
  }
}
