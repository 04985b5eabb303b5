/** A dispatcher succeeds only after the bound Job it validated was released. */
module DispatchSuccess {
  import opened Prelude
  import opened Dispatch

  ghost predicate Released(s: State, job: Job) {
    exists i :: 0 <= i < |s.releases| && s.releases[i].before == job
  }

  predicate PastRelease(p: Phase) {
    p.Confirming? || p.Succeeded?
  }

  ghost predicate ReleaseRecorded(s: State, p: Phase) {
    PastRelease(p) ==> Released(s, p.job)
  }

  /** A release request on the wire is the one its sender waits for, unless the sender failed. */
  predicate SlotOk(s: State, d: nat) {
    d in s.wire && s.wire[d].PatchJob? ==>
      Stay(s, d) == Failed || (Stay(s, d).Holding? && Stay(s, d).point == ReleaseWire && Stay(s, d).job == s.wire[d].job)
  }

  ghost predicate SuccessOk(s: State) {
    (forall d :: d in s.phases ==> ReleaseRecorded(s, s.phases[d])) && (forall d: nat :: SlotOk(s, d))
  }

  /** Releases are only added, nobody newly waits for or claims one, and the wire still matches. */
  ghost predicate ReleasesNothing(s: State, s': State) {
    && s.releases <= s'.releases && (forall d :: PastRelease(Stay(s', d)) ==> Stay(s', d) == Stay(s, d))
    && (forall d: nat :: SlotOk(s, d) ==> SlotOk(s', d))
  }

  lemma RecordedStays(s: State, s': State, p: Phase)
    requires s.releases <= s'.releases && ReleaseRecorded(s, p)
    ensures ReleaseRecorded(s', p)
  {
    if PastRelease(p) {
      var i :| 0 <= i < |s.releases| && s.releases[i].before == p.job;
      assert s'.releases[i] == s.releases[i];
    }
  }

  lemma NothingKeepsSuccess(s: State, s': State)
    requires SuccessOk(s) && ReleasesNothing(s, s')
    ensures SuccessOk(s')
  {
    forall d | d in s'.phases ensures ReleaseRecorded(s', s'.phases[d]) {
      if PastRelease(Stay(s', d)) { RecordedStays(s, s', Stay(s, d)); }
    }
  }

  lemma GotoReleasesNothing(s: State, d: nat, p: Phase)
    requires !PastRelease(p) && (SlotOk(s, d) ==> SlotOk(Goto(s, d, p), d))
    ensures ReleasesNothing(s, Goto(s, d, p))
  {
    var s' := Goto(s, d, p);
    forall e: nat | SlotOk(s, e) ensures SlotOk(s', e) {
      assert e != d ==> Stay(s', e) == Stay(s, e);
    }
  }

  /** A step that moves one dispatcher to `q`, from a phase in which it cannot have a release on the wire. */
  lemma MoveReleasesNothing(s: State, d: nat, q: Phase, s': State)
    requires s'.phases == Goto(s, d, q).phases && s'.releases == s.releases && s'.wire == s.wire
    requires !PastRelease(q) && Stay(s, d) != Failed && !(Stay(s, d).Holding? && Stay(s, d).point == ReleaseWire)
    ensures ReleasesNothing(s, s')
  {
    GotoReleasesNothing(s, d, q);
    forall e: nat | SlotOk(s, e) ensures SlotOk(s', e) { assert SlotOk(Goto(s, d, q), e); }
  }

  lemma ClaimReleasesNothing(s: State, d: nat)
    ensures ReleasesNothing(s, DoClaim(s, d))
  {
    var p := Stay(s, d);
    if p.Prepared? {
      if s.ledger.Unclaimed? {
        MoveReleasesNothing(s, d, Claiming(p.target, true, None, false), DoClaim(s, d));
      } else if s.ledger.target == p.target {
        MoveReleasesNothing(s, d, Claiming(p.target, false, s.ledger.bound, false), DoClaim(s, d));
      } else {
        MoveReleasesNothing(s, d, Failed, DoClaim(s, d));
      }
    }
  }

  lemma AdmitResolveReleasesNothing(s: State, d: nat)
    ensures ReleasesNothing(s, DoAdmitResolve(s, d))
  {
    var p := Stay(s, d);
    if p.Claiming? && !p.admitted {
      MoveReleasesNothing(s, d, if Guard(s.ledger, p.target, p.uid) then p.(admitted := true) else Failed, DoAdmitResolve(s, d));
    }
  }

  lemma ReadReleasesNothing(s: State, d: nat)
    ensures ReleasesNothing(s, DoReadJob(s, d))
  {
    if DoReadJob(s, d) != s { MoveReleasesNothing(s, d, Stay(DoReadJob(s, d), d), DoReadJob(s, d)); }
  }

  lemma BindReleasesNothing(s: State, d: nat)
    ensures ReleasesNothing(s, DoBindJob(s, d))
  {
    var p := Stay(s, d);
    if p.Resolved? {
      var bound := !Blank(p.job.uid) && s.ledger.Claimed? && s.ledger.target == p.target
                   && (s.ledger.bound == None || s.ledger.bound == Some(p.job.uid));
      MoveReleasesNothing(s, d, if bound then Holding(SecretGuard, p.target, p.job, None) else Failed, DoBindJob(s, d));
    }
  }

  lemma AdmitReleasesNothing(s: State, d: nat)
    ensures ReleasesNothing(s, DoAdmit(s, d))
  {
    if DoAdmit(s, d) != s { MoveReleasesNothing(s, d, Stay(DoAdmit(s, d), d), DoAdmit(s, d)); }
  }

  lemma SecretReleasesNothing(s: State, d: nat)
    ensures ReleasesNothing(s, DoReadSecret(s, d))
  {
    if DoReadSecret(s, d) != s { MoveReleasesNothing(s, d, Stay(DoReadSecret(s, d), d), DoReadSecret(s, d)); }
  }

  lemma SendCreateReleasesNothing(s: State, d: nat)
    ensures ReleasesNothing(s, DoSendCreate(s, d))
  {}

  lemma SendReleasesNothing(s: State, d: nat)
    ensures ReleasesNothing(s, DoSend(s, d))
  {}

  lemma ResolveReleasesNothing(s: State, a: Action)
    requires ResolvesJob(a)
    ensures ReleasesNothing(s, ResolveStep(s, a))
  {
    match a
    case Start(d, t) => if d !in s.wire { GotoReleasesNothing(s, d, Prepared(t)); }
    case Claim(d) => ClaimReleasesNothing(s, d);
    case AdmitResolve(d) => AdmitResolveReleasesNothing(s, d);
    case SendCreate(d) => SendCreateReleasesNothing(s, d);
    case ReadJob(d) => ReadReleasesNothing(s, d);
    case BindJob(d) => BindReleasesNothing(s, d);
    case Crash(d) => GotoReleasesNothing(s, d, Failed);
  }

  lemma CheckKeepsSuccess(s: State, d: nat)
    requires SuccessOk(s)
    ensures SuccessOk(DoCheckReleased(s, d))
  {
    var p, s' := Stay(s, d), DoCheckReleased(s, d);
    forall e | e in s'.phases ensures ReleaseRecorded(s', s'.phases[e]) {
      if e == d && p.Confirming? {
        assert ReleaseRecorded(s, s.phases[d]);
      } else {
        RecordedStays(s, s', s.phases[e]);
      }
    }
    forall e: nat ensures SlotOk(s', e) { assert SlotOk(s, e); }
  }

  lemma ReleaseStepKeepsSuccess(s: State, a: Action)
    requires SuccessOk(s) && ReleasesJob(a)
    ensures SuccessOk(ReleaseStep(s, a))
  {
    match a
    case Admit(d) =>
      AdmitReleasesNothing(s, d);
      NothingKeepsSuccess(s, DoAdmit(s, d));
    case Send(d) =>
      SendReleasesNothing(s, d);
      NothingKeepsSuccess(s, DoSend(s, d));
    case ReadSecret(d) =>
      SecretReleasesNothing(s, d);
      NothingKeepsSuccess(s, DoReadSecret(s, d));
    case CheckReleased(d) => CheckKeepsSuccess(s, d);
  }

  lemma PatchKeepsSuccess(s: State, d: nat, r: Request, version: string, answer: Job)
    requires SuccessOk(s) && r.PatchJob? && d !in s.wire
    requires Stay(s, d).Holding? && Stay(s, d).point == ReleaseWire ==> r.job == Stay(s, d).job
    requires r.target.jobName in s.jobs && ApplyPatch(s.jobs[r.target.jobName], r.ops).Some? ==> s.jobs[r.target.jobName] == r.job
    ensures SuccessOk(DeliverPatch(s, d, r, version, answer))
  {
    var s' := DeliverPatch(s, d, r, version, answer);
    assert s.releases <= s'.releases && forall e: nat :: SlotOk(s, e) ==> SlotOk(s', e);
    forall e | e in s'.phases ensures ReleaseRecorded(s', s'.phases[e]) {
      if e in s.phases && s'.phases[e] == s.phases[e] {
        RecordedStays(s, s', s.phases[e]);
      } else if s'.phases[e].Confirming? {
        var last := s'.releases[|s.releases|];
        assert last.before == s'.phases[e].job;
      }
    }
  }

  lemma DropKeepsSuccess(s: State, d: nat)
    requires SuccessOk(s)
    ensures SuccessOk(Drop(s, d))
  {
    var s' := Drop(s, d);
    forall e | e in s'.phases ensures ReleaseRecorded(s', s'.phases[e]) { RecordedStays(s, s', s.phases[e]); }
    forall e: nat ensures SlotOk(s', e) { assert SlotOk(s, e); }
  }

  /** A patch that applies meets the very version it was built from. */
  lemma PatchMeetsItsJob(s: State, d: nat)
    requires Inv(s) && d in s.wire && s.wire[d].PatchJob?
    ensures var r := s.wire[d];
            r.target.jobName in s.jobs && ApplyPatch(s.jobs[r.target.jobName], r.ops).Some? ==> s.jobs[r.target.jobName] == r.job
  {
    var r := s.wire[d];
    assert RequestOk(s.ledger, s.history, r);
    if r.target.jobName in s.jobs { ReleasePatchIsConditional(r.job, s.jobs[r.target.jobName]); }
  }

  lemma CreateReleasesNothing(s: State, d: nat, t: Target, uid: string, version: string)
    requires d !in s.wire
    ensures ReleasesNothing(s, DeliverCreate(s, d, t, uid, version))
  {}

  lemma PlaceReleasesNothing(s: State, d: nat, t: Target, uid: string)
    requires d !in s.wire
    ensures ReleasesNothing(s, DeliverSecret(s, d, t, uid))
  {}

  lemma DeliverKeepsSuccess(s: State, d: nat, uid: string, version: string, answer: Job)
    requires Inv(s) && SuccessOk(s)
    ensures SuccessOk(DoDeliver(s, d, uid, version, answer))
  {
    if d in s.wire && version !in s.history {
      var s0 := Drop(s, d);
      DropKeepsSuccess(s, d);
      match s.wire[d]
      case CreateJob(t) =>
        CreateReleasesNothing(s0, d, t, uid, version);
        NothingKeepsSuccess(s0, DeliverCreate(s0, d, t, uid, version));
      case CreateSecret(t, owner) =>
        PlaceReleasesNothing(s0, d, t, owner);
        NothingKeepsSuccess(s0, DeliverSecret(s0, d, t, owner));
      case PatchJob(_, _, _, _) =>
        assert SlotOk(s, d);
        PatchMeetsItsJob(s, d);
        PatchKeepsSuccess(s0, d, s.wire[d], version, answer);
    }
  }

  lemma StepKeepsSuccess(s: State, a: Action)
    requires Inv(s) && SuccessOk(s)
    ensures SuccessOk(Step(s, a))
  {
    if ResolvesJob(a) {
      ResolveReleasesNothing(s, a);
      NothingKeepsSuccess(s, ResolveStep(s, a));
    } else if ReleasesJob(a) {
      ReleaseStepKeepsSuccess(s, a);
    } else if a.Deliver? {
      DeliverKeepsSuccess(s, a.d, a.uid, a.version, a.answer);
    } else {
      NothingKeepsSuccess(s, ClusterStep(s, a));
    }
  }

  lemma {:induction false} RunKeepsSuccess(s: State, actions: seq<Action>)
    requires Inv(s) && SuccessOk(s)
    ensures SuccessOk(Run(s, actions))
    decreases actions
  {
    if actions != [] {
      StepKeepsInv(s, actions[0]);
      StepKeepsSuccess(s, actions[0]);
      RunKeepsSuccess(Step(s, actions[0]), actions[1..]);
    }
  }

  /**
   A dispatcher succeeds only after the bound Job it validated was released, and only when the answer to
   its patch was that Job, running and the target's own in every compared field.
   */
  lemma SuccessMeansReleased(actions: seq<Action>, d: nat)
    ensures var s := Run(Init(), actions);
            Stay(s, d).Succeeded? ==>
              var p := Stay(s, d);
              && s.ledger.Claimed? && p.target == s.ledger.target && s.ledger.bound == Some(p.job.uid)
              && IsTargetJob(p.job, s.ledger.target)
              && IsTargetJob(p.released, s.ledger.target) && p.released.suspend == No && p.released.uid == p.job.uid
              && exists i :: 0 <= i < |s.releases| && s.releases[i].before == p.job && s.releases[i].after.suspend == No
  {
    RunKeepsInv(Init(), actions);
    RunKeepsSuccess(Init(), actions);
    var s := Run(Init(), actions);
    if Stay(s, d).Succeeded? {
      assert PhaseOk(s.ledger, s.history, s.phases[d]) && ReleaseRecorded(s, s.phases[d]);
      AdoptableIff(Stay(s, d).job, s.ledger.target);
      var i :| 0 <= i < |s.releases| && s.releases[i].before == Stay(s, d).job;
      assert ReleaseOk(s.ledger, s.history, s.releases[i]);
    }
  }
}
