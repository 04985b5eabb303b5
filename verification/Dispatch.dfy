/**
 The campaign dispatch protocol: any number of dispatcher attempts claim one ledger
 operation, create or adopt a suspended Job, bind its UID, place the input Secret and
 release the Job with a conditional JSON Patch, while the cluster may delete, replace or
 edit Jobs and Secrets between any two steps.  Requests travel on a wire: they may take
 effect after their sender has crashed, or never.
 */
module Dispatch {
  import opened Prelude
  import opened Base64
  import opened SecretPayload

  // ----- Cluster objects -----

  datatype Suspend = Yes | No | Unset

  /** An annotation that should digest the request: an ideal digest, or some unrelated text. */
  datatype Sha = ShaOf(request: Bytes) | OtherSha(text: string)

  /** A Job as read back: the fields that the readback validators and the release patch look at. */
  datatype Job = Job(name: string, uid: string, version: string, requestSha: Sha, suspend: Suspend, projection: string)

  datatype Owner = Owner(apiVersion: string, kind: string, name: string, uid: string)

  datatype Secret = Secret(name: string, immutable: bool, requestSha: Sha, owner: Option<Owner>, data: Option<Payload>)

  /** One rendered dispatch: the identities it submits and expects to read back. */
  datatype Target = Target(jobName: string, secretName: string, requestSha: Sha, projection: string,
                           request: Bytes, payload: Option<Payload>)

  // ----- Readback validators -----

  predicate ValidReadback(job: Job, t: Target, suspend: Suspend) {
    job.name == t.jobName && job.requestSha == t.requestSha && job.suspend == suspend && job.projection == t.projection
  }

  /** `adopt_existing_job`: suspended or running, but nothing else may differ. */
  predicate Adoptable(job: Job, t: Target) {
    ValidReadback(job, t, Yes) || ValidReadback(job, t, No)
  }

  function JobOwner(t: Target, uid: string): Owner {
    Owner("batch/v1", "Job", t.jobName, uid)
  }

  ghost predicate ValidSecret(secret: Secret, t: Target, uid: string) {
    && secret.name == t.secretName && secret.immutable && secret.requestSha == t.requestSha
    && secret.owner == Some(JobOwner(t, uid))
    && secret.data.Some? && "campaign.json" in secret.data.value
    && EntryMatches(secret.data.value["campaign.json"], Text(t.request)) && t.requestSha == ShaOf(t.request)
    && PayloadMatches(secret.data, t.payload)
  }

  // ----- RFC 6902 patch -----

  datatype PatchOp = TestUid(uid: string) | TestVersion(version: string) | ReplaceSuspend(value: Suspend)

  /** Sections 4.3 and 4.6: `test` compares, `replace` needs an existing location. */
  function ApplyOp(job: Job, op: PatchOp): Option<Job> {
    match op
    case TestUid(uid) => if job.uid == uid then Some(job) else None
    case TestVersion(version) => if job.version == version then Some(job) else None
    case ReplaceSuspend(value) => if job.suspend == Unset then None else Some(job.(suspend := value))
  }

  /** Section 5: operations apply in order and any failure drops the whole patch. */
  function ApplyPatch(job: Job, ops: seq<PatchOp>): Option<Job>
    decreases ops
  {
    if ops == [] then Some(job)
    else
      match ApplyOp(job, ops[0])
      case None => None
      case Some(next) => ApplyPatch(next, ops[1..])
  }

  function ReleasePatch(job: Job): seq<PatchOp> {
    [TestUid(job.uid), TestVersion(job.version), ReplaceSuspend(No)]
  }

  /** The release patch takes effect exactly on the (uid, resourceVersion) it was built from. */
  lemma ReleasePatchIsConditional(observed: Job, current: Job)
    ensures ApplyPatch(current, ReleasePatch(observed)) ==
            if current.uid == observed.uid && current.version == observed.version && current.suspend != Unset
            then Some(current.(suspend := No)) else None
  {
    var ops := ReleasePatch(observed);
    assert ops[1..] == [TestVersion(observed.version), ReplaceSuspend(No)];
    assert ops[1..][1..] == [ReplaceSuspend(No)];
    assert ops[1..][1..][1..] == [];
    var two := ops[1..][1..];
    assert ApplyPatch(current, two) == if current.suspend == Unset then None else Some(current.(suspend := No));
  }

  // ----- Protocol state -----

  datatype Ledger = Unclaimed | Claimed(target: Target, claimant: nat, bound: Option<string>)

  /** Where a dispatcher that has bound its Job stands: guard, send, on the wire, read back; then guard, send, on the wire. */
  datatype Point = SecretGuard | SecretSend | SecretWire | SecretRead | ReleaseGuard | ReleaseSend | ReleaseWire

  datatype Phase =
    | Prepared(target: Target)
    | Claiming(target: Target, first: bool, uid: Option<string>, admitted: bool)
    | Creating(target: Target, created: Option<bool>)
    | Resolved(target: Target, uid: Option<string>, job: Job)
    | Holding(point: Point, target: Target, job: Job, secret: Option<Secret>)
    | Confirming(target: Target, job: Job, released: Job)
    | Succeeded(target: Target, job: Job, released: Job)
    | Failed

  datatype Request =
    | CreateJob(target: Target)
    | CreateSecret(target: Target, uid: string)
    | PatchJob(target: Target, job: Job, secret: Secret, ops: seq<PatchOp>)

  /** An accepted release: the Job the server patched, what it became, and the evidence the sender held. */
  datatype Release = Release(target: Target, before: Job, after: Job, observed: Job, secret: Secret)

  datatype Binding = Binding(dispatcher: nat, job: Job)

  type History = map<string, Job>

  /** `history` is every Job state the server ever stored, by resourceVersion; `creates` counts Job create requests. */
  datatype State = State(
    ledger: Ledger, jobs: map<string, Job>, secrets: map<string, Secret>, history: History,
    phases: map<nat, Phase>, wire: map<nat, Request>,
    creates: nat, bindings: seq<Binding>, releases: seq<Release>)

  datatype Action =
    | Start(d: nat, target: Target)
    | Claim(d: nat)
    | AdmitResolve(d: nat)
    | SendCreate(d: nat)
    | ReadJob(d: nat)
    | BindJob(d: nat)
    | Admit(d: nat)
    | Send(d: nat)
    | ReadSecret(d: nat)
    | CheckReleased(d: nat)
    | Crash(d: nat)
    | Deliver(d: nat, uid: string, version: string, answer: Job)
    | EnvCreate(job: Job)
    | EnvEdit(name: string, requestSha: Sha, suspend: Suspend, projection: string, version: string)
    | EnvDelete(name: string)
    | EnvSecret(secret: Secret)
    | EnvDeleteSecret(name: string)

  function Init(): State {
    State(Unclaimed, map[], map[], map[], map[], map[], 0, [], [])
  }

  function Goto(s: State, d: nat, p: Phase): State {
    s.(phases := s.phases[d := p])
  }

  function Stay(s: State, d: nat): Phase {
    if d in s.phases then s.phases[d] else Failed
  }

  // ----- Dispatcher steps; a step that its phase does not enable leaves the state alone -----

  /** `claim`: only the call that durably creates the claim gets `first`. */
  function DoClaim(s: State, d: nat): State {
    var p := Stay(s, d);
    if !p.Prepared? then s
    else if s.ledger.Unclaimed? then
      Goto(s, d, Claiming(p.target, true, None, false)).(ledger := Claimed(p.target, d, None))
    else if s.ledger.target == p.target then Goto(s, d, Claiming(p.target, false, s.ledger.bound, false))
    else Goto(s, d, Failed)
  }

  /** `guarded`: the action runs only if the ledger still shows this target and this UID. */
  predicate Guard(l: Ledger, t: Target, uid: Option<string>) {
    l.Claimed? && l.target == t && l.bound == uid
  }

  function DoAdmitResolve(s: State, d: nat): State {
    var p := Stay(s, d);
    if !p.Claiming? || p.admitted then s
    else Goto(s, d, if Guard(s.ledger, p.target, p.uid) then p.(admitted := true) else Failed)
  }

  function DoSendCreate(s: State, d: nat): State {
    var p := Stay(s, d);
    if !p.Claiming? || !p.admitted || !p.first then s
    else Goto(s, d, Creating(p.target, None)).(wire := s.wire[d := CreateJob(p.target)], creates := s.creates + 1)
  }

  /** `resolve_dispatch_job` after its read: identity, then the UID or suspension rule. */
  function Resolve(t: Target, uid: Option<string>, job: Job): Phase {
    if !Adoptable(job, t) then Failed
    else if uid.Some? then (if job.uid == uid.value then Resolved(t, uid, job) else Failed)
    else if job.suspend == Yes then Resolved(t, uid, job) else Failed
  }

  /** The Job read of a retry, or of the creator once its create was answered; a fresh create must still be suspended. */
  function DoReadJob(s: State, d: nat): State {
    var p := Stay(s, d);
    var retry := p.Claiming? && p.admitted && !p.first;
    var creator := p.Creating? && p.created.Some?;
    if !retry && !creator then s
    else if p.target.jobName !in s.jobs then Goto(s, d, Failed)
    else
      var job := s.jobs[p.target.jobName];
      if creator && p.created.value && !ValidReadback(job, p.target, Yes) then Goto(s, d, Failed)
      else Goto(s, d, Resolve(p.target, if retry then p.uid else None, job))
  }

  /** `bind_job`: create-once; a different UID is refused. */
  function DoBindJob(s: State, d: nat): State {
    var p := Stay(s, d);
    if !p.Resolved? then s
    else if Blank(p.job.uid) || !s.ledger.Claimed? || s.ledger.target != p.target then Goto(s, d, Failed)
    else if s.ledger.bound == None then
      Goto(s, d, Holding(SecretGuard, p.target, p.job, None))
        .(ledger := s.ledger.(bound := Some(p.job.uid)), bindings := s.bindings + [Binding(d, p.job)])
    else if s.ledger.bound == Some(p.job.uid) then Goto(s, d, Holding(SecretGuard, p.target, p.job, None))
    else Goto(s, d, Failed)
  }

  /** The guard before the Secret and the guard before the release, which also needs a nonblank resourceVersion. */
  function DoAdmit(s: State, d: nat): State {
    var p := Stay(s, d);
    if !p.Holding? then s
    else
      var ok := Guard(s.ledger, p.target, Some(p.job.uid));
      if p.point == SecretGuard then Goto(s, d, if ok then p.(point := SecretSend) else Failed)
      else if p.point == ReleaseGuard then Goto(s, d, if ok && !Blank(p.job.version) then p.(point := ReleaseSend) else Failed)
      else s
  }

  function DoSend(s: State, d: nat): State {
    var p := Stay(s, d);
    if !p.Holding? then s
    else if p.point == SecretSend then
      Goto(s, d, p.(point := SecretWire)).(wire := s.wire[d := CreateSecret(p.target, p.job.uid)])
    else if p.point == ReleaseSend && p.secret.Some? then
      Goto(s, d, p.(point := ReleaseWire)).(wire := s.wire[d := PatchJob(p.target, p.job, p.secret.value, ReleasePatch(p.job))])
    else s
  }

  ghost function DoReadSecret(s: State, d: nat): State {
    var p := Stay(s, d);
    if !p.Holding? || p.point != SecretRead then s
    else if p.target.secretName in s.secrets && ValidSecret(s.secrets[p.target.secretName], p.target, p.job.uid)
    then Goto(s, d, Holding(ReleaseGuard, p.target, p.job, Some(s.secrets[p.target.secretName]))) else Goto(s, d, Failed)
  }

  function DoCheckReleased(s: State, d: nat): State {
    var p := Stay(s, d);
    if !p.Confirming? then s
    else Goto(s, d, if ValidReadback(p.released, p.target, No) && p.released.uid == p.job.uid then Succeeded(p.target, p.job, p.released) else Failed)
  }

  // ----- API server -----

  /** Every write stores the object under a resourceVersion that was never used before. */
  function Store(s: State, job: Job): State {
    s.(jobs := s.jobs[job.name := job], history := s.history[job.version := job])
  }

  function Drop(s: State, d: nat): State {
    s.(wire := s.wire - {d})
  }

  function DeliverCreate(s: State, d: nat, t: Target, uid: string, version: string): State {
    var conflict := t.jobName in s.jobs;
    var s1 := if conflict then s else Store(s, Job(t.jobName, uid, version, t.requestSha, Yes, t.projection));
    if Stay(s, d) == Creating(t, None) then Goto(s1, d, Creating(t, Some(!conflict))) else s1
  }

  function DeliverSecret(s: State, d: nat, t: Target, uid: string): State {
    var s1 := if t.secretName in s.secrets then s else s.(secrets := s.secrets[t.secretName := StoredSecret(t, uid)]);
    var p := Stay(s, d);
    if p.Holding? && p.point == SecretWire then Goto(s1, d, p.(point := SecretRead)) else s1
  }

  /** The Secret the server keeps for a dispatch. */
  function StoredSecret(t: Target, uid: string): Secret {
    Secret(t.secretName, true, t.requestSha, Some(JobOwner(t, uid)), EncodedPayload(t))
  }

  /** `stringData` comes back base64-encoded under `data`. */
  function EncodedPayload(t: Target): Option<Payload> {
    match t.payload
    case None => None
    case Some(p) => Some(map name | name in p :: if p[name].Text? then Text(Encode(p[name].bytes)) else Other)
  }

  /** The server applies the patch to the stored Job or not at all; what the sender is told came of it is the server's word. */
  function DeliverPatch(s: State, d: nat, r: Request, version: string, answer: Job): State
    requires r.PatchJob?
  {
    var name := r.target.jobName;
    var patched := if name in s.jobs then ApplyPatch(s.jobs[name], r.ops) else None;
    var p := Stay(s, d);
    var waiting := p.Holding? && p.point == ReleaseWire;
    if patched.None? then (if waiting then Goto(s, d, Failed) else s)
    else
      var after := patched.value.(version := version);
      var s1 := Store(s, after).(releases := s.releases + [Release(r.target, s.jobs[name], after, r.job, r.secret)]);
      if waiting then Goto(s1, d, Confirming(p.target, p.job, answer)) else s1
  }

  function DoDeliver(s: State, d: nat, uid: string, version: string, answer: Job): State {
    if d !in s.wire || version in s.history then s
    else
      var s0 := Drop(s, d);
      match s.wire[d]
      case CreateJob(t) => DeliverCreate(s0, d, t, uid, version)
      case CreateSecret(t, owner) => DeliverSecret(s0, d, t, owner)
      case PatchJob(_, _, _, _) => DeliverPatch(s0, d, s.wire[d], version, answer)
  }

  predicate ResolvesJob(a: Action) {
    a.Start? || a.Claim? || a.AdmitResolve? || a.SendCreate? || a.ReadJob? || a.BindJob? || a.Crash?
  }

  function ResolveStep(s: State, a: Action): State
    requires ResolvesJob(a)
  {
    match a
    case Start(d, t) => if d in s.phases || d in s.wire then s else Goto(s, d, Prepared(t))
    case Claim(d) => DoClaim(s, d)
    case AdmitResolve(d) => DoAdmitResolve(s, d)
    case SendCreate(d) => DoSendCreate(s, d)
    case ReadJob(d) => DoReadJob(s, d)
    case BindJob(d) => DoBindJob(s, d)
    case Crash(d) => if d in s.phases then Goto(s, d, Failed) else s
  }

  predicate ReleasesJob(a: Action) {
    a.Admit? || a.Send? || a.ReadSecret? || a.CheckReleased?
  }

  ghost function ReleaseStep(s: State, a: Action): State
    requires ReleasesJob(a)
  {
    match a
    case Admit(d) => DoAdmit(s, d)
    case Send(d) => DoSend(s, d)
    case ReadSecret(d) => DoReadSecret(s, d)
    case CheckReleased(d) => DoCheckReleased(s, d)
  }

  function ClusterStep(s: State, a: Action): State
    requires !ResolvesJob(a) && !ReleasesJob(a)
  {
    match a
    case Deliver(d, uid, version, answer) => DoDeliver(s, d, uid, version, answer)
    case EnvCreate(job) => if job.name in s.jobs || job.version in s.history then s else Store(s, job)
    case EnvEdit(name, sha, suspend, projection, version) =>
      if name !in s.jobs || version in s.history then s
      else Store(s, s.jobs[name].(requestSha := sha, suspend := suspend, projection := projection, version := version))
    case EnvDelete(name) => s.(jobs := s.jobs - {name})
    case EnvSecret(secret) => s.(secrets := s.secrets[secret.name := secret])
    case EnvDeleteSecret(name) => s.(secrets := s.secrets - {name})
  }

  ghost function Step(s: State, a: Action): State {
    if ResolvesJob(a) then ResolveStep(s, a)
    else if ReleasesJob(a) then ReleaseStep(s, a)
    else ClusterStep(s, a)
  }

  ghost function Run(s: State, actions: seq<Action>): State
    decreases actions
  {
    if actions == [] then s else Run(Step(s, actions[0]), actions[1..])
  }

  // ----- Invariant -----

  ghost predicate Seen(h: History, job: Job) {
    job.version in h && h[job.version] == job
  }

  ghost predicate BoundTo(l: Ledger, h: History, t: Target, job: Job) {
    l.Claimed? && l.target == t && l.bound == Some(job.uid) && !Blank(job.uid) && Seen(h, job) && Adoptable(job, t)
  }

  /** A dispatcher that may still send the one create request. */
  predicate FirstPending(p: Phase) {
    p.Claiming? && p.first
  }

  predicate HasSecret(point: Point) {
    point == ReleaseGuard || point == ReleaseSend || point == ReleaseWire
  }

  ghost predicate PhaseOk(l: Ledger, h: History, p: Phase) {
    match p
    case Prepared(_) => true
    case Failed => true
    case Claiming(t, _, uid, _) => l.Claimed? && l.target == t && (uid.Some? ==> l.bound == uid)
    case Creating(t, _) => l.Claimed? && l.target == t
    case Resolved(t, uid, job) =>
      && l.Claimed? && l.target == t && Seen(h, job) && Adoptable(job, t)
      && if uid.Some? then l.bound == uid && job.uid == uid.value else job.suspend == Yes
    case Holding(point, t, job, secret) =>
      && BoundTo(l, h, t, job) && (HasSecret(point) ==> secret.Some? && ValidSecret(secret.value, t, job.uid))
      && (point == ReleaseSend || point == ReleaseWire ==> !Blank(job.version))
    case Confirming(t, job, _) => BoundTo(l, h, t, job)
    case Succeeded(t, job, released) => BoundTo(l, h, t, job) && ValidReadback(released, t, No) && released.uid == job.uid
  }

  ghost predicate RequestOk(l: Ledger, h: History, r: Request) {
    r.PatchJob? ==>
      BoundTo(l, h, r.target, r.job) && !Blank(r.job.version) && ValidSecret(r.secret, r.target, r.job.uid) && r.ops == ReleasePatch(r.job)
  }

  ghost predicate ReleaseOk(l: Ledger, h: History, r: Release) {
    && r.before == r.observed && BoundTo(l, h, r.target, r.before) && !Blank(r.before.version)
    && ValidSecret(r.secret, r.target, r.before.uid)
    && r.after == r.before.(suspend := No, version := r.after.version) && Seen(h, r.after)
  }

  ghost predicate BindingsOk(l: Ledger, h: History, bindings: seq<Binding>) {
    if l.Claimed? && l.bound.Some? then
      && |bindings| == 1
      && bindings[0].job.uid == l.bound.value && Seen(h, bindings[0].job)
      && ValidReadback(bindings[0].job, l.target, Yes)
    else bindings == []
  }

  ghost predicate ClusterOk(jobs: map<string, Job>, h: History) {
    && (forall name :: name in jobs ==> jobs[name].name == name && Seen(h, jobs[name]))
    && (forall v :: v in h ==> h[v].version == v)
  }

  ghost predicate PhasesOk(s: State) {
    forall d :: d in s.phases ==> PhaseOk(s.ledger, s.history, s.phases[d])
  }

  ghost predicate WireOk(s: State) {
    forall d :: d in s.wire ==> RequestOk(s.ledger, s.history, s.wire[d])
  }

  ghost predicate CreatesOk(s: State) {
    && s.creates <= 1
    && (s.ledger.Unclaimed? ==> s.creates == 0)
    && (forall d :: d in s.phases && FirstPending(s.phases[d]) ==>
          s.ledger.Claimed? && s.ledger.claimant == d && s.creates == 0)
  }

  ghost predicate ReleasesOk(s: State) {
    forall i :: 0 <= i < |s.releases| ==> ReleaseOk(s.ledger, s.history, s.releases[i])
  }

  ghost predicate Inv(s: State) {
    && ClusterOk(s.jobs, s.history) && PhasesOk(s) && WireOk(s) && CreatesOk(s)
    && BindingsOk(s.ledger, s.history, s.bindings) && ReleasesOk(s)
  }

  // ----- Monotonicity: facts about the ledger and the history survive every step -----

  ghost predicate LedgerExtends(l: Ledger, l': Ledger) {
    l.Claimed? ==> l'.Claimed? && l'.target == l.target && l'.claimant == l.claimant && (l.bound.Some? ==> l'.bound == l.bound)
  }

  ghost predicate HistoryExtends(h: History, h': History) {
    forall v :: v in h ==> v in h' && h'[v] == h[v]
  }

  lemma PhaseOkMono(l: Ledger, h: History, l': Ledger, h': History, p: Phase)
    requires PhaseOk(l, h, p) && LedgerExtends(l, l') && HistoryExtends(h, h')
    ensures PhaseOk(l', h', p)
  {}

  /** Everything already established stays true when the ledger and the history only grow. */
  lemma Carry(s: State, s': State)
    requires Inv(s) && LedgerExtends(s.ledger, s'.ledger) && HistoryExtends(s.history, s'.history)
    ensures forall e :: e in s.phases ==> PhaseOk(s'.ledger, s'.history, s.phases[e])
    ensures forall e :: e in s.wire ==> RequestOk(s'.ledger, s'.history, s.wire[e])
    ensures forall i :: 0 <= i < |s.releases| ==> ReleaseOk(s'.ledger, s'.history, s.releases[i])
    ensures s.ledger.Claimed? && s.ledger.bound.Some? ==> BindingsOk(s'.ledger, s'.history, s.bindings)
  {
    forall e | e in s.phases ensures PhaseOk(s'.ledger, s'.history, s.phases[e]) {
      PhaseOkMono(s.ledger, s.history, s'.ledger, s'.history, s.phases[e]);
    }
  }

  lemma GotoKeepsInv(s: State, d: nat, p: Phase)
    requires Inv(s) && PhaseOk(s.ledger, s.history, p)
    requires FirstPending(p) ==> s.ledger.Claimed? && s.ledger.claimant == d && s.creates == 0
    ensures Inv(Goto(s, d, p))
  {
    var s' := Goto(s, d, p);
    assert forall e :: e in s'.phases && e != d ==> s'.phases[e] == s.phases[e];
  }

  lemma SendKeepsInv(s: State, d: nat, r: Request)
    requires Inv(s) && RequestOk(s.ledger, s.history, r)
    ensures Inv(s.(wire := s.wire[d := r]))
  {
    var s' := s.(wire := s.wire[d := r]);
    assert forall e :: e in s'.wire && e != d ==> s'.wire[e] == s.wire[e];
  }

  lemma AdmitResolveKeepsInv(s: State, d: nat)
    requires Inv(s)
    ensures Inv(DoAdmitResolve(s, d))
  {
    var s' := DoAdmitResolve(s, d);
    if s' != s {
      assert PhaseOk(s.ledger, s.history, s.phases[d]);
      GotoKeepsInv(s, d, s'.phases[d]);
    }
  }

  lemma ResolvedIsOk(l: Ledger, h: History, t: Target, uid: Option<string>, job: Job)
    requires l.Claimed? && l.target == t && Seen(h, job) && (uid.Some? ==> l.bound == uid)
    ensures PhaseOk(l, h, Resolve(t, uid, job)) && !FirstPending(Resolve(t, uid, job))
  {}

  lemma ReadJobKeepsInv(s: State, d: nat)
    requires Inv(s)
    ensures Inv(DoReadJob(s, d))
  {
    var p := Stay(s, d);
    if p.Claiming? || p.Creating? {
      assert PhaseOk(s.ledger, s.history, p);
      GotoKeepsInv(s, d, Failed);
      if p.target.jobName in s.jobs {
        var job := s.jobs[p.target.jobName];
        var uid := if p.Claiming? then p.uid else None;
        ResolvedIsOk(s.ledger, s.history, p.target, uid, job);
        GotoKeepsInv(s, d, Resolve(p.target, uid, job));
      }
    }
  }

  lemma AdmitKeepsInv(s: State, d: nat)
    requires Inv(s)
    ensures Inv(DoAdmit(s, d))
  {
    var p := Stay(s, d);
    if p.Holding? {
      assert PhaseOk(s.ledger, s.history, s.phases[d]);
      GotoKeepsInv(s, d, Failed);
      if p.point == SecretGuard {
        GotoKeepsInv(s, d, p.(point := SecretSend));
      } else if p.point == ReleaseGuard && !Blank(p.job.version) {
        GotoKeepsInv(s, d, p.(point := ReleaseSend));
      }
    }
  }

  lemma ReadSecretKeepsInv(s: State, d: nat)
    requires Inv(s)
    ensures Inv(DoReadSecret(s, d))
  {
    var p := Stay(s, d);
    if p.Holding? && p.point == SecretRead {
      assert PhaseOk(s.ledger, s.history, s.phases[d]);
      GotoKeepsInv(s, d, Failed);
      if p.target.secretName in s.secrets && ValidSecret(s.secrets[p.target.secretName], p.target, p.job.uid) {
        GotoKeepsInv(s, d, Holding(ReleaseGuard, p.target, p.job, Some(s.secrets[p.target.secretName])));
      }
    }
  }

  lemma SendStepKeepsInv(s: State, d: nat)
    requires Inv(s)
    ensures Inv(DoSend(s, d))
  {
    var p := Stay(s, d);
    if p.Holding? && p.point == SecretSend {
      MoveAndSendKeepsInv(s, d, p.(point := SecretWire), CreateSecret(p.target, p.job.uid));
    } else if p.Holding? && p.point == ReleaseSend && p.secret.Some? {
      MoveAndSendKeepsInv(s, d, p.(point := ReleaseWire), PatchJob(p.target, p.job, p.secret.value, ReleasePatch(p.job)));
    }
  }

  lemma MoveAndSendKeepsInv(s: State, d: nat, p: Phase, r: Request)
    requires Inv(s) && PhaseOk(s.ledger, s.history, p) && RequestOk(s.ledger, s.history, r) && !FirstPending(p)
    ensures Inv(Goto(s, d, p).(wire := s.wire[d := r]))
  {
    GotoKeepsInv(s, d, p);
    SendKeepsInv(Goto(s, d, p), d, r);
  }

  lemma CheckReleasedKeepsInv(s: State, d: nat)
    requires Inv(s)
    ensures Inv(DoCheckReleased(s, d))
  {
    var s' := DoCheckReleased(s, d);
    if s' != s {
      assert PhaseOk(s.ledger, s.history, s.phases[d]);
      GotoKeepsInv(s, d, s'.phases[d]);
    }
  }

  lemma ClaimKeepsInv(s: State, d: nat)
    requires Inv(s)
    ensures Inv(DoClaim(s, d)) && LedgerExtends(s.ledger, DoClaim(s, d).ledger)
  {
    var p := Stay(s, d);
    if p.Prepared? {
      if s.ledger.Unclaimed? {
        var s1 := s.(ledger := Claimed(p.target, d, None));
        Carry(s, s1);
        assert Inv(s1);
        GotoKeepsInv(s1, d, Claiming(p.target, true, None, false));
      } else {
        GotoKeepsInv(s, d, DoClaim(s, d).phases[d]);
      }
    }
  }

  lemma SendCreateKeepsInv(s: State, d: nat)
    requires Inv(s)
    ensures Inv(DoSendCreate(s, d))
  {
    var p := Stay(s, d);
    if DoSendCreate(s, d) != s {
      assert PhaseOk(s.ledger, s.history, s.phases[d]);
      GotoKeepsInv(s, d, Creating(p.target, None));
      var s1 := Goto(s, d, Creating(p.target, None));
      SendKeepsInv(s1, d, CreateJob(p.target));
      var s2 := s1.(wire := s1.wire[d := CreateJob(p.target)]);
      assert CreatesOk(s2.(creates := s.creates + 1));
    }
  }

  lemma BindKeepsInv(s: State, d: nat)
    requires Inv(s)
    ensures Inv(DoBindJob(s, d)) && LedgerExtends(s.ledger, DoBindJob(s, d).ledger)
  {
    var p := Stay(s, d);
    if p.Resolved? {
      assert PhaseOk(s.ledger, s.history, s.phases[d]);
      if !Blank(p.job.uid) && s.ledger.bound == None {
        var s1 := s.(ledger := s.ledger.(bound := Some(p.job.uid)), bindings := s.bindings + [Binding(d, p.job)]);
        Carry(s, s1);
        assert Inv(s1);
        GotoKeepsInv(s1, d, Holding(SecretGuard, p.target, p.job, None));
      } else {
        GotoKeepsInv(s, d, DoBindJob(s, d).phases[d]);
      }
    }
  }

  lemma StoreKeepsInv(s: State, job: Job)
    requires Inv(s) && job.version !in s.history
    ensures Inv(Store(s, job)) && HistoryExtends(s.history, Store(s, job).history)
  {
    var s' := Store(s, job);
    assert HistoryExtends(s.history, s'.history);
    Carry(s, s');
    forall name | name in s'.jobs ensures s'.jobs[name].name == name && Seen(s'.history, s'.jobs[name]) {
      if name != job.name { assert Seen(s.history, s.jobs[name]); }
    }
  }

  lemma DeliverCreateKeepsInv(s: State, d: nat, t: Target, uid: string, version: string)
    requires Inv(s) && version !in s.history
    ensures Inv(DeliverCreate(s, d, t, uid, version)) && DeliverCreate(s, d, t, uid, version).ledger == s.ledger
    ensures HistoryExtends(s.history, DeliverCreate(s, d, t, uid, version).history)
  {
    var conflict := t.jobName in s.jobs;
    var job := Job(t.jobName, uid, version, t.requestSha, Yes, t.projection);
    if !conflict { StoreKeepsInv(s, job); }
    var s1 := if conflict then s else Store(s, job);
    if Stay(s, d) == Creating(t, None) { GotoKeepsInv(s1, d, Creating(t, Some(!conflict))); }
  }

  lemma SecretsDoNotMatter(s: State, secrets: map<string, Secret>)
    requires Inv(s)
    ensures Inv(s.(secrets := secrets))
  {}

  lemma DeliverSecretKeepsInv(s: State, d: nat, t: Target, uid: string)
    requires Inv(s)
    ensures Inv(DeliverSecret(s, d, t, uid)) && DeliverSecret(s, d, t, uid).ledger == s.ledger
    ensures DeliverSecret(s, d, t, uid).history == s.history
  {
    var p := Stay(s, d);
    var secret := StoredSecret(t, uid);
    var s1 := if t.secretName in s.secrets then s else s.(secrets := s.secrets[t.secretName := secret]);
    SecretsDoNotMatter(s, s1.secrets);
    if p.Holding? && p.point == SecretWire {
      assert PhaseOk(s1.ledger, s1.history, s1.phases[d]);
      GotoKeepsInv(s1, d, p.(point := SecretRead));
    }
  }

  lemma DeliverKeepsInv(s: State, d: nat, uid: string, version: string, answer: Job)
    requires Inv(s)
    ensures Inv(DoDeliver(s, d, uid, version, answer)) && DoDeliver(s, d, uid, version, answer).ledger == s.ledger
    ensures HistoryExtends(s.history, DoDeliver(s, d, uid, version, answer).history)
  {
    if d in s.wire && version !in s.history {
      var s0 := Drop(s, d);
      assert Inv(s0);
      match s.wire[d]
      case CreateJob(t) =>
        DeliverCreateKeepsInv(s0, d, t, uid, version);
      case CreateSecret(t, owner) =>
        DeliverSecretKeepsInv(s0, d, t, owner);
      case PatchJob(_, _, _, _) =>
        DeliverPatchKeepsInv(s0, d, s.wire[d], version, answer);
    }
  }

  /** The heart of the protocol: an accepted patch meets the very Job state its sender validated. */
  lemma DeliverPatchKeepsInv(s: State, d: nat, r: Request, version: string, answer: Job)
    requires Inv(s) && r.PatchJob? && RequestOk(s.ledger, s.history, r) && version !in s.history
    ensures Inv(DeliverPatch(s, d, r, version, answer)) && DeliverPatch(s, d, r, version, answer).ledger == s.ledger
    ensures HistoryExtends(s.history, DeliverPatch(s, d, r, version, answer).history)
  {
    var name := r.target.jobName;
    var p := Stay(s, d);
    var waiting := p.Holding? && p.point == ReleaseWire;
    if name in s.jobs { ReleasePatchIsConditional(r.job, s.jobs[name]); }
    if name in s.jobs && ApplyPatch(s.jobs[name], r.ops).Some? {
      var after := s.jobs[name].(suspend := No, version := version);
      ReleaseKeepsInv(s, r, s.jobs[name], after);
      var s1 := Store(s, after).(releases := s.releases + [Release(r.target, s.jobs[name], after, r.job, r.secret)]);
      if waiting {
        assert PhaseOk(s1.ledger, s1.history, s1.phases[d]);
        GotoKeepsInv(s1, d, Confirming(p.target, p.job, answer));
      }
    } else if waiting {
      GotoKeepsInv(s, d, Failed);
    }
  }

  lemma ReleaseKeepsInv(s: State, r: Request, current: Job, after: Job)
    requires Inv(s) && r.PatchJob? && RequestOk(s.ledger, s.history, r)
    requires r.target.jobName in s.jobs && current == s.jobs[r.target.jobName] && current.version == r.job.version
    requires after == current.(suspend := No, version := after.version) && after.version !in s.history
    ensures var s' := Store(s, after).(releases := s.releases + [Release(r.target, current, after, r.job, r.secret)]);
            Inv(s') && HistoryExtends(s.history, s'.history)
  {
    assert Seen(s.history, current) && Seen(s.history, r.job);
    assert current == r.job;
    StoreKeepsInv(s, after);
    var s1 := Store(s, after);
    assert ReleaseOk(s1.ledger, s1.history, Release(r.target, current, after, r.job, r.secret));
  }

  lemma ResolveStepKeepsInv(s: State, a: Action)
    requires Inv(s) && ResolvesJob(a)
    ensures Inv(ResolveStep(s, a)) && LedgerExtends(s.ledger, ResolveStep(s, a).ledger)
  {
    match a
    case Start(d, t) => GotoKeepsInv(s, d, Prepared(t));
    case Claim(d) => ClaimKeepsInv(s, d);
    case AdmitResolve(d) => AdmitResolveKeepsInv(s, d);
    case SendCreate(d) => SendCreateKeepsInv(s, d);
    case ReadJob(d) => ReadJobKeepsInv(s, d);
    case BindJob(d) => BindKeepsInv(s, d);
    case Crash(d) => GotoKeepsInv(s, d, Failed);
  }

  lemma ReleaseStepKeepsInv(s: State, a: Action)
    requires Inv(s) && ReleasesJob(a)
    ensures Inv(ReleaseStep(s, a)) && ReleaseStep(s, a).ledger == s.ledger
  {
    match a
    case Admit(d) => AdmitKeepsInv(s, d);
    case Send(d) => SendStepKeepsInv(s, d);
    case ReadSecret(d) => ReadSecretKeepsInv(s, d);
    case CheckReleased(d) => CheckReleasedKeepsInv(s, d);
  }

  lemma ClusterStepKeepsInv(s: State, a: Action)
    requires Inv(s) && !ResolvesJob(a) && !ReleasesJob(a)
    ensures Inv(ClusterStep(s, a)) && ClusterStep(s, a).ledger == s.ledger
  {
    if a.Deliver? {
      DeliverKeepsInv(s, a.d, a.uid, a.version, a.answer);
    } else if a.EnvCreate? && a.job.name !in s.jobs && a.job.version !in s.history {
      StoreKeepsInv(s, a.job);
    } else if a.EnvEdit? && a.name in s.jobs && a.version !in s.history {
      StoreKeepsInv(s, s.jobs[a.name].(requestSha := a.requestSha, suspend := a.suspend, projection := a.projection, version := a.version));
    }
  }

  lemma StepKeepsInv(s: State, a: Action)
    requires Inv(s)
    ensures Inv(Step(s, a)) && LedgerExtends(s.ledger, Step(s, a).ledger)
  {
    if ResolvesJob(a) {
      ResolveStepKeepsInv(s, a);
    } else if ReleasesJob(a) {
      ReleaseStepKeepsInv(s, a);
    } else {
      ClusterStepKeepsInv(s, a);
    }
  }

  lemma {:induction false} RunKeepsInv(s: State, actions: seq<Action>)
    requires Inv(s)
    ensures Inv(Run(s, actions)) && LedgerExtends(s.ledger, Run(s, actions).ledger)
    decreases actions
  {
    if actions != [] {
      StepKeepsInv(s, actions[0]);
      RunKeepsInv(Step(s, actions[0]), actions[1..]);
    }
  }

  // ----- Main results -----

  /** A Job with the target's name, request digest and execution projection, suspended or running. */
  ghost predicate IsTargetJob(job: Job, t: Target) {
    && job.name == t.jobName && job.requestSha == t.requestSha && job.projection == t.projection
    && (job.suspend == Yes || job.suspend == No)
  }

  /** An immutable Secret under the target's name, owned by that Job, whose payload decodes to the target's, request and digest included. */
  ghost predicate IsTargetSecret(secret: Secret, t: Target, uid: string) {
    && secret.name == t.secretName && secret.immutable && secret.requestSha == t.requestSha == ShaOf(t.request)
    && secret.owner == Some(Owner("batch/v1", "Job", t.jobName, uid))
    && secret.data.Some? && t.payload.Some? && secret.data.value.Keys == t.payload.value.Keys
    && "campaign.json" in secret.data.value && secret.data.value["campaign.json"].Text?
    && Decode(secret.data.value["campaign.json"].bytes) == Some(t.request)
    && forall name :: name in t.payload.value ==>
         && t.payload.value[name].Text? && secret.data.value[name].Text?
         && Decode(secret.data.value[name].bytes) == Some(t.payload.value[name].bytes)
  }

  lemma AdoptableIff(job: Job, t: Target)
    ensures Adoptable(job, t) <==> IsTargetJob(job, t)
  {}

  lemma ValidSecretIff(secret: Secret, t: Target, uid: string)
    ensures ValidSecret(secret, t, uid) <==> IsTargetSecret(secret, t, uid)
  {}

  /**
   Every effective release, in every interleaving, patches the one Job UID bound in the ledger. The
   patched object is in every field the version its sender validated: the target's own name, request
   digest and projection; its Secret was in place; and only the suspension changes.
   */
  lemma ReleasesHitTheBoundValidatedJob(actions: seq<Action>)
    ensures var s := Run(Init(), actions);
            forall r :: r in s.releases ==>
              && s.ledger.Claimed? && s.ledger.bound == Some(r.before.uid) && r.target == s.ledger.target
              && r.before == r.observed && Seen(s.history, r.before) && IsTargetJob(r.before, s.ledger.target)
              && !Blank(r.before.uid) && !Blank(r.before.version)
              && r.after == r.before.(suspend := No, version := r.after.version)
              && IsTargetSecret(r.secret, s.ledger.target, r.before.uid)
  {
    RunKeepsInv(Init(), actions);
    var s := Run(Init(), actions);
    forall r | r in s.releases
      ensures IsTargetJob(r.before, s.ledger.target) && IsTargetSecret(r.secret, s.ledger.target, r.before.uid)
    {
      assert ReleaseOk(s.ledger, s.history, r);
      AdoptableIff(r.before, s.ledger.target);
      ValidSecretIff(r.secret, s.ledger.target, r.before.uid);
    }
  }

  /** A guard lets an action through exactly while the ledger shows this target and this UID; the release also needs a resourceVersion. */
  lemma AdmissionMeans(s: State, d: nat)
    ensures var p := Stay(s, d);
            p.Claiming? && !p.admitted ==>
              Stay(DoAdmitResolve(s, d), d) == if s.ledger.Claimed? && s.ledger.target == p.target && s.ledger.bound == p.uid
                                               then p.(admitted := true) else Failed
    ensures var p := Stay(s, d);
            p.Holding? && (p.point == SecretGuard || p.point == ReleaseGuard) ==>
              var owned := s.ledger.Claimed? && s.ledger.target == p.target && s.ledger.bound == Some(p.job.uid);
              Stay(DoAdmit(s, d), d) == if !owned || (p.point == ReleaseGuard && Blank(p.job.version)) then Failed
                                        else p.(point := if p.point == SecretGuard then SecretSend else ReleaseSend)
  {}

  /** At most one Job create request is ever issued, and a claim never goes back or changes its UID. */
  lemma OneCreateAndOneClaim(actions: seq<Action>, more: seq<Action>)
    ensures Run(Init(), actions).creates <= 1
    ensures var s := Run(Init(), actions); LedgerExtends(s.ledger, Run(s, more).ledger)
  {
    RunKeepsInv(Init(), actions);
    RunKeepsInv(Run(Init(), actions), more);
  }

  lemma {:induction false} RunAppend(s: State, xs: seq<Action>, a: Action)
    ensures Run(s, xs + [a]) == Step(Run(s, xs), a)
    decreases xs
  {
    if xs == [] {
      assert xs + [a] == [a] && [a][1..] == [];
    } else {
      assert (xs + [a])[0] == xs[0] && (xs + [a])[1..] == xs[1..] + [a];
      RunAppend(Step(s, xs[0]), xs[1..], a);
    }
  }

  /** Some action of the run was dispatcher `d` reading exactly this Job from the cluster. */
  ghost predicate ReadBy(actions: seq<Action>, d: nat, job: Job) {
    exists i :: 0 <= i < |actions| && actions[i] == ReadJob(d) && Stored(Run(Init(), actions[..i]), job)
  }

  ghost predicate Stored(s: State, job: Job) {
    job.name in s.jobs && s.jobs[job.name] == job
  }

  lemma ReadByGrows(actions: seq<Action>, a: Action, d: nat, job: Job)
    requires ReadBy(actions, d, job)
    ensures ReadBy(actions + [a], d, job)
  {
    var i :| 0 <= i < |actions| && actions[i] == ReadJob(d) && Stored(Run(Init(), actions[..i]), job);
    assert (actions + [a])[i] == ReadJob(d) && (actions + [a])[..i] == actions[..i];
  }

  /** No binding is recorded and nobody resolves a Job. */
  ghost predicate ResolvesNothing(s: State, s': State) {
    s'.bindings == s.bindings && forall d :: Stay(s', d).Resolved? ==> Stay(s', d) == Stay(s, d)
  }

  lemma GotoResolvesNothing(s: State, d: nat, p: Phase)
    requires !p.Resolved?
    ensures ResolvesNothing(s, Goto(s, d, p))
  {}

  lemma PatchResolvesNothing(s: State, d: nat, r: Request, version: string, answer: Job)
    requires r.PatchJob?
    ensures ResolvesNothing(s, DeliverPatch(s, d, r, version, answer))
  {}

  lemma DeliverResolvesNothing(s: State, d: nat, uid: string, version: string, answer: Job)
    ensures ResolvesNothing(s, DoDeliver(s, d, uid, version, answer))
  {
    if d in s.wire && version !in s.history {
      match s.wire[d]
      case CreateJob(t) => assert ResolvesNothing(s, DeliverCreate(Drop(s, d), d, t, uid, version));
      case CreateSecret(t, owner) => assert ResolvesNothing(s, DeliverSecret(Drop(s, d), d, t, owner));
      case PatchJob(_, _, _, _) => PatchResolvesNothing(Drop(s, d), d, s.wire[d], version, answer);
    }
  }

  lemma ClusterResolvesNothing(s: State, a: Action)
    requires !ResolvesJob(a) && !ReleasesJob(a)
    ensures ResolvesNothing(s, ClusterStep(s, a))
  {
    if a.Deliver? { DeliverResolvesNothing(s, a.d, a.uid, a.version, a.answer); }
  }

  lemma ReleaseResolvesNothing(s: State, a: Action)
    requires ReleasesJob(a)
    ensures ResolvesNothing(s, ReleaseStep(s, a))
  {
    match a
    case Admit(d) => assert ResolvesNothing(s, DoAdmit(s, d));
    case Send(d) => assert ResolvesNothing(s, DoSend(s, d));
    case ReadSecret(d) => SecretResolvesNothing(s, d);
    case CheckReleased(d) => assert ResolvesNothing(s, DoCheckReleased(s, d));
  }

  lemma SecretResolvesNothing(s: State, d: nat)
    ensures ResolvesNothing(s, DoReadSecret(s, d))
  {
    var p := Stay(s, d);
    GotoResolvesNothing(s, d, Failed);
    if p.Holding? && p.target.secretName in s.secrets {
      GotoResolvesNothing(s, d, Holding(ReleaseGuard, p.target, p.job, Some(s.secrets[p.target.secretName])));
    }
  }

  lemma ClaimResolvesNothing(s: State, a: Action)
    requires ResolvesJob(a) && !a.ReadJob? && !a.BindJob?
    ensures ResolvesNothing(s, ResolveStep(s, a))
  {
    match a
    case Start(d, t) => GotoResolvesNothing(s, d, Prepared(t));
    case Claim(d) => assert ResolvesNothing(s, DoClaim(s, d));
    case AdmitResolve(d) => assert ResolvesNothing(s, DoAdmitResolve(s, d));
    case SendCreate(d) => assert ResolvesNothing(s, DoSendCreate(s, d));
    case Crash(d) => GotoResolvesNothing(s, d, Failed);
  }

  lemma OtherStepsResolveNothing(s: State, a: Action)
    requires !a.ReadJob? && !a.BindJob?
    ensures ResolvesNothing(s, Step(s, a))
  {
    if ResolvesJob(a) {
      ClaimResolvesNothing(s, a);
    } else if ReleasesJob(a) {
      ReleaseResolvesNothing(s, a);
    } else {
      ClusterResolvesNothing(s, a);
    }
  }

  /** A read resolves at most the reader, to the Job now in the cluster. */
  lemma ReadResolvesReader(s: State, r: nat, d: nat)
    requires Inv(s)
    ensures DoReadJob(s, r).bindings == s.bindings
    ensures Stay(DoReadJob(s, r), d).Resolved? && Stay(DoReadJob(s, r), d) != Stay(s, d) ==>
              r == d && Stored(s, Stay(DoReadJob(s, r), d).job)
  {}

  /** Binding resolves nobody, and records only the Job that its own dispatcher had resolved. */
  lemma BindRecordsResolved(s: State, r: nat, d: nat)
    ensures Stay(DoBindJob(s, r), d).Resolved? ==> Stay(DoBindJob(s, r), d) == Stay(s, d)
    ensures DoBindJob(s, r).bindings == s.bindings
            || (Stay(s, r).Resolved? && DoBindJob(s, r).bindings == s.bindings + [Binding(r, Stay(s, r).job)])
  {}

  lemma ResolvedByReading(s: State, a: Action, d: nat)
    requires Inv(s) && Stay(Step(s, a), d).Resolved? && Stay(Step(s, a), d) != Stay(s, d)
    ensures a == ReadJob(d) && Stored(s, Stay(Step(s, a), d).job)
  {
    if a.ReadJob? {
      ReadResolvesReader(s, a.d, d);
    } else if a.BindJob? {
      BindRecordsResolved(s, a.d, d);
    } else {
      OtherStepsResolveNothing(s, a);
    }
  }

  lemma BindsWhatItResolved(s: State, a: Action)
    requires Inv(s)
    ensures Step(s, a).bindings == s.bindings
            || (a.BindJob? && Stay(s, a.d).Resolved? && Step(s, a).bindings == s.bindings + [Binding(a.d, Stay(s, a.d).job)])
  {
    if a.ReadJob? {
      ReadResolvesReader(s, a.d, 0);
    } else if a.BindJob? {
      BindRecordsResolved(s, a.d, 0);
    } else {
      OtherStepsResolveNothing(s, a);
    }
  }

  /** Every resolved Job and every binding goes back to a read by that same dispatcher. */
  ghost predicate ReadsOk(actions: seq<Action>) {
    var s := Run(Init(), actions);
    && (forall d :: Stay(s, d).Resolved? ==> ReadBy(actions, d, Stay(s, d).job))
    && (forall i :: 0 <= i < |s.bindings| ==> ReadBy(actions, s.bindings[i].dispatcher, s.bindings[i].job))
  }

  lemma ResolvedWasRead(actions: seq<Action>, a: Action, s: State, d: nat)
    requires ReadsOk(actions) && s == Run(Init(), actions) && Inv(s) && Stay(Step(s, a), d).Resolved?
    ensures ReadBy(actions + [a], d, Stay(Step(s, a), d).job)
  {
    if Stay(Step(s, a), d) == Stay(s, d) {
      ReadByGrows(actions, a, d, Stay(s, d).job);
    } else {
      ResolvedByReading(s, a, d);
      var all := actions + [a];
      assert all[|actions|] == ReadJob(d) && all[..|actions|] == actions;
    }
  }

  lemma BoundWasRead(actions: seq<Action>, a: Action, s: State, i: nat)
    requires ReadsOk(actions) && s == Run(Init(), actions) && Inv(s) && i < |Step(s, a).bindings|
    ensures ReadBy(actions + [a], Step(s, a).bindings[i].dispatcher, Step(s, a).bindings[i].job)
  {
    BindsWhatItResolved(s, a);
    if i < |s.bindings| {
      ReadByGrows(actions, a, s.bindings[i].dispatcher, s.bindings[i].job);
    } else {
      ReadByGrows(actions, a, a.d, Stay(s, a.d).job);
    }
  }

  lemma ReadsOkStep(actions: seq<Action>, a: Action)
    requires ReadsOk(actions)
    ensures ReadsOk(actions + [a])
  {
    var s := Run(Init(), actions);
    RunKeepsInv(Init(), actions);
    RunAppend(Init(), actions, a);
    var s' := Step(s, a);
    forall d | Stay(s', d).Resolved? ensures ReadBy(actions + [a], d, Stay(s', d).job) {
      ResolvedWasRead(actions, a, s, d);
    }
    forall i | 0 <= i < |s'.bindings| ensures ReadBy(actions + [a], s'.bindings[i].dispatcher, s'.bindings[i].job) {
      BoundWasRead(actions, a, s, i);
    }
  }

  lemma {:induction false} ReadsAreOk(actions: seq<Action>)
    ensures ReadsOk(actions)
  {
    if actions == [] {
      assert Run(Init(), actions) == Init();
    } else {
      var n := |actions| - 1;
      ReadsAreOk(actions[..n]);
      ReadsOkStep(actions[..n], actions[n]);
      assert actions == actions[..n] + [actions[n]];
    }
  }

  /** A UID is bound once, by a dispatcher that itself read that very Job, suspended and with the expected identity. */
  lemma BoundAfterSuspendedReadback(actions: seq<Action>)
    ensures var s := Run(Init(), actions);
            s.ledger.Claimed? && s.ledger.bound.Some? ==>
              && |s.bindings| == 1 && s.bindings[0].job.uid == s.ledger.bound.value
              && IsTargetJob(s.bindings[0].job, s.ledger.target) && s.bindings[0].job.suspend == Yes
              && ReadBy(actions, s.bindings[0].dispatcher, s.bindings[0].job)
  {
    RunKeepsInv(Init(), actions);
    ReadsAreOk(actions);
  }

  ghost predicate GapClosed(s: State) {
    s.ledger.Claimed? && forall d :: d in s.phases ==> !FirstPending(s.phases[d])
  }

  /** Between `s` and `s'` at most dispatcher `d` moved, and not to a phase that may still create. */
  ghost predicate MovesPast(s: State, s': State, d: nat) {
    && s'.creates == s.creates && LedgerExtends(s.ledger, s'.ledger)
    && (d in s'.phases ==> !FirstPending(s'.phases[d]))
    && forall e :: e in s'.phases && e != d ==> e in s.phases && s'.phases[e] == s.phases[e]
  }

  lemma ResolveStepMovesPast(s: State, a: Action)
    requires GapClosed(s) && ResolvesJob(a)
    ensures MovesPast(s, ResolveStep(s, a), a.d)
  {
    assert !FirstPending(Stay(s, a.d));
    match a
    case ReadJob(d) => ReadJobMovesPast(s, d);
    case BindJob(d) => BindMovesPast(s, d);
    case Claim(d) => ClaimMovesPast(s, d);
    case AdmitResolve(d) => assert MovesPast(s, DoAdmitResolve(s, d), d);
    case SendCreate(d) => assert MovesPast(s, DoSendCreate(s, d), d);
    case Start(d, t) => assert MovesPast(s, Goto(s, d, Prepared(t)), d);
    case Crash(d) => assert MovesPast(s, Goto(s, d, Failed), d);
  }

  lemma ClaimMovesPast(s: State, d: nat)
    requires GapClosed(s)
    ensures MovesPast(s, DoClaim(s, d), d)
  {}

  lemma ReadJobMovesPast(s: State, d: nat)
    requires GapClosed(s)
    ensures MovesPast(s, DoReadJob(s, d), d)
  {
    assert !FirstPending(Stay(s, d));
  }

  lemma BindMovesPast(s: State, d: nat)
    requires GapClosed(s)
    ensures MovesPast(s, DoBindJob(s, d), d)
  {
    assert !FirstPending(Stay(s, d));
  }

  lemma ReleaseStepMovesPast(s: State, a: Action)
    requires GapClosed(s) && ReleasesJob(a)
    ensures MovesPast(s, ReleaseStep(s, a), a.d)
  {
    match a
    case Admit(d) => AdmitMovesPast(s, d);
    case Send(d) => SendMovesPast(s, d);
    case ReadSecret(d) => ReadSecretMovesPast(s, d);
    case CheckReleased(d) => CheckMovesPast(s, d);
  }

  lemma AdmitMovesPast(s: State, d: nat)
    requires GapClosed(s)
    ensures MovesPast(s, DoAdmit(s, d), d)
  {
    assert !FirstPending(Stay(s, d));
  }

  lemma SendMovesPast(s: State, d: nat)
    requires GapClosed(s)
    ensures MovesPast(s, DoSend(s, d), d)
  {
    assert !FirstPending(Stay(s, d));
  }

  lemma CheckMovesPast(s: State, d: nat)
    requires GapClosed(s)
    ensures MovesPast(s, DoCheckReleased(s, d), d)
  {
    assert !FirstPending(Stay(s, d));
  }

  lemma ReadSecretMovesPast(s: State, d: nat)
    requires GapClosed(s)
    ensures MovesPast(s, DoReadSecret(s, d), d)
  {
    assert !FirstPending(Stay(s, d));
  }

  lemma DeliverMovesPast(s: State, d: nat, uid: string, version: string, answer: Job)
    requires GapClosed(s)
    ensures MovesPast(s, DoDeliver(s, d, uid, version, answer), d)
  {
    assert !FirstPending(Stay(s, d));
    if d in s.wire && version !in s.history {
      match s.wire[d]
      case CreateJob(t) => assert MovesPast(s, DeliverCreate(Drop(s, d), d, t, uid, version), d);
      case CreateSecret(t, owner) => assert MovesPast(s, DeliverSecret(Drop(s, d), d, t, owner), d);
      case PatchJob(_, _, _, _) => DeliverPatchMovesPast(Drop(s, d), d, s.wire[d], version, answer);
    }
  }

  lemma DeliverPatchMovesPast(s: State, d: nat, r: Request, version: string, answer: Job)
    requires GapClosed(s) && r.PatchJob?
    ensures MovesPast(s, DeliverPatch(s, d, r, version, answer), d)
  {
    assert !FirstPending(Stay(s, d));
  }

  lemma StepKeepsGapClosed(s: State, a: Action)
    requires GapClosed(s)
    ensures GapClosed(Step(s, a)) && Step(s, a).creates == s.creates
  {
    if ResolvesJob(a) {
      ResolveStepMovesPast(s, a);
    } else if ReleasesJob(a) {
      ReleaseStepMovesPast(s, a);
    } else if a.Deliver? {
      DeliverMovesPast(s, a.d, a.uid, a.version, a.answer);
    }
  }

  /**
   Once the claimant has left the claim/create gap, by sending its request or by crashing
   before it, no later action of anyone issues a create: a missing Job is never recreated.
   */
  lemma {:induction false} NeverRecreated(s: State, actions: seq<Action>)
    requires GapClosed(s)
    ensures Run(s, actions).creates == s.creates
    decreases actions
  {
    if actions != [] {
      StepKeepsGapClosed(s, actions[0]);
      NeverRecreated(Step(s, actions[0]), actions[1..]);
    }
  }
}
