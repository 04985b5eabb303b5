/** The dispatch protocol makes progress: attempts that nobody disturbs release the claimed Job. */
module DispatchProgress {
  import opened Prelude
  import opened Base64
  import opened SecretPayload
  import opened Dispatch

  ghost predicate Leads(from: State, s: State) {
    exists actions :: Run(from, actions) == s
  }

  lemma LeadsStep(from: State, s: State, a: Action)
    requires Leads(from, s)
    ensures Leads(from, Step(s, a))
  {
    var actions :| Run(from, actions) == s;
    RunAppend(from, actions, a);
  }

  lemma GotoAgain(s: State, d: nat, p: Phase, q: Phase)
    ensures Goto(Goto(s, d, p), d, q) == Goto(s, d, q)
  {
    assert s.phases[d := p][d := q] == s.phases[d := q];
  }

  /** Manifests whose Secret can be read back: text values, none empty, the request among them under its own digest. */
  predicate ReadableManifest(t: Target) {
    && t.requestSha == ShaOf(t.request)
    && t.payload.Some? && "campaign.json" in t.payload.value && t.payload.value["campaign.json"] == Text(t.request)
    && forall name :: name in t.payload.value ==> t.payload.value[name].Text? && t.payload.value[name].bytes != []
  }

  lemma StoredSecretIsValid(t: Target, uid: string)
    requires ReadableManifest(t)
    ensures ValidSecret(StoredSecret(t, uid), t, uid)
  {
    forall name | name in t.payload.value
      ensures EntryMatches(EncodedPayload(t).value[name], t.payload.value[name])
    {
      RoundTrip(t.payload.value[name].bytes);
    }
    assert EncodedPayload(t).value.Keys == t.payload.value.Keys;
  }

  // ----- From a resolved Job to its release; nobody else moves -----

  /** The state in which the retry has made sure that the Job is bound. */
  function BoundState(s: State, d: nat, job: Job): State
    requires s.ledger.Claimed?
  {
    if s.ledger.bound.Some? then s
    else s.(ledger := s.ledger.(bound := Some(job.uid)), bindings := s.bindings + [Binding(d, job)])
  }

  lemma Binds(from: State, s: State, d: nat, t: Target, job: Job)
    requires s.ledger.Claimed? && s.ledger.target == t && !Blank(job.uid)
    requires s.ledger.bound.Some? ==> s.ledger.bound.value == job.uid
    requires Leads(from, Goto(s, d, Resolved(t, s.ledger.bound, job)))
    ensures Leads(from, Goto(BoundState(s, d, job), d, Holding(SecretGuard, t, job, None)))
  {
    var p := Resolved(t, s.ledger.bound, job);
    LeadsStep(from, Goto(s, d, p), BindJob(d));
    GotoAgain(s, d, p, Holding(SecretGuard, t, job, None));
    assert DoBindJob(Goto(s, d, p), d) == Goto(BoundState(s, d, job), d, Holding(SecretGuard, t, job, None));
  }

  /** A bound dispatcher gets past either guard. */
  lemma IsAdmitted(from: State, b: State, d: nat, p: Phase, q: Phase)
    requires p.Holding? && Guard(b.ledger, p.target, Some(p.job.uid)) && !Blank(p.job.version)
    requires (p.point == SecretGuard && q == p.(point := SecretSend)) || (p.point == ReleaseGuard && q == p.(point := ReleaseSend))
    requires Leads(from, Goto(b, d, p))
    ensures Leads(from, Goto(b, d, q))
  {
    LeadsStep(from, Goto(b, d, p), Admit(d));
    GotoAgain(b, d, p, q);
    assert DoAdmit(Goto(b, d, p), d) == Goto(b, d, q);
  }

  /** The Secret that is there after the retry's create: the one already stored, or its own. */
  function PlacedSecrets(b: State, t: Target, uid: string): map<string, Secret> {
    if t.secretName in b.secrets then b.secrets else b.secrets[t.secretName := StoredSecret(t, uid)]
  }

  /** A request just sent, alone in its dispatcher's slot of the wire. */
  function Sent(b: State, d: nat, p: Phase, r: Request): State {
    Goto(b, d, p).(wire := b.wire[d := r])
  }

  lemma DropSent(b: State, d: nat, p: Phase, r: Request)
    requires d !in b.wire
    ensures Drop(Sent(b, d, p, r), d) == Goto(b, d, p)
  {
    assert b.wire[d := r] - {d} == b.wire;
  }

  lemma SendsSecret(from: State, b: State, d: nat, t: Target, job: Job)
    requires Leads(from, Goto(b, d, Holding(SecretSend, t, job, None)))
    ensures Leads(from, Sent(b, d, Holding(SecretWire, t, job, None), CreateSecret(t, job.uid)))
  {
    var p, q := Holding(SecretSend, t, job, None), Holding(SecretWire, t, job, None);
    LeadsStep(from, Goto(b, d, p), Send(d));
    GotoAgain(b, d, p, q);
    assert DoSend(Goto(b, d, p), d) == Sent(b, d, q, CreateSecret(t, job.uid));
  }

  lemma SecretArrives(from: State, b: State, d: nat, t: Target, job: Job, version: string)
    requires d !in b.wire && version !in b.history
    requires Leads(from, Sent(b, d, Holding(SecretWire, t, job, None), CreateSecret(t, job.uid)))
    ensures Leads(from, Goto(b.(secrets := PlacedSecrets(b, t, job.uid)), d, Holding(SecretRead, t, job, None)))
  {
    var p, q := Holding(SecretWire, t, job, None), Holding(SecretRead, t, job, None);
    var s1 := Sent(b, d, p, CreateSecret(t, job.uid));
    LeadsStep(from, s1, Deliver(d, job.uid, version, job));
    DropSent(b, d, p, CreateSecret(t, job.uid));
    var placed := b.(secrets := PlacedSecrets(b, t, job.uid));
    GotoAgain(placed, d, p, q);
    assert DeliverSecret(Goto(b, d, p), d, t, job.uid) == Goto(placed, d, q);
  }

  lemma ReadsSecret(from: State, b: State, d: nat, t: Target, job: Job, secret: Secret)
    requires t.secretName in b.secrets && b.secrets[t.secretName] == secret && ValidSecret(secret, t, job.uid)
    requires Leads(from, Goto(b, d, Holding(SecretRead, t, job, None)))
    ensures Leads(from, Goto(b, d, Holding(ReleaseGuard, t, job, Some(secret))))
  {
    var p, q := Holding(SecretRead, t, job, None), Holding(ReleaseGuard, t, job, Some(secret));
    LeadsStep(from, Goto(b, d, p), ReadSecret(d));
    GotoAgain(b, d, p, q);
    assert DoReadSecret(Goto(b, d, p), d) == Goto(b, d, q);
  }

  /** The state after the release patch of `job` took effect. */
  function PatchedState(b: State, t: Target, job: Job, secret: Secret, version: string): State {
    var after := job.(suspend := No, version := version);
    Store(b, after).(releases := b.releases + [Release(t, job, after, job, secret)])
  }

  lemma SendsPatch(from: State, b: State, d: nat, t: Target, job: Job, secret: Secret)
    requires Leads(from, Goto(b, d, Holding(ReleaseSend, t, job, Some(secret))))
    ensures Leads(from, Sent(b, d, Holding(ReleaseWire, t, job, Some(secret)), PatchJob(t, job, secret, ReleasePatch(job))))
  {
    var p, q := Holding(ReleaseSend, t, job, Some(secret)), Holding(ReleaseWire, t, job, Some(secret));
    LeadsStep(from, Goto(b, d, p), Send(d));
    GotoAgain(b, d, p, q);
    assert DoSend(Goto(b, d, p), d) == Sent(b, d, q, PatchJob(t, job, secret, ReleasePatch(job)));
  }

  lemma PatchApplies(b: State, d: nat, t: Target, job: Job, secret: Secret, version: string)
    requires t.jobName in b.jobs && b.jobs[t.jobName] == job && Adoptable(job, t)
    ensures DeliverPatch(Goto(b, d, Holding(ReleaseWire, t, job, Some(secret))), d, PatchJob(t, job, secret, ReleasePatch(job)), version,
                         job.(suspend := No, version := version))
            == Goto(PatchedState(b, t, job, secret, version), d, Confirming(t, job, job.(suspend := No, version := version)))
  {
    ReleasePatchIsConditional(job, job);
    GotoAgain(PatchedState(b, t, job, secret, version), d, Holding(ReleaseWire, t, job, Some(secret)),
              Confirming(t, job, job.(suspend := No, version := version)));
  }

  lemma PatchArrives(from: State, b: State, d: nat, t: Target, job: Job, secret: Secret, version: string)
    requires d !in b.wire && version !in b.history && t.jobName in b.jobs && b.jobs[t.jobName] == job && Adoptable(job, t)
    requires Leads(from, Sent(b, d, Holding(ReleaseWire, t, job, Some(secret)), PatchJob(t, job, secret, ReleasePatch(job))))
    ensures Leads(from, Goto(PatchedState(b, t, job, secret, version), d,
                             Confirming(t, job, job.(suspend := No, version := version))))
  {
    var p, r := Holding(ReleaseWire, t, job, Some(secret)), PatchJob(t, job, secret, ReleasePatch(job));
    LeadsStep(from, Sent(b, d, p, r), Deliver(d, job.uid, version, job.(suspend := No, version := version)));
    DropSent(b, d, p, r);
    PatchApplies(b, d, t, job, secret, version);
  }

  lemma Confirms(from: State, b: State, d: nat, t: Target, job: Job, after: Job)
    requires ValidReadback(after, t, No) && after.uid == job.uid && Leads(from, Goto(b, d, Confirming(t, job, after)))
    ensures Leads(from, Goto(b, d, Succeeded(t, job, after)))
  {
    LeadsStep(from, Goto(b, d, Confirming(t, job, after)), CheckReleased(d));
    GotoAgain(b, d, Confirming(t, job, after), Succeeded(t, job, after));
    assert DoCheckReleased(Goto(b, d, Confirming(t, job, after)), d) == Goto(b, d, Succeeded(t, job, after));
  }

  lemma PlacesSecret(from: State, b: State, d: nat, t: Target, job: Job, version: string)
    requires d !in b.wire && version !in b.history && ReadableManifest(t)
    requires Guard(b.ledger, t, Some(job.uid)) && !Blank(job.version)
    requires t.secretName in b.secrets ==> ValidSecret(b.secrets[t.secretName], t, job.uid)
    requires Leads(from, Goto(b, d, Holding(SecretGuard, t, job, None)))
    ensures var secrets := PlacedSecrets(b, t, job.uid);
            t.secretName in secrets
            && Leads(from, Goto(b.(secrets := secrets), d, Holding(ReleaseGuard, t, job, Some(secrets[t.secretName]))))
  {
    IsAdmitted(from, b, d, Holding(SecretGuard, t, job, None), Holding(SecretSend, t, job, None));
    SendsSecret(from, b, d, t, job);
    SecretArrives(from, b, d, t, job, version);
    StoredSecretIsValid(t, job.uid);
    ReadsSecret(from, b.(secrets := PlacedSecrets(b, t, job.uid)), d, t, job, PlacedSecrets(b, t, job.uid)[t.secretName]);
  }

  lemma Releases(from: State, b: State, d: nat, t: Target, job: Job, secret: Secret, version: string)
    requires d !in b.wire && version !in b.history && t.jobName in b.jobs && b.jobs[t.jobName] == job && Adoptable(job, t)
    requires Guard(b.ledger, t, Some(job.uid)) && !Blank(job.version)
    requires Leads(from, Goto(b, d, Holding(ReleaseGuard, t, job, Some(secret))))
    ensures Leads(from, Goto(PatchedState(b, t, job, secret, version), d, Succeeded(t, job, job.(suspend := No, version := version))))
  {
    IsAdmitted(from, b, d, Holding(ReleaseGuard, t, job, Some(secret)), Holding(ReleaseSend, t, job, Some(secret)));
    SendsPatch(from, b, d, t, job, secret);
    PatchArrives(from, b, d, t, job, secret, version);
    Confirms(from, PatchedState(b, t, job, secret, version), d, t, job, job.(suspend := No, version := version));
  }

  /** Where a dispatcher ends that resolved `job` in state `s`. */
  function Finished(s: State, d: nat, t: Target, job: Job, version: string): State
    requires s.ledger.Claimed?
  {
    var b := BoundState(s, d, job);
    var secrets := PlacedSecrets(b, t, job.uid);
    Goto(PatchedState(b.(secrets := secrets), t, job, secrets[t.secretName], version), d, Succeeded(t, job, job.(suspend := No, version := version)))
  }

  /** The claimed Job is in place for a new dispatcher: bound already, or still suspended. */
  predicate Adoptive(s: State, d: nat, t: Target, job: Job) {
    && s.ledger.Claimed? && s.ledger.target == t && d !in s.phases && d !in s.wire
    && t.jobName in s.jobs && s.jobs[t.jobName] == job && Adoptable(job, t) && !Blank(job.uid) && !Blank(job.version)
    && (if s.ledger.bound.Some? then s.ledger.bound.value == job.uid else job.suspend == Yes)
  }

  /** The Secret slot is free or already holds this Job's Secret. */
  ghost predicate SecretReady(s: State, t: Target, uid: string) {
    ReadableManifest(t) && (t.secretName in s.secrets ==> ValidSecret(s.secrets[t.secretName], t, uid))
  }

  lemma Finishes(from: State, s: State, d: nat, t: Target, job: Job, version: string)
    requires Adoptive(s, d, t, job) && SecretReady(s, t, job.uid) && version !in s.history
    requires Leads(from, Goto(s, d, Resolved(t, s.ledger.bound, job)))
    ensures Leads(from, Finished(s, d, t, job, version))
  {
    Binds(from, s, d, t, job);
    var b := BoundState(s, d, job);
    PlacesSecret(from, b, d, t, job, version);
    var secrets := PlacedSecrets(b, t, job.uid);
    Releases(from, b.(secrets := secrets), d, t, job, secrets[t.secretName], version);
  }

  // ----- Retry: the claimed Job is adopted and released -----

  lemma Retries(s: State, d: nat, t: Target, job: Job)
    requires Adoptive(s, d, t, job)
    ensures Leads(s, Goto(s, d, Resolved(t, s.ledger.bound, job)))
  {
    var bound := s.ledger.bound;
    assert Run(s, []) == s;
    LeadsStep(s, s, Start(d, t));
    var s1 := Goto(s, d, Prepared(t));
    LeadsStep(s, s1, Claim(d));
    var s2 := Goto(s, d, Claiming(t, false, bound, false));
    GotoAgain(s, d, Prepared(t), Claiming(t, false, bound, false));
    assert DoClaim(s1, d) == s2;
    LeadsStep(s, s2, AdmitResolve(d));
    var s3 := Goto(s, d, Claiming(t, false, bound, true));
    GotoAgain(s, d, Claiming(t, false, bound, false), Claiming(t, false, bound, true));
    assert DoAdmitResolve(s2, d) == s3;
    RetryReads(s, d, t, job);
  }

  lemma RetryReads(s: State, d: nat, t: Target, job: Job)
    requires Adoptive(s, d, t, job) && Leads(s, Goto(s, d, Claiming(t, false, s.ledger.bound, true)))
    ensures Leads(s, Goto(s, d, Resolved(t, s.ledger.bound, job)))
  {
    var s3 := Goto(s, d, Claiming(t, false, s.ledger.bound, true));
    LeadsStep(s, s3, ReadJob(d));
    GotoAgain(s, d, Claiming(t, false, s.ledger.bound, true), Resolved(t, s.ledger.bound, job));
    assert DoReadJob(s3, d) == Goto(s, d, Resolved(t, s.ledger.bound, job));
  }

  /**
   From any state in which the claimed Job is in place, whatever other dispatchers did or left on the
   wire, a new attempt that is not disturbed adopts and releases that very Job, without another create.
   */
  lemma RetrySucceeds(s: State, d: nat, t: Target, job: Job, version: string)
    requires Adoptive(s, d, t, job) && SecretReady(s, t, job.uid) && version !in s.history
    ensures var s' := Finished(s, d, t, job, version);
            && Leads(s, s') && Stay(s', d) == Succeeded(t, job, job.(suspend := No, version := version)) && s'.creates == s.creates
            && s'.ledger == s.ledger.(bound := Some(job.uid)) && s'.jobs == s.jobs[job.name := job.(suspend := No, version := version)]
            && |s'.releases| == |s.releases| + 1 && s'.releases[|s.releases|].before == job
  {
    Retries(s, d, t, job);
    Finishes(s, s, d, t, job, version);
  }

  // ----- A first attempt -----

  function CreatedJob(t: Target, uid: string, version: string): Job {
    Job(t.jobName, uid, version, t.requestSha, Yes, t.projection)
  }

  /** The claim was just made by dispatcher 0. */
  function JustClaimed(t: Target): State {
    Init().(ledger := Claimed(t, 0, None))
  }

  /** Its Job was just created. */
  function JustCreated(t: Target, job: Job): State {
    JustClaimed(t).(jobs := map[job.name := job], history := map[job.version := job], creates := 1)
  }

  lemma Claims(t: Target)
    ensures Leads(Init(), Goto(JustClaimed(t), 0, Claiming(t, true, None, true)))
  {
    assert Run(Init(), []) == Init();
    LeadsStep(Init(), Init(), Start(0, t));
    var s1 := Goto(Init(), 0, Prepared(t));
    LeadsStep(Init(), s1, Claim(0));
    var s2 := Goto(JustClaimed(t), 0, Claiming(t, true, None, false));
    assert DoClaim(s1, 0) == s2;
    LeadsStep(Init(), s2, AdmitResolve(0));
    assert DoAdmitResolve(s2, 0) == Goto(JustClaimed(t), 0, Claiming(t, true, None, true));
  }

  lemma Creates(t: Target, job: Job)
    requires job == CreatedJob(t, job.uid, job.version) && Leads(Init(), Goto(JustClaimed(t), 0, Claiming(t, true, None, true)))
    ensures Leads(Init(), Goto(JustCreated(t, job), 0, Creating(t, Some(true))))
  {
    var s0 := Goto(JustClaimed(t), 0, Claiming(t, true, None, true));
    LeadsStep(Init(), s0, SendCreate(0));
    var s1 := Sent(JustClaimed(t).(creates := 1), 0, Creating(t, None), CreateJob(t));
    assert DoSendCreate(s0, 0) == s1;
    LeadsStep(Init(), s1, Deliver(0, job.uid, job.version, job));
    DropSent(JustClaimed(t).(creates := 1), 0, Creating(t, None), CreateJob(t));
    assert DoDeliver(s1, 0, job.uid, job.version, job) == Goto(JustCreated(t, job), 0, Creating(t, Some(true)));
  }

  lemma ReadsCreated(t: Target, job: Job)
    requires ValidReadback(job, t, Yes) && Leads(Init(), Goto(JustCreated(t, job), 0, Creating(t, Some(true))))
    ensures Leads(Init(), Goto(JustCreated(t, job), 0, Resolved(t, None, job)))
  {
    var s0 := Goto(JustCreated(t, job), 0, Creating(t, Some(true)));
    LeadsStep(Init(), s0, ReadJob(0));
    GotoAgain(JustCreated(t, job), 0, Creating(t, Some(true)), Resolved(t, None, job));
    assert DoReadJob(s0, 0) == Goto(JustCreated(t, job), 0, Resolved(t, None, job));
  }

  /** A lone first attempt against a faithful server succeeds: one create request, one binding and one release. */
  lemma UndisturbedAttemptSucceeds(t: Target, job: Job, version: string)
    requires ReadableManifest(t) && ValidReadback(job, t, Yes) && !Blank(job.uid) && !Blank(job.version) && version != job.version
    ensures var s := Finished(JustCreated(t, job), 0, t, job, version);
            && Leads(Init(), s) && s.phases == map[0 := Succeeded(t, job, job.(suspend := No, version := version))] && s.creates == 1 && s.bindings == [Binding(0, job)]
            && s.releases == [Release(t, job, job.(suspend := No, version := version), job, StoredSecret(t, job.uid))]
  {
    Claims(t);
    Creates(t, job);
    ReadsCreated(t, job);
    Finishes(Init(), JustCreated(t, job), 0, t, job, version);
  }
}
