/**
 Concurrent publication of strategy bundles to one output path.  Each publisher stages its
 bundle (and, for an ONNX bundle, its model file), links the model and then the bundle with
 no-clobber hard links, and rolls its own model link back when the bundle step fails, unless
 the published bundle uses that very model record.  Publishers interleave at every file
 system call, may crash anywhere, and may meet I/O errors.

 Digests are ideal: a model record names the exact bytes it accepts.
 */
module BundlePublish {
  import opened Prelude

  type Path = string
  type Content = string

  /** An ONNX model record: where its file lives, the bytes its checksum and length admit, and the rest of the record. */
  datatype Model = Model(path: Path, content: Content, details: string)

  datatype Bundle = Bundle(id: string, model: Option<Model>)

  /** `verify_onnx_file`. */
  predicate Verified(files: map<Path, Content>, m: Model) {
    m.path in files && files[m.path] == m.content
  }

  datatype Phase =
    | Idle
    | StagingModel                            // the bundle path was free or held the same bundle
    | Staged(stagedModel: bool)               // `staged_model` is Some
    | LinkingModel                            // `model_target.exists()` said no
    | CheckingModel                           // it exists: read and verify
    | Publishing(linked: bool)                // model step done; `linked` is `published_model.is_some()`
    | LinkingBundle(linked: bool)             // `bundle_out.exists()` said no
    | ComparingBundle(linked: bool)           // it exists: read and compare
    | RollingBack(linked: bool)               // the closure returned an error
    | Removing                                // the published bundle does not use this model
    | Done
    | Refused
    | Crashed

  datatype State = State(bundleOut: Option<Bundle>, files: map<Path, Content>, phases: map<nat, Phase>)

  type Requests = map<nat, Bundle>

  datatype Action = Act(p: nat) | Crash(p: nat) | IoError(p: nat)

  function Goto(s: State, p: nat, phase: Phase): State {
    s.(phases := s.phases[p := phase])
  }

  function At(s: State, p: nat): Phase {
    if p in s.phases then s.phases[p] else Idle
  }

  /** The next file system call of publisher `p`, which publishes `b`. */
  function Next(s: State, p: nat, b: Bundle): State {
    match At(s, p)
    case Idle =>
      if s.bundleOut.Some? && s.bundleOut.value != b then Goto(s, p, Refused)
      else Goto(s, p, if b.model.Some? then StagingModel else Staged(false))
    case StagingModel =>
      if b.model.None? then s
      else if b.model.value.path !in s.files then Goto(s, p, Staged(true))
      else Goto(s, p, if Verified(s.files, b.model.value) then Staged(false) else Refused)
    case Staged(stagedModel) =>
      if !stagedModel || b.model.None? then Goto(s, p, Publishing(false))
      else Goto(s, p, if b.model.value.path in s.files then CheckingModel else LinkingModel)
    case CheckingModel =>
      Goto(s, p, if b.model.Some? && Verified(s.files, b.model.value) then Publishing(false) else RollingBack(false))
    case LinkingModel =>
      if b.model.None? then s
      else if b.model.value.path in s.files then Goto(s, p, CheckingModel)
      else Goto(s, p, Publishing(true)).(files := s.files[b.model.value.path := b.model.value.content])
    case Publishing(linked) =>
      Goto(s, p, if s.bundleOut.Some? then ComparingBundle(linked) else LinkingBundle(linked))
    case LinkingBundle(linked) =>
      if s.bundleOut.Some? then Goto(s, p, ComparingBundle(linked))
      else Goto(s, p, Done).(bundleOut := Some(b))
    case ComparingBundle(linked) =>
      Goto(s, p, if s.bundleOut == Some(b) then Done else RollingBack(linked))
    case RollingBack(linked) =>
      Goto(s, p, if linked && b.model.Some? && !UsesModel(s.bundleOut, b.model.value) then Removing else Refused)
    case Removing =>
      if b.model.None? then s else Goto(s, p, Refused).(files := s.files - {b.model.value.path})
    case _ => s
  }

  /** The rollback test: the published bundle is ONNX with an equal model record. */
  predicate UsesModel(bundleOut: Option<Bundle>, m: Model) {
    bundleOut.Some? && bundleOut.value.model == Some(m)
  }

  /**
   An I/O error inside the publish closure takes the error path with whatever was linked so far; in the
   rollback a bundle that cannot be read counts as not using the model, and a failed removal is ignored.
   */
  function Fail(s: State, p: nat): State {
    match At(s, p)
    case LinkingModel => Goto(s, p, RollingBack(false))
    case CheckingModel => Goto(s, p, RollingBack(false))
    case Publishing(linked) => Goto(s, p, RollingBack(linked))
    case LinkingBundle(linked) => Goto(s, p, RollingBack(linked))
    case ComparingBundle(linked) => Goto(s, p, RollingBack(linked))
    case RollingBack(linked) => Goto(s, p, if linked then Removing else Refused)
    case Removing => Goto(s, p, Refused)
    case _ => s
  }

  function Step(requests: Requests, s: State, a: Action): State {
    if a.p !in requests then s
    else
      match a
      case Act(p) => Next(s, p, requests[p])
      case Crash(p) => if At(s, p) == Done || At(s, p) == Refused then s else Goto(s, p, Crashed)
      case IoError(p) => Fail(s, p)
  }

  function Run(requests: Requests, s: State, actions: seq<Action>): State
    decreases actions
  {
    if actions == [] then s else Run(requests, Step(requests, s, actions[0]), actions[1..])
  }

  /** Nothing published yet; model files of earlier promotions may be there. */
  function Start(files: map<Path, Content>): State {
    State(None, files, map[])
  }

  // ----- The bundle file: immutable, and Ok means "exactly my bundle" -----

  ghost predicate OkMeansMine(requests: Requests, s: State) {
    forall p :: p in s.phases && s.phases[p] == Done ==> p in requests && s.bundleOut == Some(requests[p])
  }

  lemma StepKeepsBundle(requests: Requests, s: State, a: Action)
    requires OkMeansMine(requests, s)
    ensures OkMeansMine(requests, Step(requests, s, a))
    ensures s.bundleOut.Some? ==> Step(requests, s, a).bundleOut == s.bundleOut
  {}

  /** Whatever interleaves, crashes or fails: a published bundle never changes, and Ok returns only to those who asked for it. */
  lemma {:induction false} BundleIsImmutable(requests: Requests, s: State, actions: seq<Action>)
    requires OkMeansMine(requests, s)
    ensures OkMeansMine(requests, Run(requests, s, actions))
    ensures s.bundleOut.Some? ==> Run(requests, s, actions).bundleOut == s.bundleOut
    decreases actions
  {
    if actions != [] {
      StepKeepsBundle(requests, s, actions[0]);
      BundleIsImmutable(requests, Step(requests, s, actions[0]), actions[1..]);
    }
  }

  /** Two publishers of different bundles never both succeed. */
  lemma DifferentBundlesNeverBothSucceed(requests: Requests, files: map<Path, Content>, actions: seq<Action>, p: nat, q: nat)
    requires p in requests && q in requests && requests[p] != requests[q]
    ensures var s := Run(requests, Start(files), actions); At(s, p) != Done || At(s, q) != Done
  {
    BundleIsImmutable(requests, Start(files), actions);
  }

  // ----- The model file: never lost, exactly under a condition on the requests -----

  /** Model records that admit the same bytes at the same path are equal. */
  ghost predicate NoSharedFile(requests: Requests) {
    forall p, q :: p in requests && q in requests && SameFile(requests[p], requests[q]) ==> requests[p].model == requests[q].model
  }

  predicate SameFile(a: Bundle, b: Bundle) {
    a.model.Some? && b.model.Some? && a.model.value.path == b.model.value.path && a.model.value.content == b.model.value.content
  }

  predicate NoIoError(actions: seq<Action>) {
    forall i :: 0 <= i < |actions| ==> !actions[i].IoError?
  }

  /** A published ONNX bundle has its verified model file beside it. */
  predicate ModelPresent(s: State) {
    s.bundleOut.Some? && s.bundleOut.value.model.Some? ==>
      var m := s.bundleOut.value.model.value; m.path in s.files && s.files[m.path] == m.content
  }

  predicate PastModel(phase: Phase) {
    phase.Publishing? || phase.LinkingBundle? || phase.ComparingBundle? || (phase.Staged? && !phase.stagedModel)
  }

  predicate Linked(phase: Phase) {
    match phase
    case Publishing(linked) => linked
    case LinkingBundle(linked) => linked
    case ComparingBundle(linked) => linked
    case RollingBack(linked) => linked
    case Removing => true
    case _ => false
  }

  predicate MayPublish(s: State, b: Bundle) {
    s.bundleOut == None || s.bundleOut == Some(b)
  }

  /** What a publisher of ONNX model `m` in bundle `b` may rely on. */
  ghost predicate PublisherOk(s: State, phase: Phase, b: Bundle, m: Model) {
    && (PastModel(phase) && MayPublish(s, b) ==> Verified(s.files, m))
    && (Linked(phase) && s.bundleOut == None ==> Verified(s.files, m))
    && (Linked(phase) && s.bundleOut.Some? && s.bundleOut.value.model.Some? && s.bundleOut.value.model.value.path == m.path
        ==> s.bundleOut.value.model == Some(m))
    && (phase.ComparingBundle? ==> s.bundleOut.Some?)
    && (phase.RollingBack? && phase.linked ==> s.bundleOut.Some? && s.bundleOut.value != b)
    && (phase.Removing? ==> s.bundleOut.Some? && !UsesModel(s.bundleOut, m))
  }

  ghost predicate Inv(requests: Requests, s: State) {
    && ModelPresent(s) && OkMeansMine(requests, s)
    && (s.bundleOut.Some? ==> exists p :: p in requests && s.bundleOut == Some(requests[p]))
    && forall p :: p in s.phases && p in requests && requests[p].model.Some?
                   ==> PublisherOk(s, s.phases[p], requests[p], requests[p].model.value)
  }

  /** Moving one publisher leaves the others' facts alone. */
  lemma MoveKeepsInv(requests: Requests, s: State, p: nat, phase: Phase)
    requires Inv(requests, s) && p in requests
    requires phase == Done ==> s.bundleOut == Some(requests[p])
    requires requests[p].model.Some? ==> PublisherOk(s, phase, requests[p], requests[p].model.value)
    ensures Inv(requests, Goto(s, p, phase))
  {
    var s' := Goto(s, p, phase);
    assert ModelPresent(s');
    forall q | q in s'.phases && q in requests && requests[q].model.Some?
      ensures PublisherOk(s', s'.phases[q], requests[q], requests[q].model.value)
    {
      if q != p { assert PublisherOk(s, s.phases[q], requests[q], requests[q].model.value); }
    }
  }

  lemma LinkModelKeepsInv(requests: Requests, s: State, p: nat, m: Model)
    requires Inv(requests, s) && NoSharedFile(requests) && p in requests && requests[p].model == Some(m) && m.path !in s.files
    ensures Inv(requests, Goto(s, p, Publishing(true)).(files := s.files[m.path := m.content]))
  {
    var s1 := s.(files := s.files[m.path := m.content]);
    forall q | q in s1.phases && q in requests && requests[q].model.Some?
      ensures PublisherOk(s1, s1.phases[q], requests[q], requests[q].model.value)
    {
      assert PublisherOk(s, s.phases[q], requests[q], requests[q].model.value);
    }
    assert Inv(requests, s1);
    MoveKeepsInv(requests, s1, p, Publishing(true));
  }

  lemma LinkBundleKeepsInv(requests: Requests, s: State, p: nat, linked: bool)
    requires Inv(requests, s) && NoSharedFile(requests) && p in requests && At(s, p) == LinkingBundle(linked) && s.bundleOut == None
    ensures Inv(requests, Goto(s, p, Done).(bundleOut := Some(requests[p])))
  {
    var b := requests[p];
    var s1 := s.(bundleOut := Some(b));
    if b.model.Some? { assert PublisherOk(s, s.phases[p], b, b.model.value); }
    assert ModelPresent(s1);
    forall q | q in s1.phases && q in requests && requests[q].model.Some?
      ensures PublisherOk(s1, s1.phases[q], requests[q], requests[q].model.value)
    {
      assert PublisherOk(s, s.phases[q], requests[q], requests[q].model.value);
      if Linked(s.phases[q]) && b.model.Some? && b.model.value.path == requests[q].model.value.path {
        assert SameFile(b, requests[q]);
      }
    }
    assert Inv(requests, s1);
    MoveKeepsInv(requests, s1, p, Done);
  }

  /** The rollback: a file is removed only while the published bundle lives elsewhere. */
  lemma RemoveKeepsInv(requests: Requests, s: State, p: nat, m: Model)
    requires Inv(requests, s) && p in requests && requests[p].model == Some(m) && At(s, p) == Removing
    ensures Inv(requests, Goto(s, p, Refused).(files := s.files - {m.path}))
  {
    var s1 := s.(files := s.files - {m.path});
    assert PublisherOk(s, s.phases[p], requests[p], m);
    var x := s.bundleOut.value;
    assert x.model.Some? ==> x.model.value.path != m.path;
    assert ModelPresent(s1);
    forall q | q in s1.phases && q in requests && requests[q].model.Some?
      ensures PublisherOk(s1, s1.phases[q], requests[q], requests[q].model.value)
    {
      assert PublisherOk(s, s.phases[q], requests[q], requests[q].model.value);
    }
    assert Inv(requests, s1);
    MoveKeepsInv(requests, s1, p, Refused);
  }

  /** The publisher's next call changes a file. */
  predicate Writes(s: State, p: nat, b: Bundle) {
    || (At(s, p).LinkingModel? && b.model.Some? && b.model.value.path !in s.files)
    || (At(s, p).LinkingBundle? && s.bundleOut.None?)
    || (At(s, p).Removing? && b.model.Some?)
  }

  /** Any other call only moves the publisher, to a phase whose facts hold. */
  lemma ReadOnlyCall(s: State, p: nat, b: Bundle)
    requires !Writes(s, p, b) && Next(s, p, b) != s
    requires b.model.Some? ==> PublisherOk(s, At(s, p), b, b.model.value)
    ensures var phase := At(Next(s, p, b), p);
            && Next(s, p, b) == Goto(s, p, phase) && (phase == Done ==> s.bundleOut == Some(b))
            && (b.model.Some? ==> PublisherOk(s, phase, b, b.model.value))
  {}

  lemma ActKeepsInv(requests: Requests, s: State, p: nat)
    requires Inv(requests, s) && NoSharedFile(requests) && p in requests
    ensures Inv(requests, Next(s, p, requests[p]))
  {
    var b := requests[p];
    if b.model.Some? { assert PublisherOk(s, At(s, p), b, b.model.value); }
    if !Writes(s, p, b) {
      if Next(s, p, b) != s {
        ReadOnlyCall(s, p, b);
        MoveKeepsInv(requests, s, p, At(Next(s, p, b), p));
      }
    } else if At(s, p).LinkingModel? {
      LinkModelKeepsInv(requests, s, p, b.model.value);
    } else if At(s, p).LinkingBundle? {
      LinkBundleKeepsInv(requests, s, p, At(s, p).linked);
    } else {
      RemoveKeepsInv(requests, s, p, b.model.value);
    }
  }

  lemma StepKeepsInv(requests: Requests, s: State, a: Action)
    requires Inv(requests, s) && NoSharedFile(requests) && !a.IoError?
    ensures Inv(requests, Step(requests, s, a))
  {
    if a.p in requests {
      if a.Act? {
        ActKeepsInv(requests, s, a.p);
      } else {
        MoveKeepsInv(requests, s, a.p, Crashed);
      }
    }
  }

  lemma {:induction false} RunKeepsInv(requests: Requests, s: State, actions: seq<Action>)
    requires Inv(requests, s) && NoSharedFile(requests) && NoIoError(actions)
    ensures Inv(requests, Run(requests, s, actions))
    decreases actions
  {
    if actions != [] {
      assert !actions[0].IoError?;
      StepKeepsInv(requests, s, actions[0]);
      RunKeepsInv(requests, Step(requests, s, actions[0]), actions[1..]);
    }
  }

  /** Over every interleaving and crash, a published ONNX bundle keeps its model, and after any Ok both files are there. */
  lemma ModelIsNeverLost(requests: Requests, files: map<Path, Content>, actions: seq<Action>, p: nat)
    requires NoSharedFile(requests) && NoIoError(actions)
    ensures var s := Run(requests, Start(files), actions);
            && ModelPresent(s)
            && (p in requests && At(s, p) == Done ==>
                  s.bundleOut == Some(requests[p])
                  && (requests[p].model.Some? ==>
                        var m := requests[p].model.value; m.path in s.files && s.files[m.path] == m.content))
  {
    RunKeepsInv(requests, Start(files), actions);
  }

  // ----- Necessity: with a shared file or an I/O error a published model can be lost -----

  ghost predicate Reaches(requests: Requests, s: State, errors: bool) {
    exists actions :: (errors || NoIoError(actions)) && Run(requests, Start(map[]), actions) == s
  }

  lemma {:induction false} RunAppend(requests: Requests, s: State, xs: seq<Action>, a: Action)
    ensures Run(requests, s, xs + [a]) == Step(requests, Run(requests, s, xs), a)
    decreases xs
  {
    if xs == [] {
      assert xs + [a] == [a] && [a][1..] == [];
    } else {
      assert (xs + [a])[0] == xs[0] && (xs + [a])[1..] == xs[1..] + [a];
      RunAppend(requests, Step(requests, s, xs[0]), xs[1..], a);
    }
  }

  lemma {:induction false} ReachesStep(requests: Requests, s: State, a: Action, errors: bool)
    requires Reaches(requests, s, errors) && (errors || !a.IoError?)
    ensures Reaches(requests, Step(requests, s, a), errors)
  {
    var actions :| (errors || NoIoError(actions)) && Run(requests, Start(map[]), actions) == s;
    RunAppend(requests, Start(map[]), actions, a);
    assert errors || NoIoError(actions + [a]);
  }

  function Two(p: nat, f: Phase, q: nat, g: Phase): map<nat, Phase> {
    map[p := f, q := g]
  }

  /** Both publishers stage while the model path is free. */
  lemma {:induction false} BothStage(requests: Requests, p: nat, q: nat)
    requires p in requests && q in requests && p != q && requests[p].model.Some? && requests[q].model.Some?
    ensures Reaches(requests, State(None, map[], Two(p, Staged(true), q, Staged(true))), false)
  {
    assert NoIoError([]) && Run(requests, Start(map[]), []) == Start(map[]);
    ReachesStep(requests, Start(map[]), Act(p), false);
    var s1 := State(None, map[], map[p := StagingModel]);
    ReachesStep(requests, s1, Act(q), false);
    var s2 := State(None, map[], Two(p, StagingModel, q, StagingModel));
    ReachesStep(requests, s2, Act(p), false);
    var s3 := State(None, map[], Two(p, Staged(true), q, StagingModel));
    assert Step(requests, s2, Act(p)).phases == s3.phases;
    ReachesStep(requests, s3, Act(q), false);
    assert Step(requests, s3, Act(q)).phases == Two(p, Staged(true), q, Staged(true));
  }

  /** `q` links its model file and pauses before its bundle step. */
  lemma {:induction false} OneLinks(requests: Requests, p: nat, q: nat, m: Model)
    requires p in requests && q in requests && p != q && requests[q].model == Some(m)
    requires Reaches(requests, State(None, map[], Two(p, Staged(true), q, Staged(true))), false)
    ensures Reaches(requests, State(None, map[m.path := m.content], Two(p, Staged(true), q, Publishing(true))), false)
  {
    var s0 := State(None, map[], Two(p, Staged(true), q, Staged(true)));
    ReachesStep(requests, s0, Act(q), false);
    var s1 := State(None, map[], Two(p, Staged(true), q, LinkingModel));
    assert Step(requests, s0, Act(q)).phases == s1.phases;
    ReachesStep(requests, s1, Act(q), false);
    assert Step(requests, s1, Act(q)).phases == Two(p, Staged(true), q, Publishing(true));
  }

  /** `p` finds the file, verifies it, and publishes its own bundle. */
  lemma {:induction false} OtherPublishes(requests: Requests, p: nat, q: nat, m: Model)
    requires p in requests && q in requests && p != q && requests[q].model == Some(m) && SameFile(requests[p], requests[q])
    requires Reaches(requests, State(None, map[m.path := m.content], Two(p, Staged(true), q, Publishing(true))), false)
    ensures Reaches(requests, State(Some(requests[p]), map[m.path := m.content], Two(p, Done, q, Publishing(true))), false)
  {
    var file := map[m.path := m.content];
    var s0 := State(None, file, Two(p, Staged(true), q, Publishing(true)));
    var s1 := State(None, file, Two(p, CheckingModel, q, Publishing(true)));
    var s2 := State(None, file, Two(p, Publishing(false), q, Publishing(true)));
    var s3 := State(None, file, Two(p, LinkingBundle(false), q, Publishing(true)));
    var s4 := State(Some(requests[p]), file, Two(p, Done, q, Publishing(true)));
    ReachesStep(requests, s0, Act(p), false);
    assert Step(requests, s0, Act(p)).phases == s1.phases;
    ReachesStep(requests, s1, Act(p), false);
    assert Step(requests, s1, Act(p)).phases == s2.phases;
    ReachesStep(requests, s2, Act(p), false);
    assert Step(requests, s2, Act(p)).phases == s3.phases;
    ReachesStep(requests, s3, Act(p), false);
    assert Step(requests, s3, Act(p)).phases == s4.phases;
  }

  /** `q` meets a different bundle whose record is not its own, so it removes the file. */
  lemma {:induction false} RollbackRemoves(requests: Requests, p: nat, q: nat, m: Model)
    requires p in requests && q in requests && p != q && requests[q].model == Some(m) && requests[p].model != Some(m)
    requires Reaches(requests, State(Some(requests[p]), map[m.path := m.content], Two(p, Done, q, Publishing(true))), false)
    ensures Reaches(requests, State(Some(requests[p]), map[], Two(p, Done, q, Refused)), false)
  {
    var file, b := map[m.path := m.content], Some(requests[p]);
    var s0 := State(b, file, Two(p, Done, q, Publishing(true)));
    var s1 := State(b, file, Two(p, Done, q, ComparingBundle(true)));
    var s2 := State(b, file, Two(p, Done, q, RollingBack(true)));
    var s3 := State(b, file, Two(p, Done, q, Removing));
    var s4 := State(b, map[], Two(p, Done, q, Refused));
    ReachesStep(requests, s0, Act(q), false);
    assert Step(requests, s0, Act(q)).phases == s1.phases;
    ReachesStep(requests, s1, Act(q), false);
    assert Step(requests, s1, Act(q)).phases == s2.phases;
    ReachesStep(requests, s2, Act(q), false);
    assert Step(requests, s2, Act(q)).phases == s3.phases;
    ReachesStep(requests, s3, Act(q), false);
    assert Step(requests, s3, Act(q)).phases == s4.phases && file - {m.path} == map[];
  }

  /** Two different records for one file: `q`'s rollback deletes the model under `p`'s published bundle, after `p` got Ok. */
  lemma {:induction false} SharedFileLosesModel(requests: Requests, p: nat, q: nat)
    requires p in requests && q in requests && SameFile(requests[p], requests[q]) && requests[p].model != requests[q].model
    ensures exists s :: Reaches(requests, s, false) && At(s, p) == Done && s.bundleOut == Some(requests[p]) && !ModelPresent(s)
  {
    var m := requests[q].model.value;
    BothStage(requests, p, q);
    OneLinks(requests, p, q, m);
    OtherPublishes(requests, p, q, m);
    RollbackRemoves(requests, p, q, m);
    var s := State(Some(requests[p]), map[], Two(p, Done, q, Refused));
    assert Reaches(requests, s, false) && At(s, p) == Done && !ModelPresent(s);
  }

  /** The exact condition: every run without I/O errors keeps the published model iff no two requests share a file under different records. */
  lemma {:induction false} ModelSafetyIffNoSharedFile(requests: Requests)
    ensures NoSharedFile(requests) <==>
            forall files, actions :: NoIoError(actions) ==> ModelPresent(Run(requests, Start(files), actions))
  {
    if NoSharedFile(requests) {
      forall files, actions | NoIoError(actions) ensures ModelPresent(Run(requests, Start(files), actions)) {
        ModelIsNeverLost(requests, files, actions, 0);
      }
    } else {
      var p, q :| p in requests && q in requests && SameFile(requests[p], requests[q]) && requests[p].model != requests[q].model;
      SharedFileLosesModel(requests, p, q);
      var s :| Reaches(requests, s, false) && !ModelPresent(s);
      var actions :| NoIoError(actions) && Run(requests, Start(map[]), actions) == s;
    }
  }

  // ----- With I/O errors: the exact condition -----

  /** No two publishers share a model file. */
  ghost predicate Apart(requests: Requests) {
    forall p, q :: p in requests && q in requests && p != q ==> !SameFile(requests[p], requests[q])
  }

  /** What a publisher may rely on when nobody shares its file, whatever errors occur. */
  ghost predicate LonerOk(s: State, phase: Phase, b: Bundle, m: Model) {
    && (PastModel(phase) && MayPublish(s, b) ==> Verified(s.files, m))
    && (Linked(phase) ==> Verified(s.files, m) && s.bundleOut != Some(b))
  }

  ghost predicate PublishedByDone(requests: Requests, s: State) {
    s.bundleOut.Some? ==> exists p :: p in requests && At(s, p) == Done && s.bundleOut == Some(requests[p])
  }

  ghost predicate LonersOk(requests: Requests, s: State) {
    forall p :: p in s.phases && p in requests && requests[p].model.Some?
                ==> LonerOk(s, s.phases[p], requests[p], requests[p].model.value)
  }

  ghost predicate ErrorInv(requests: Requests, s: State) {
    ModelPresent(s) && PublishedByDone(requests, s) && LonersOk(requests, s)
  }

  /** Moving one unfinished publisher leaves everything else alone. */
  lemma ErrorMove(requests: Requests, s: State, p: nat, phase: Phase)
    requires ErrorInv(requests, s) && p in requests && At(s, p) != Done
    requires requests[p].model.Some? ==> LonerOk(s, phase, requests[p], requests[p].model.value)
    ensures ErrorInv(requests, Goto(s, p, phase))
  {
    var s' := Goto(s, p, phase);
    if s.bundleOut.Some? {
      var q :| q in requests && At(s, q) == Done && s.bundleOut == Some(requests[q]);
      assert At(s', q) == Done;
    }
    forall q | q in s'.phases && q in requests && requests[q].model.Some?
      ensures LonerOk(s', s'.phases[q], requests[q], requests[q].model.value)
    {
      if q != p { assert LonerOk(s, s.phases[q], requests[q], requests[q].model.value); }
    }
  }

  lemma ErrorLinkModel(requests: Requests, s: State, p: nat, m: Model)
    requires Apart(requests) && ErrorInv(requests, s) && p in requests && requests[p].model == Some(m) && m.path !in s.files
    requires At(s, p) == LinkingModel
    ensures ErrorInv(requests, Goto(s, p, Publishing(true)).(files := s.files[m.path := m.content]))
  {
    var s1 := s.(files := s.files[m.path := m.content]);
    forall q | q in s1.phases && q in requests && requests[q].model.Some?
      ensures LonerOk(s1, s1.phases[q], requests[q], requests[q].model.value)
    {
      assert LonerOk(s, s.phases[q], requests[q], requests[q].model.value);
    }
    assert PublishedByDone(requests, s1) by {
      if s.bundleOut.Some? {
        var q :| q in requests && At(s, q) == Done && s.bundleOut == Some(requests[q]);
        assert At(s1, q) == Done;
      }
    }
    ErrorMove(requests, s1, p, Publishing(true));
  }

  lemma ErrorLinkBundle(requests: Requests, s: State, p: nat, linked: bool)
    requires Apart(requests) && ErrorInv(requests, s) && p in requests && At(s, p) == LinkingBundle(linked) && s.bundleOut == None
    ensures ErrorInv(requests, Goto(s, p, Done).(bundleOut := Some(requests[p])))
  {
    var b := requests[p];
    var s' := Goto(s, p, Done).(bundleOut := Some(b));
    if b.model.Some? { assert LonerOk(s, s.phases[p], b, b.model.value); }
    assert At(s', p) == Done;
    forall q | q in s'.phases && q in requests && requests[q].model.Some?
      ensures LonerOk(s', s'.phases[q], requests[q], requests[q].model.value)
    {
      if q != p {
        assert LonerOk(s, s.phases[q], requests[q], requests[q].model.value);
        assert !SameFile(requests[q], b);
      }
    }
  }

  /** The rollback removes a verified file of its own, so it is nobody else's. */
  lemma ErrorRemove(requests: Requests, s: State, p: nat, m: Model)
    requires Apart(requests) && ErrorInv(requests, s) && p in requests && requests[p].model == Some(m) && At(s, p) == Removing
    ensures ErrorInv(requests, Goto(s, p, Refused).(files := s.files - {m.path}))
  {
    assert LonerOk(s, s.phases[p], requests[p], m);
    var s1 := Goto(s, p, Refused);
    ErrorMove(requests, s, p, Refused);
    var s' := s1.(files := s.files - {m.path});
    if s.bundleOut.Some? {
      var q :| q in requests && At(s1, q) == Done && s.bundleOut == Some(requests[q]);
      assert At(s', q) == Done;
      assert !SameFile(requests[q], requests[p]);
    }
    forall q | q in s'.phases && q in requests && requests[q].model.Some?
      ensures LonerOk(s', s'.phases[q], requests[q], requests[q].model.value)
    {
      assert LonerOk(s1, s1.phases[q], requests[q], requests[q].model.value);
      if q != p { assert !SameFile(requests[q], requests[p]); }
    }
  }

  /** A call that writes nothing, or an error, moves the publisher to a phase whose facts hold. */
  lemma ErrorReadOnlyCall(s: State, p: nat, b: Bundle)
    requires !Writes(s, p, b) && Next(s, p, b) != s
    requires b.model.Some? ==> LonerOk(s, At(s, p), b, b.model.value)
    ensures var phase := At(Next(s, p, b), p);
            At(s, p) != Done && Next(s, p, b) == Goto(s, p, phase) && (b.model.Some? ==> LonerOk(s, phase, b, b.model.value))
  {}

  lemma ErrorAct(requests: Requests, s: State, p: nat)
    requires Apart(requests) && ErrorInv(requests, s) && p in requests
    ensures ErrorInv(requests, Next(s, p, requests[p]))
  {
    var b := requests[p];
    if b.model.Some? { assert LonerOk(s, At(s, p), b, b.model.value); }
    if !Writes(s, p, b) {
      if Next(s, p, b) != s {
        ErrorReadOnlyCall(s, p, b);
        ErrorMove(requests, s, p, At(Next(s, p, b), p));
      }
    } else if At(s, p).LinkingModel? {
      ErrorLinkModel(requests, s, p, b.model.value);
    } else if At(s, p).LinkingBundle? {
      ErrorLinkBundle(requests, s, p, At(s, p).linked);
    } else {
      ErrorRemove(requests, s, p, b.model.value);
    }
  }

  lemma ErrorStep(requests: Requests, s: State, a: Action)
    requires Apart(requests) && ErrorInv(requests, s)
    ensures ErrorInv(requests, Step(requests, s, a))
  {
    if a.p in requests {
      if requests[a.p].model.Some? { assert LonerOk(s, At(s, a.p), requests[a.p], requests[a.p].model.value); }
      match a
      case Act(p) => ErrorAct(requests, s, p);
      case Crash(p) => if At(s, p) != Done { ErrorMove(requests, s, p, Crashed); }
      case IoError(p) => if Fail(s, p) != s { ErrorMove(requests, s, p, At(Fail(s, p), p)); }
    }
  }

  lemma {:induction false} ErrorRun(requests: Requests, s: State, actions: seq<Action>)
    requires Apart(requests) && ErrorInv(requests, s)
    ensures ErrorInv(requests, Run(requests, s, actions))
    decreases actions
  {
    if actions != [] {
      ErrorStep(requests, s, actions[0]);
      ErrorRun(requests, Step(requests, s, actions[0]), actions[1..]);
    }
  }

  /** `q` links the shared file first; `p` stages afterwards, finds it, and brings no model of its own. */
  lemma {:induction false} StagesLate(requests: Requests, p: nat, q: nat, m: Model)
    requires p in requests && q in requests && p != q && requests[q].model == Some(m) && SameFile(requests[p], requests[q])
    ensures Reaches(requests, State(None, map[m.path := m.content], Two(q, Publishing(true), p, Staged(false))), true)
  {
    var file := map[m.path := m.content];
    var s1 := State(None, map[], map[q := StagingModel]);
    var s2 := State(None, map[], map[q := Staged(true)]);
    var s3 := State(None, map[], map[q := LinkingModel]);
    var s4 := State(None, file, map[q := Publishing(true)]);
    assert Run(requests, Start(map[]), []) == Start(map[]);
    ReachesStep(requests, Start(map[]), Act(q), true);
    ReachesStep(requests, s1, Act(q), true);
    assert Step(requests, s1, Act(q)).phases == s2.phases;
    ReachesStep(requests, s2, Act(q), true);
    assert Step(requests, s2, Act(q)).phases == s3.phases;
    ReachesStep(requests, s3, Act(q), true);
    assert Step(requests, s3, Act(q)).phases == s4.phases;
    StagesAfter(requests, p, q, m);
  }

  lemma {:induction false} StagesAfter(requests: Requests, p: nat, q: nat, m: Model)
    requires p in requests && q in requests && p != q && requests[q].model == Some(m) && SameFile(requests[p], requests[q])
    requires Reaches(requests, State(None, map[m.path := m.content], map[q := Publishing(true)]), true)
    ensures Reaches(requests, State(None, map[m.path := m.content], Two(q, Publishing(true), p, Staged(false))), true)
  {
    var file := map[m.path := m.content];
    var s4 := State(None, file, map[q := Publishing(true)]);
    var s5 := State(None, file, Two(q, Publishing(true), p, StagingModel));
    ReachesStep(requests, s4, Act(p), true);
    assert Step(requests, s4, Act(p)).phases == s5.phases;
    ReachesStep(requests, s5, Act(p), true);
    assert Step(requests, s5, Act(p)).phases == Two(q, Publishing(true), p, Staged(false));
  }

  /** `q` then fails before any bundle exists, and its rollback removes the file `p` relies on. */
  lemma {:induction false} RollbackAfterError(requests: Requests, p: nat, q: nat, m: Model, file: map<Path, Content>)
    requires q in requests && p != q && requests[q].model == Some(m) && file == map[m.path := m.content]
    requires Reaches(requests, State(None, file, Two(q, Publishing(true), p, Staged(false))), true)
    ensures Reaches(requests, State(None, map[], Two(q, Refused, p, Staged(false))), true)
  {
    FailsBeforeBundle(requests, p, q, m, file);
    var s2 := State(None, file, Two(q, Removing, p, Staged(false)));
    ReachesStep(requests, s2, Act(q), true);
    assert Step(requests, s2, Act(q)).phases == Two(q, Refused, p, Staged(false)) && file - {m.path} == map[];
  }

  lemma {:induction false} FailsBeforeBundle(requests: Requests, p: nat, q: nat, m: Model, file: map<Path, Content>)
    requires q in requests && p != q && requests[q].model == Some(m)
    requires Reaches(requests, State(None, file, Two(q, Publishing(true), p, Staged(false))), true)
    ensures Reaches(requests, State(None, file, Two(q, Removing, p, Staged(false))), true)
  {
    var s0 := State(None, file, Two(q, Publishing(true), p, Staged(false)));
    var s1 := State(None, file, Two(q, RollingBack(true), p, Staged(false)));
    ReachesStep(requests, s0, IoError(q), true);
    assert Step(requests, s0, IoError(q)).phases == s1.phases;
    ReachesStep(requests, s1, Act(q), true);
    assert Step(requests, s1, Act(q)).phases == Two(q, Removing, p, Staged(false));
  }

  /** `p` goes on without looking at the model again, and publishes. */
  lemma {:induction false} PublishesBlind(requests: Requests, p: nat, q: nat)
    requires p in requests && p != q
    requires Reaches(requests, State(None, map[], Two(q, Refused, p, Staged(false))), true)
    ensures Reaches(requests, State(Some(requests[p]), map[], Two(q, Refused, p, Done)), true)
  {
    var s0 := State(None, map[], Two(q, Refused, p, Staged(false)));
    var s1 := State(None, map[], Two(q, Refused, p, Publishing(false)));
    var s2 := State(None, map[], Two(q, Refused, p, LinkingBundle(false)));
    ReachesStep(requests, s0, Act(p), true);
    assert Step(requests, s0, Act(p)).phases == s1.phases;
    ReachesStep(requests, s1, Act(p), true);
    assert Step(requests, s1, Act(p)).phases == s2.phases;
    ReachesStep(requests, s2, Act(p), true);
    assert Step(requests, s2, Act(p)).phases == Two(q, Refused, p, Done);
  }

  /** Any two publishers that share a file, even with equal requests: one I/O error loses the model after an Ok. */
  lemma {:induction false} IoErrorLosesModel(requests: Requests, p: nat, q: nat)
    requires p in requests && q in requests && p != q && SameFile(requests[p], requests[q])
    ensures exists s :: Reaches(requests, s, true) && At(s, p) == Done && s.bundleOut == Some(requests[p]) && !ModelPresent(s)
  {
    var m := requests[q].model.value;
    StagesLate(requests, p, q, m);
    RollbackAfterError(requests, p, q, m, map[m.path := m.content]);
    PublishesBlind(requests, p, q);
    var s := State(Some(requests[p]), map[], Two(q, Refused, p, Done));
    assert Reaches(requests, s, true) && At(s, p) == Done && !ModelPresent(s);
  }

  /** The exact condition with I/O errors: every run keeps the published model iff no two publishers share a file. */
  lemma {:induction false} ModelSafetyIffApart(requests: Requests)
    ensures Apart(requests) <==> forall files, actions :: ModelPresent(Run(requests, Start(files), actions))
  {
    if Apart(requests) {
      forall files, actions ensures ModelPresent(Run(requests, Start(files), actions)) {
        ErrorRun(requests, Start(files), actions);
      }
    } else {
      var p, q :| p in requests && q in requests && p != q && SameFile(requests[p], requests[q]);
      IoErrorLosesModel(requests, p, q);
      var s :| Reaches(requests, s, true) && !ModelPresent(s);
      var actions :| Run(requests, Start(map[]), actions) == s;
      assert !ModelPresent(Run(requests, Start(map[]), actions));
    }
  }

  // ----- Nobody is refused without cause -----

  /** Every publisher asks for this bundle. */
  ghost predicate AllAskFor(requests: Requests, b: Bundle) {
    forall p :: p in requests ==> requests[p] == b
  }

  /** The directory holds nothing that conflicts with the bundle. */
  predicate Agreeable(s: State, b: Bundle) {
    && (s.bundleOut == None || s.bundleOut == Some(b))
    && (b.model.Some? && b.model.value.path in s.files ==> s.files[b.model.value.path] == b.model.value.content)
  }

  /** On its way to Ok, or crashed; what a check is about to look at is there. */
  predicate OnItsWay(s: State, b: Bundle, phase: Phase) {
    && !phase.RollingBack? && !phase.Removing? && !phase.Refused?
    && (phase.CheckingModel? ==> b.model.Some? && b.model.value.path in s.files)
    && (phase.ComparingBundle? ==> s.bundleOut.Some?)
  }

  ghost predicate AllOnTheirWay(requests: Requests, s: State, b: Bundle) {
    Agreeable(s, b) && forall p :: p in s.phases ==> OnItsWay(s, b, s.phases[p])
  }

  /** The publisher's own next call, and what it leaves of the directory for the others. */
  lemma AgreeingCall(s: State, p: nat, b: Bundle)
    requires Agreeable(s, b) && OnItsWay(s, b, At(s, p))
    ensures var s' := Next(s, p, b);
            && Agreeable(s', b) && OnItsWay(s', b, At(s', p))
            && (s.bundleOut.Some? ==> s'.bundleOut == s.bundleOut) && s.files.Keys <= s'.files.Keys
            && (forall q :: q != p ==> At(s', q) == At(s, q))
  {}

  lemma AgreeingStep(requests: Requests, s: State, a: Action, b: Bundle)
    requires AllAskFor(requests, b) && AllOnTheirWay(requests, s, b) && !a.IoError?
    ensures AllOnTheirWay(requests, Step(requests, s, a), b)
  {
    if a.p in requests && a.Act? {
      var s' := Next(s, a.p, b);
      AgreeingCall(s, a.p, b);
      forall p | p in s'.phases ensures OnItsWay(s', b, s'.phases[p]) {
        assert p != a.p ==> At(s', p) == At(s, p);
      }
    }
  }

  /** Publishers of one bundle into a directory that agrees with it, racing and crashing as they may: without I/O errors none is refused. */
  lemma {:induction false} AgreeingPublishersAreNotRefused(requests: Requests, s: State, actions: seq<Action>, b: Bundle)
    requires AllAskFor(requests, b) && AllOnTheirWay(requests, s, b) && NoIoError(actions)
    ensures AllOnTheirWay(requests, Run(requests, s, actions), b)
    ensures forall p :: At(Run(requests, s, actions), p) != Refused
    decreases actions
  {
    if actions != [] {
      assert !actions[0].IoError?;
      AgreeingStep(requests, s, actions[0], b);
      AgreeingPublishersAreNotRefused(requests, Step(requests, s, actions[0]), actions[1..], b);
    }
  }

  // ----- The call itself, on a directory nobody else touches while it runs -----

  /** What `publish` leaves behind, and whether it returns Ok. */
  datatype Outcome = Outcome(bundleOut: Option<Bundle>, files: map<Path, Content>, ok: bool)

  predicate Brings(b: Bundle, stagedModel: bool) {
    stagedModel && b.model.Some?
  }

  /** Complete the pair, or refuse and undo this call's own link unless the published bundle needs it. */
  function Published(bundleOut: Option<Bundle>, files: map<Path, Content>, b: Bundle, stagedModel: bool): Outcome {
    if Brings(b, stagedModel) && b.model.value.path in files && !Verified(files, b.model.value) then Outcome(bundleOut, files, false)
    else
      var linked := Brings(b, stagedModel) && b.model.value.path !in files;
      var grown := if linked then files[b.model.value.path := b.model.value.content] else files;
      if bundleOut.None? || bundleOut.value == b then Outcome(Some(b), grown, true)
      else Outcome(bundleOut, if linked && UsesModel(bundleOut, b.model.value) then grown else files, false)
  }

  class Directory {
    var bundleOut: Option<Bundle>
    var files: map<Path, Content>

    constructor (bundleOut: Option<Bundle>, files: map<Path, Content>)
      ensures this.bundleOut == bundleOut && this.files == files
    {
      this.bundleOut, this.files := bundleOut, files;
    }

    /** `stage_bundle`: refuse a conflicting directory, else say whether a model must be brought along. */
    method Stage(b: Bundle) returns (stagedModel: Option<bool>)
      ensures stagedModel.None?
              <==> (bundleOut.Some? && bundleOut.value != b)
                   || (b.model.Some? && b.model.value.path in files && files[b.model.value.path] != b.model.value.content)
      ensures stagedModel.Some? ==> (stagedModel.value <==> b.model.Some? && b.model.value.path !in files)
    {
      if bundleOut.Some? && bundleOut.value != b { return None; }
      if b.model.None? { return Some(false); }
      if b.model.value.path !in files { return Some(true); }
      return if Verified(files, b.model.value) then Some(false) else None;
    }

    /** `StagedBundle::publish`: link the model, link the bundle, roll the model back on a conflict. */
    method Publish(b: Bundle, stagedModel: bool) returns (ok: bool)
      modifies this
      ensures Outcome(bundleOut, files, ok) == Published(old(bundleOut), old(files), b, stagedModel)
    {
      var publishedModel: Option<Model> := None;
      if stagedModel && b.model.Some? {
        var model := b.model.value;
        if model.path in files {
          if !Verified(files, model) { return false; }
        } else {
          files := files[model.path := model.content];
          publishedModel := Some(model);
        }
      }
      if bundleOut.None? {
        bundleOut := Some(b);
        return true;
      }
      if bundleOut.value == b { return true; }
      if publishedModel.Some? && !UsesModel(bundleOut, publishedModel.value) {
        files := files - {publishedModel.value.path};
        assert files == old(files);
      }
      return false;
    }

    /** `materialize_bundle`: all or nothing. */
    method Materialize(b: Bundle) returns (ok: bool)
      modifies this
      ensures ok <==> (old(bundleOut).None? || old(bundleOut).value == b)
                      && (b.model.Some? && b.model.value.path in old(files) ==>
                            old(files)[b.model.value.path] == b.model.value.content)
      ensures ok ==> bundleOut == Some(b)
                     && files == if b.model.Some? then old(files)[b.model.value.path := b.model.value.content] else old(files)
      ensures !ok ==> bundleOut == old(bundleOut) && files == old(files)
    {
      var staged := Stage(b);
      if staged.None? { return false; }
      ok := Publish(b, staged.value);
      assert b.model.Some? && Verified(old(files), b.model.value) ==> old(files)[b.model.value.path := b.model.value.content] == old(files);
    }
  }

  function Alone(s: State, p: nat, b: Bundle, k: nat): State
    decreases k
  {
    if k == 0 then s else Alone(Next(s, p, b), p, b, k - 1)
  }

  /** Where a lone publisher can stand, and what it has done to the directory by then. */
  ghost predicate AloneOk(s: State, t: State, p: nat, b: Bundle, stagedModel: bool) {
    var brings := Brings(b, stagedModel);
    var free := brings && b.model.value.path !in s.files;
    var grown := if free then s.files[b.model.value.path := b.model.value.content] else s.files;
    var out := Published(s.bundleOut, s.files, b, stagedModel);
    match At(t, p)
    case Staged(m) => m == stagedModel && t.bundleOut == s.bundleOut && t.files == s.files
    case LinkingModel => free && t.bundleOut == s.bundleOut && t.files == s.files
    case CheckingModel => brings && !free && t.bundleOut == s.bundleOut && t.files == s.files
    case Publishing(linked) =>
      linked == free && (brings && !free ==> Verified(s.files, b.model.value)) && t.bundleOut == s.bundleOut && t.files == grown
    case LinkingBundle(linked) =>
      linked == free && (brings && !free ==> Verified(s.files, b.model.value)) && t.bundleOut == s.bundleOut == None && t.files == grown
    case ComparingBundle(linked) =>
      linked == free && (brings && !free ==> Verified(s.files, b.model.value)) && t.bundleOut == s.bundleOut && s.bundleOut.Some? && t.files == grown
    case RollingBack(linked) => !out.ok && linked == free && t.bundleOut == s.bundleOut && t.files == grown
    case Removing => !out.ok && free && !UsesModel(s.bundleOut, b.model.value) && t.bundleOut == s.bundleOut && t.files == grown
    case Done => out.ok && t.bundleOut == out.bundleOut && t.files == out.files
    case Refused => !out.ok && t.bundleOut == out.bundleOut && t.files == out.files
    case _ => false
  }

  lemma AloneStep(s: State, t: State, p: nat, b: Bundle, stagedModel: bool)
    requires AloneOk(s, t, p, b, stagedModel)
    ensures AloneOk(s, Next(t, p, b), p, b, stagedModel)
    ensures At(t, p) == Done || At(t, p) == Refused || Rounds(At(Next(t, p, b), p)) < Rounds(At(t, p))
  {
    if At(t, p) == Removing {
      assert s.files[b.model.value.path := b.model.value.content] - {b.model.value.path} == s.files;
    }
  }

  /** Calls left until a lone publisher returns, at most. */
  function Rounds(phase: Phase): nat {
    match phase
    case Staged(_) => 8
    case LinkingModel => 7
    case CheckingModel => 6
    case Publishing(_) => 5
    case LinkingBundle(_) => 4
    case ComparingBundle(_) => 3
    case RollingBack(_) => 2
    case Removing => 1
    case _ => 0
  }

  predicate Finished(phase: Phase) {
    phase == Done || phase == Refused
  }

  lemma {:induction false} AloneKeepsOk(s: State, t: State, p: nat, b: Bundle, stagedModel: bool, k: nat)
    requires AloneOk(s, t, p, b, stagedModel)
    ensures AloneOk(s, Alone(t, p, b, k), p, b, stagedModel)
    ensures Finished(At(Alone(t, p, b, k), p)) || Rounds(At(Alone(t, p, b, k), p)) + k <= Rounds(At(t, p))
    decreases k
  {
    if k > 0 {
      var next := Next(t, p, b);
      AloneStep(s, t, p, b, stagedModel);
      AloneKeepsOk(s, next, p, b, stagedModel, k - 1);
      if Finished(At(t, p)) { FinishedStays(t, p, b, k); }
    }
  }

  lemma {:induction false} FinishedStays(s: State, p: nat, b: Bundle, k: nat)
    requires Finished(At(s, p))
    ensures Alone(s, p, b, k) == s
  {
    if k > 0 {
      assert Next(s, p, b) == s;
      FinishedStays(s, p, b, k - 1);
    }
  }

  /** Left alone, the interleaved publisher does exactly what the call does. */
  lemma UninterruptedRunIsTheCall(s: State, p: nat, b: Bundle, stagedModel: bool)
    requires At(s, p) == Staged(stagedModel)
    ensures var t := Alone(s, p, b, 9);
            Finished(At(t, p)) && Outcome(t.bundleOut, t.files, At(t, p) == Done) == Published(s.bundleOut, s.files, b, stagedModel)
  {
    AloneKeepsOk(s, s, p, b, stagedModel, 9);
  }

  // ----- From the first call on -----

  lemma AloneTwice(s: State, p: nat, b: Bundle, s1: State, s2: State, k: nat)
    requires Next(s, p, b) == s1 && Next(s1, p, b) == s2
    ensures Alone(s, p, b, k + 2) == Alone(s2, p, b, k)
  {
    assert Alone(s, p, b, k + 2) == Alone(s1, p, b, k + 1);
  }

  /** No file with other bytes sits where this bundle's model belongs, and no other bundle where it does. */
  predicate DirectoryFits(s: State, b: Bundle) {
    && (s.bundleOut == None || s.bundleOut == Some(b))
    && (b.model.Some? && b.model.value.path in s.files ==> s.files[b.model.value.path] == b.model.value.content)
  }

  /** Two calls stage the bundle or refuse it, and touch nothing. */
  lemma StagingAlone(s: State, p: nat, b: Bundle)
    requires At(s, p) == Idle
    ensures var t := Next(Next(s, p, b), p, b);
            && t.bundleOut == s.bundleOut && t.files == s.files
            && At(t, p) == if !DirectoryFits(s, b) then Refused
                           else if b.model.None? then Publishing(false) else Staged(b.model.value.path !in s.files)
  {}

  lemma PublishesUnmodelled(s: State, p: nat, b: Bundle)
    requires At(s, p) == Publishing(false) && b.model.None? && (s.bundleOut == None || s.bundleOut == Some(b))
    ensures var t := Alone(s, p, b, 9); At(t, p) == Done && t.bundleOut == Some(b) && t.files == s.files
  {
    var s1 := Next(s, p, b);
    var s2 := Next(s1, p, b);
    assert At(s2, p) == Done && s2.bundleOut == Some(b) && s2.files == s.files;
    AloneTwice(s, p, b, s1, s2, 7);
    FinishedStays(s2, p, b, 7);
  }

  lemma PublishesModelled(s: State, p: nat, b: Bundle, m: Model)
    requires b.model == Some(m) && At(s, p) == Staged(m.path !in s.files) && DirectoryFits(s, b)
    ensures var t := Alone(s, p, b, 9); At(t, p) == Done && t.bundleOut == Some(b) && t.files == s.files[m.path := m.content]
  {
    UninterruptedRunIsTheCall(s, p, b, m.path !in s.files);
    assert m.path in s.files ==> s.files[m.path := m.content] == s.files;
  }

  /**
   A publisher that nobody disturbs, from its first call: within eleven calls it returns Ok exactly when
   the bundle path was free or held this bundle and the model path was free or held the model's bytes.
   Then both files are in place; otherwise nothing has changed.
   */
  lemma LonePublisher(s: State, p: nat, b: Bundle)
    requires At(s, p) == Idle
    ensures var t := Alone(s, p, b, 11);
            var fits := (s.bundleOut == None || s.bundleOut == Some(b))
                        && (b.model.Some? && b.model.value.path in s.files ==> s.files[b.model.value.path] == b.model.value.content);
            && At(t, p) == (if fits then Done else Refused)
            && (fits ==> t.bundleOut == Some(b)
                         && t.files == if b.model.Some? then s.files[b.model.value.path := b.model.value.content] else s.files)
            && (!fits ==> t.bundleOut == s.bundleOut && t.files == s.files)
  {
    StagingAlone(s, p, b);
    var s1 := Next(s, p, b);
    var t := Next(s1, p, b);
    AloneTwice(s, p, b, s1, t, 9);
    FromStaging(s, t, p, b);
  }

  lemma FromStaging(s: State, t: State, p: nat, b: Bundle)
    requires t.bundleOut == s.bundleOut && t.files == s.files
    requires At(t, p) == if !DirectoryFits(s, b) then Refused
                         else if b.model.None? then Publishing(false) else Staged(b.model.value.path !in s.files)
    ensures var u := Alone(t, p, b, 9);
            && At(u, p) == (if DirectoryFits(s, b) then Done else Refused)
            && (DirectoryFits(s, b) ==> u.bundleOut == Some(b)
                                        && u.files == if b.model.Some? then s.files[b.model.value.path := b.model.value.content] else s.files)
            && (!DirectoryFits(s, b) ==> u.bundleOut == s.bundleOut && u.files == s.files)
  {
    if !DirectoryFits(s, b) {
      FinishedStays(t, p, b, 9);
    } else if b.model.None? {
      PublishesUnmodelled(t, p, b);
    } else {
      PublishesModelled(t, p, b, b.model.value);
    }
  }
}
