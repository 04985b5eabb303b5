/**
 Publication of a model-metrics report as a JSON file and a CSV file, each written once
 through a temporary file and a no-clobber rename.  Writers interleave at every file
 system call and may crash between any two.
 */
module ReportPublish {
  type Path = string
  type Bytes = string
  type Files = map<Path, Bytes>

  const MAX_METRICS_BYTES := 4 * 1024 * 1024

  datatype Report = Report(jsonPath: Path, csvPath: Path, json: Bytes, csv: Bytes)

  predicate Admissible(r: Report) {
    r.jsonPath != r.csvPath && |r.json| <= MAX_METRICS_BYTES && |r.csv| <= MAX_METRICS_BYTES
  }

  /** `existing_output_matches`: absent, the same bytes, or a refusal. */
  datatype Existing = Absent | Same | Different

  function Look(files: Files, path: Path, bytes: Bytes): Existing {
    if path !in files then Absent else if files[path] == bytes then Same else Different
  }

  /** Both files hold exactly this report. */
  predicate Holds(files: Files, r: Report) {
    r.jsonPath in files && files[r.jsonPath] == r.json && r.csvPath in files && files[r.csvPath] == r.csv
  }

  /** What an uninterrupted call does: complete the pair, or refuse and leave every file alone. */
  function Persisted(files: Files, r: Report): (Files, bool) {
    if !Admissible(r) || Look(files, r.jsonPath, r.json) == Different || Look(files, r.csvPath, r.csv) == Different
    then (files, false)
    else (files[r.jsonPath := r.json][r.csvPath := r.csv], true)
  }

  class FileStore {
    var files: Files

    constructor (initial: Files)
      ensures files == initial
    {
      files := initial;
    }

    /** `persist_immutable_bytes`: create without clobbering, or accept identical bytes. */
    method PersistImmutable(path: Path, bytes: Bytes) returns (ok: bool)
      modifies this
      ensures ok <==> (path in old(files) ==> old(files)[path] == bytes)
      ensures files == if ok then old(files)[path := bytes] else old(files)
    {
      if path !in files {
        files := files[path := bytes];
        return true;
      }
      ok := files[path] == bytes;
      assert ok ==> files == files[path := bytes];
    }

    /** `persist_report`: look at both destinations, write what is missing, read both back. */
    method PersistReport(r: Report) returns (ok: bool)
      modifies this
      ensures (files, ok) == Persisted(old(files), r)
      ensures ok <==> r.jsonPath != r.csvPath && |r.json| <= 4 * 1024 * 1024 && |r.csv| <= 4 * 1024 * 1024
                      && (r.jsonPath in old(files) ==> old(files)[r.jsonPath] == r.json)
                      && (r.csvPath in old(files) ==> old(files)[r.csvPath] == r.csv)
      ensures ok ==> files == old(files)[r.jsonPath := r.json][r.csvPath := r.csv]
      ensures !ok ==> files == old(files)
    {
      if r.jsonPath == r.csvPath { return false; }
      if |r.json| > MAX_METRICS_BYTES || |r.csv| > MAX_METRICS_BYTES { return false; }
      var json := Look(files, r.jsonPath, r.json);
      if json == Different { return false; }
      var csv := Look(files, r.csvPath, r.csv);
      if csv == Different { return false; }
      assert json == Same ==> files == files[r.jsonPath := r.json];
      if json == Absent {
        ok := PersistImmutable(r.jsonPath, r.json);
        if !ok { return false; }
      }
      assert csv == Same ==> files == files[r.csvPath := r.csv];
      if csv == Absent {
        ok := PersistImmutable(r.csvPath, r.csv);
        if !ok { return false; }
      }
      return Look(files, r.jsonPath, r.json) == Same && Look(files, r.csvPath, r.csv) == Same;
    }
  }

  // ----- Interleaved writers -----

  datatype Phase =
    | Fresh
    | LookingAtCsv(json: bool)
    | Writing(json: bool, csv: bool)
    | RereadingJson
    | RereadingCsv
    | Done
    | Refused
    | Crashed

  datatype State = State(files: Files, phases: map<nat, Phase>)

  type Writers = map<nat, Report>

  datatype Action = Act(w: nat) | Crash(w: nat)

  function At(s: State, w: nat): Phase {
    if w in s.phases then s.phases[w] else Fresh
  }

  function Goto(s: State, w: nat, phase: Phase): State {
    s.(phases := s.phases[w := phase])
  }

  /** One no-clobber publication. */
  function Publish(s: State, w: nat, path: Path, bytes: Bytes, next: Phase): State {
    match Look(s.files, path, bytes)
    case Absent => Goto(s, w, next).(files := s.files[path := bytes])
    case Same => Goto(s, w, next)
    case Different => Goto(s, w, Refused)
  }

  /** The next file system call of writer `w`, which persists `r`. */
  function Next(s: State, w: nat, r: Report): State {
    match At(s, w)
    case Fresh =>
      var json := Look(s.files, r.jsonPath, r.json);
      Goto(s, w, if !Admissible(r) || json == Different then Refused else LookingAtCsv(json == Same))
    case LookingAtCsv(json) =>
      var csv := Look(s.files, r.csvPath, r.csv);
      Goto(s, w, if csv == Different then Refused else Writing(json, csv == Same))
    case Writing(json, csv) =>
      if !json then Publish(s, w, r.jsonPath, r.json, Writing(true, csv))
      else if !csv then Publish(s, w, r.csvPath, r.csv, RereadingJson)
      else Goto(s, w, RereadingJson)
    case RereadingJson => Goto(s, w, if Look(s.files, r.jsonPath, r.json) == Same then RereadingCsv else Refused)
    case RereadingCsv => Goto(s, w, if Look(s.files, r.csvPath, r.csv) == Same then Done else Refused)
    case _ => s
  }

  function Step(writers: Writers, s: State, a: Action): State {
    if a.w !in writers then s
    else if a.Act? then Next(s, a.w, writers[a.w])
    else if At(s, a.w) == Done || At(s, a.w) == Refused then s
    else Goto(s, a.w, Crashed)
  }

  function Run(writers: Writers, s: State, actions: seq<Action>): State
    decreases actions
  {
    if actions == [] then s else Run(writers, Step(writers, s, actions[0]), actions[1..])
  }

  ghost predicate Grows(files: Files, later: Files) {
    forall path :: path in files ==> path in later && later[path] == files[path]
  }

  /** A writer past its JSON reread has its JSON on disk; a finished one has both files. */
  ghost predicate WriterOk(files: Files, phase: Phase, r: Report) {
    && (phase == RereadingCsv ==> Look(files, r.jsonPath, r.json) == Same)
    && (phase == Done ==> Holds(files, r))
  }

  ghost predicate Inv(writers: Writers, s: State) {
    forall w :: w in s.phases ==> w in writers && WriterOk(s.files, s.phases[w], writers[w])
  }

  lemma StepKeepsInv(writers: Writers, s: State, a: Action)
    requires Inv(writers, s)
    ensures Inv(writers, Step(writers, s, a)) && Grows(s.files, Step(writers, s, a).files)
  {
    var s' := Step(writers, s, a);
    assert Grows(s.files, s'.files);
    forall w | w in s'.phases ensures w in writers && WriterOk(s'.files, s'.phases[w], writers[w]) {
      if w != a.w { assert WriterOk(s.files, s.phases[w], writers[w]); }
    }
  }

  /** In every interleaving with crashes no destination's bytes ever change, and every Ok means both files hold that writer's report, for good. */
  lemma {:induction false} FilesAreImmutable(writers: Writers, s: State, actions: seq<Action>)
    requires Inv(writers, s)
    ensures Inv(writers, Run(writers, s, actions)) && Grows(s.files, Run(writers, s, actions).files)
    decreases actions
  {
    if actions != [] {
      StepKeepsInv(writers, s, actions[0]);
      FilesAreImmutable(writers, Step(writers, s, actions[0]), actions[1..]);
    }
  }

  predicate SharesPathWithOtherBytes(r: Report, q: Report) {
    || (r.jsonPath == q.jsonPath && r.json != q.json) || (r.csvPath == q.csvPath && r.csv != q.csv)
    || (r.jsonPath == q.csvPath && r.json != q.csv) || (r.csvPath == q.jsonPath && r.csv != q.json)
  }

  /** Two reports that disagree on a shared path never both succeed. */
  lemma ConflictingReportsNeverBothSucceed(writers: Writers, files: Files, actions: seq<Action>, v: nat, w: nat)
    requires v in writers && w in writers && SharesPathWithOtherBytes(writers[v], writers[w])
    ensures var s := Run(writers, State(files, map[]), actions); At(s, v) != Done || At(s, w) != Done
  {
    FilesAreImmutable(writers, State(files, map[]), actions);
  }

  /** `k` steps of writer `w` with nobody else moving. */
  function Alone(s: State, w: nat, r: Report, k: nat): State {
    if k == 0 then s else Next(Alone(s, w, r, k - 1), w, r)
  }

  /** Where a lone writer can stand, and what it has written by then. */
  ghost predicate AloneOk(files: Files, s: State, w: nat, r: Report) {
    var p := At(s, w);
    if Persisted(files, r).1 then
      || (p == Fresh && s.files == files)
      || (p.LookingAtCsv? && s.files == files && (p.json ==> Look(files, r.jsonPath, r.json) == Same))
      || (p.Writing? && s.files == (if p.json then files[r.jsonPath := r.json] else files)
          && (p.csv ==> Look(files, r.csvPath, r.csv) == Same))
      || ((p == RereadingJson || p == RereadingCsv || p == Done) && s.files == Persisted(files, r).0)
    else
      s.files == files && (p == Fresh || p == Refused || (p.LookingAtCsv? && Look(files, r.csvPath, r.csv) == Different))
  }

  /** Calls left until a lone writer returns, at most. */
  function Rounds(phase: Phase): nat {
    match phase
    case Fresh => 6
    case LookingAtCsv(_) => 5
    case Writing(json, _) => if json then 3 else 4
    case RereadingJson => 2
    case RereadingCsv => 1
    case _ => 0
  }

  lemma AloneStep(files: Files, s: State, w: nat, r: Report)
    requires AloneOk(files, s, w, r)
    ensures AloneOk(files, Next(s, w, r), w, r)
    ensures At(s, w) == Done || At(s, w) == Refused || Rounds(At(Next(s, w, r), w)) < Rounds(At(s, w))
  {
    assert Look(files, r.jsonPath, r.json) == Same ==> files[r.jsonPath := r.json] == files;
    assert r.jsonPath != r.csvPath && Look(files, r.csvPath, r.csv) == Same ==>
        files[r.jsonPath := r.json][r.csvPath := r.csv] == files[r.jsonPath := r.json];
  }

  lemma {:induction false} AloneKeepsOk(s: State, w: nat, r: Report, k: nat)
    requires At(s, w) == Fresh
    ensures AloneOk(s.files, Alone(s, w, r, k), w, r)
    ensures var p := At(Alone(s, w, r, k), w); p == Done || p == Refused || Rounds(p) + k <= 6
  {
    if k > 0 {
      AloneKeepsOk(s, w, r, k - 1);
      AloneStep(s.files, Alone(s, w, r, k - 1), w, r);
    }
  }

  /** Crash a lone writer after any number of steps: calling again ends exactly as an undisturbed call would have. */
  lemma {:induction false} RerunAfterCrashCompletesThePair(s: State, w: nat, r: Report, k: nat)
    requires At(s, w) == Fresh
    ensures Persisted(Alone(s, w, r, k).files, r) == Persisted(s.files, r)
    ensures Persisted(s.files, r).1 ==> Holds(Persisted(s.files, r).0, r)
  {
    AloneKeepsOk(s, w, r, k);
    var f := s.files;
    var both := f[r.jsonPath := r.json][r.csvPath := r.csv];
    if Persisted(f, r).1 {
      assert f[r.jsonPath := r.json][r.jsonPath := r.json] == f[r.jsonPath := r.json];
      assert both[r.jsonPath := r.json][r.csvPath := r.csv] == both;
    }
  }

  /** Left alone, the interleaved writer returns within six calls and does exactly what the sequential call does. */
  lemma {:induction false} UninterruptedRunIsTheCall(s: State, w: nat, r: Report)
    requires At(s, w) == Fresh
    ensures Alone(s, w, r, 6).files == Persisted(s.files, r).0
    ensures At(Alone(s, w, r, 6), w) == (if Persisted(s.files, r).1 then Done else Refused)
  {
    AloneKeepsOk(s, w, r, 6);
  }
}
