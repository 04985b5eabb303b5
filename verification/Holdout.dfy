/** Which candidate may reach the sealed holdout: evidence is filtered, sorted and deduplicated, and must be a single pair. */
module Holdout {
  import opened Prelude
  import opened Sorting

  datatype Verdict = Keep | Discard

  datatype Engine = OfflineReinforcementLearning | OtherEngine(name: string)

  /** A formula may or may not be admitted for live use. */
  datatype Artifact = Formula(live: bool) | OnnxModel | OtherArtifact

  datatype Candidate = Candidate(id: string, artifact: Artifact)

  /** The evaluator a stored payload names; anything else, or nothing, is Unrecognized. */
  datatype Evaluator = WalkForward | OnnxWalkForward | Unrecognized

  datatype Evaluation = Evaluation(valid: bool, passed: bool, config: string, protocol: Option<string>)

  /** A stored evaluation record; its payload may fail to decode. */
  datatype Stored = Stored(
    id: string, candidate: string, dataset: string, protocolHash: string, evaluator: Evaluator, payload: Option<Evaluation>)

  datatype Iteration = Iteration(id: string, verdict: Verdict, engine: Engine, candidate: Option<string>, evaluation: Option<string>)

  /** `config` is the evaluator configuration the mission calls for, when it has one. */
  datatype Lineage = Lineage(
    dataset: string, config: Option<string>, iterations: seq<Iteration>, evaluations: seq<Stored>, candidates: seq<Candidate>)

  type Pair = (string, string)

  predicate PairLe(a: Pair, b: Pair) {
    if a.0 == b.0 then TextLe(a.1, b.1) else TextLe(a.0, b.0)
  }

  // ----- Lookups -----

  function FindStored(evaluations: seq<Stored>, id: string, candidate: string): Option<Stored> {
    if evaluations == [] then None
    else if evaluations[0].id == id && evaluations[0].candidate == candidate then Some(evaluations[0])
    else FindStored(evaluations[1..], id, candidate)
  }

  function FindCandidate(candidates: seq<Candidate>, id: string): Option<Candidate> {
    if candidates == [] then None
    else if candidates[0].id == id then Some(candidates[0])
    else FindCandidate(candidates[1..], id)
  }

  // ----- One iteration -----

  /** Evidence for one pair, nothing, or an error that ends the whole computation. */
  datatype Judgement = Qualified(pair: Pair) | Skipped | Malformed

  predicate Fits(artifact: Artifact, evaluator: Evaluator) {
    (artifact.Formula? && artifact.live && evaluator == WalkForward) || (artifact.OnnxModel? && evaluator == OnnxWalkForward)
  }

  function JudgeStored(l: Lineage, config: string, st: Stored): Judgement {
    if st.payload.None? || !st.payload.value.valid then Malformed
    else
      var e := st.payload.value;
      if !e.passed || e.config != config then Skipped
      else if e.protocol.None? then Malformed
      else if st.dataset != l.dataset || st.protocolHash != e.protocol.value then Skipped
      else Qualified((st.candidate, e.protocol.value))
  }

  function Judge(l: Lineage, config: string, it: Iteration): Judgement {
    if it.verdict != Keep || it.candidate.None? || it.evaluation.None? then Skipped
    else
      var st := FindStored(l.evaluations, it.evaluation.value, it.candidate.value);
      var c := FindCandidate(l.candidates, it.candidate.value);
      if st.None? || c.None? || !Fits(c.value.artifact, st.value.evaluator) then Skipped
      else JudgeStored(l, config, st.value)
  }

  // ----- The evidence list -----

  /** The pairs in iteration order, or None at the first malformed evaluation. */
  function Collect(l: Lineage, config: string, iterations: seq<Iteration>): Option<seq<Pair>>
    decreases iterations
  {
    if iterations == [] then Some([])
    else
      var j := Judge(l, config, iterations[0]);
      var rest := Collect(l, config, iterations[1..]);
      if j.Malformed? || rest.None? then None
      else if j.Qualified? then Some([j.pair] + rest.value)
      else rest
  }

  function Evidence(l: Lineage): Option<seq<Pair>> {
    if l.config.None? then None
    else
      match Collect(l, l.config.value, l.iterations)
      case None => None
      case Some(pairs) => Some(NormalForm(pairs, PairLe))
  }

  /** The loop pushes one pair per qualifying iteration, then sorts and deduplicates. */
  method ValidatedEvidence(l: Lineage) returns (evidence: Option<seq<Pair>>)
    ensures evidence == Evidence(l)
  {
    if l.config.None? { return None; }
    var candidates: seq<Pair> := [];
    var i := 0;
    assert l.iterations[0..] == l.iterations;
    ghost var all := Collect(l, l.config.value, l.iterations);
    assert all.Some? ==> candidates + all.value == all.value;
    while i < |l.iterations|
      invariant i <= |l.iterations|
      invariant var rest := Collect(l, l.config.value, l.iterations[i..]);
                Collect(l, l.config.value, l.iterations) == if rest.None? then None else Some(candidates + rest.value)
    {
      assert l.iterations[i..][1..] == l.iterations[i + 1..];
      var j := Judge(l, l.config.value, l.iterations[i]);
      if j.Malformed? { return None; }
      ghost var rest := Collect(l, l.config.value, l.iterations[i + 1..]);
      if j.Qualified? {
        assert rest.Some? ==> candidates + ([j.pair] + rest.value) == candidates + [j.pair] + rest.value;
        candidates := candidates + [j.pair];
      }
      i := i + 1;
    }
    assert candidates + [] == candidates;
    return Some(NormalForm(candidates, PairLe));
  }

  /** Exactly one pair, none, or an error. */
  datatype Selection = Selected(pair: Pair) | NoneSelected | Ambiguous | Broken

  function Select(l: Lineage): Selection {
    match Evidence(l)
    case None => Broken
    case Some(pairs) => if pairs == [] then NoneSelected else if |pairs| == 1 then Selected(pairs[0]) else Ambiguous
  }

  function FirstIteration(iterations: seq<Iteration>, candidate: string): Option<Iteration> {
    if iterations == [] then None
    else if iterations[0].candidate == Some(candidate) then Some(iterations[0])
    else FirstIteration(iterations[1..], candidate)
  }

  predicate HasSealedEvaluator(a: Artifact) {
    a.OnnxModel? || (a.Formula? && a.live)
  }

  /** The gate of `execute_evaluate`, up to the lookup of a sealed evaluation. */
  predicate Gate(l: Lineage, requested: Pair) {
    && Select(l) == Selected(requested)
    && var c := FindCandidate(l.candidates, requested.0);
    var it := FirstIteration(l.iterations, requested.0);
    && c.Some? && it.Some? && it.value.verdict == Keep && it.value.engine != OfflineReinforcementLearning
    && HasSealedEvaluator(c.value.artifact)
  }

  // ----- The declarative reading -----

  ghost predicate UniqueIds(l: Lineage) {
    && (forall a, b :: a in l.evaluations && b in l.evaluations && a.id == b.id && a.candidate == b.candidate ==> a == b)
    && (forall a, b :: a in l.candidates && b in l.candidates && a.id == b.id ==> a == b)
  }

  /** A kept iteration joined to its own evaluation and candidate, of matching kinds. */
  ghost predicate Joined(l: Lineage, it: Iteration, st: Stored, c: Candidate) {
    && it in l.iterations && st in l.evaluations && c in l.candidates && it.verdict == Keep
    && it.candidate == Some(c.id) && it.evaluation == Some(st.id) && st.candidate == c.id
    && (|| (c.artifact == Formula(true) && st.evaluator == WalkForward)
        || (c.artifact == OnnxModel && st.evaluator == OnnxWalkForward))
  }

  /** Every joined evaluation decodes, is valid, and binds a protocol if it counts. */
  ghost predicate WellFormed(l: Lineage) {
    && l.config.Some?
    && forall it, st, c :: Joined(l, it, st, c) ==>
         st.payload.Some? && st.payload.value.valid
         && (st.payload.value.passed && st.payload.value.config == l.config.value ==> st.payload.value.protocol.Some?)
  }

  /** The record proves the pair: passed under the expected configuration, on the mission's dataset, under the protocol it was filed under. */
  ghost predicate Proves(l: Lineage, st: Stored, pair: Pair) {
    && l.config.Some? && st.payload.Some?
    && st.payload.value.valid && st.payload.value.passed && st.payload.value.config == l.config.value
    && st.payload.value.protocol == Some(pair.1) && st.protocolHash == pair.1 && st.dataset == l.dataset && st.candidate == pair.0
  }

  ghost predicate Qualifies(l: Lineage, pair: Pair) {
    exists it, st, c :: Joined(l, it, st, c) && Proves(l, st, pair)
  }

  // ----- Proofs -----

  lemma PairOrder()
    ensures TotalOrder(PairLe)
  {
    TextOrder();
  }

  lemma {:induction false} FoundStored(evaluations: seq<Stored>, id: string, candidate: string)
    ensures var found := FindStored(evaluations, id, candidate);
            && (found.Some? ==> found.value in evaluations && found.value.id == id && found.value.candidate == candidate)
            && (found.None? ==> forall st :: st in evaluations ==> st.id != id || st.candidate != candidate)
  {
    if evaluations != [] {
      FoundStored(evaluations[1..], id, candidate);
      assert evaluations == [evaluations[0]] + evaluations[1..];
    }
  }

  lemma {:induction false} FoundCandidate(candidates: seq<Candidate>, id: string)
    ensures var found := FindCandidate(candidates, id);
            && (found.Some? ==> found.value in candidates && found.value.id == id)
            && (found.None? ==> forall c :: c in candidates ==> c.id != id)
  {
    if candidates != [] {
      FoundCandidate(candidates[1..], id);
      assert candidates == [candidates[0]] + candidates[1..];
    }
  }

  /** With unique identifiers an iteration joins at most one evaluation and candidate, and judging it judges that evaluation. */
  lemma JudgeIsJoin(l: Lineage, config: string, it: Iteration, st: Stored, c: Candidate)
    requires UniqueIds(l) && Joined(l, it, st, c)
    ensures Judge(l, config, it) == JudgeStored(l, config, st)
  {
    FoundStored(l.evaluations, st.id, c.id);
    FoundCandidate(l.candidates, c.id);
  }

  lemma UnjoinedIsSkipped(l: Lineage, config: string, it: Iteration)
    requires it in l.iterations && forall st, c :: !Joined(l, it, st, c)
    ensures Judge(l, config, it) == Skipped
  {
    if it.verdict == Keep && it.candidate.Some? && it.evaluation.Some? {
      FoundStored(l.evaluations, it.evaluation.value, it.candidate.value);
      FoundCandidate(l.candidates, it.candidate.value);
      var st := FindStored(l.evaluations, it.evaluation.value, it.candidate.value);
      var c := FindCandidate(l.candidates, it.candidate.value);
      if st.Some? && c.Some? { assert !Joined(l, it, st.value, c.value); }
    }
  }

  lemma {:induction false} CollectIff(l: Lineage, config: string, iterations: seq<Iteration>)
    ensures var r := Collect(l, config, iterations);
            && (r.None? <==> exists it :: it in iterations && Judge(l, config, it).Malformed?)
            && (r.Some? ==> forall pair :: pair in r.value <==> exists it :: it in iterations && Judge(l, config, it) == Qualified(pair))
    decreases iterations
  {
    if iterations != [] {
      CollectIff(l, config, iterations[1..]);
      assert iterations == [iterations[0]] + iterations[1..];
    }
  }

  lemma MalformedIff(l: Lineage)
    requires UniqueIds(l) && l.config.Some?
    ensures (exists it :: it in l.iterations && Judge(l, l.config.value, it).Malformed?) <==> !WellFormed(l)
  {
    var config := l.config.value;
    if it :| it in l.iterations && Judge(l, config, it).Malformed? {
      if forall st, c :: !Joined(l, it, st, c) { UnjoinedIsSkipped(l, config, it); }
      var st, c :| Joined(l, it, st, c);
      JudgeIsJoin(l, config, it, st, c);
    }
    if !WellFormed(l) {
      var it, st, c :| Joined(l, it, st, c) && !(st.payload.Some? && st.payload.value.valid
        && (st.payload.value.passed && st.payload.value.config == config ==> st.payload.value.protocol.Some?));
      JudgeIsJoin(l, config, it, st, c);
    }
  }

  lemma QualifiedIff(l: Lineage, pair: Pair)
    requires UniqueIds(l) && l.config.Some?
    ensures (exists it :: it in l.iterations && Judge(l, l.config.value, it) == Qualified(pair)) <==> Qualifies(l, pair)
  {
    var config := l.config.value;
    if it :| it in l.iterations && Judge(l, config, it) == Qualified(pair) {
      if forall st, c :: !Joined(l, it, st, c) { UnjoinedIsSkipped(l, config, it); }
      var st, c :| Joined(l, it, st, c);
      JudgeIsJoin(l, config, it, st, c);
      assert Proves(l, st, pair);
    }
    if Qualifies(l, pair) {
      var it, st, c :| Joined(l, it, st, c) && Proves(l, st, pair);
      JudgeIsJoin(l, config, it, st, c);
    }
  }

  /** The evidence is the strictly sorted list of exactly the qualifying pairs, and exists exactly for well-formed lineages. */
  lemma EvidenceIsTheQualifyingPairs(l: Lineage)
    requires UniqueIds(l)
    ensures Evidence(l).Some? <==> WellFormed(l)
    ensures Evidence(l).Some? ==>
              StrictlySorted(Evidence(l).value, PairLe) && forall pair :: pair in Evidence(l).value <==> Qualifies(l, pair)
  {
    if l.config.Some? {
      CollectIff(l, l.config.value, l.iterations);
      MalformedIff(l);
      if Evidence(l).Some? {
        PairOrder();
        NormalFormIsStrict(Collect(l, l.config.value, l.iterations).value, PairLe);
        forall pair ensures pair in Evidence(l).value <==> Qualifies(l, pair) { QualifiedIff(l, pair); }
      }
    }
  }

  /** The same lineage with its lists in another order. */
  ghost predicate Reordered(a: Lineage, b: Lineage) {
    && a.dataset == b.dataset && a.config == b.config
    && (forall x :: x in a.iterations <==> x in b.iterations) && (forall x :: x in a.evaluations <==> x in b.evaluations)
    && (forall x :: x in a.candidates <==> x in b.candidates)
  }

  lemma ReorderedQualifies(a: Lineage, b: Lineage, pair: Pair)
    requires Reordered(a, b)
    ensures Qualifies(a, pair) <==> Qualifies(b, pair)
  {
    forall it, st, c ensures Joined(a, it, st, c) <==> Joined(b, it, st, c) {}
    if it, st, c :| Joined(a, it, st, c) && Proves(a, st, pair) { assert Joined(b, it, st, c) && Proves(b, st, pair); }
    if it, st, c :| Joined(b, it, st, c) && Proves(b, st, pair) { assert Joined(a, it, st, c) && Proves(a, st, pair); }
  }

  /** Evidence and selection do not depend on the order of the lineage's lists. */
  lemma EvidenceIgnoresOrder(a: Lineage, b: Lineage)
    requires UniqueIds(a) && Reordered(a, b)
    ensures Evidence(a) == Evidence(b) && Select(a) == Select(b)
  {
    EvidenceIsTheQualifyingPairs(a);
    EvidenceIsTheQualifyingPairs(b);
    forall it, st, c ensures Joined(a, it, st, c) <==> Joined(b, it, st, c) {}
    if WellFormed(a) {
      PairOrder();
      forall pair ensures pair in Evidence(a).value <==> pair in Evidence(b).value { ReorderedQualifies(a, b, pair); }
      StrictlySortedUnique(Evidence(a).value, Evidence(b).value, PairLe);
    }
  }

  lemma SingletonList(s: seq<Pair>, x: Pair)
    requires StrictlySorted(s, PairLe)
    ensures s == [x] <==> forall y :: y in s <==> y == x
  {
    if forall y :: y in s <==> y == x {
      assert x in s;
      assert s[0] in s;
      if |s| > 1 { assert s[1] in s; }
    }
  }

  /**
   The gate opens exactly when the requested pair is the one and only qualifying pair and the first
   iteration that proposed its candidate was kept and did not come from offline reinforcement learning.
   */
  lemma GateIff(l: Lineage, requested: Pair)
    requires UniqueIds(l)
    ensures Gate(l, requested)
            <==> && WellFormed(l) && (forall pair :: Qualifies(l, pair) <==> pair == requested)
                 && var it := FirstIteration(l.iterations, requested.0);
                 it.Some? && it.value.verdict == Keep && it.value.engine != OfflineReinforcementLearning
  {
    EvidenceIsTheQualifyingPairs(l);
    if WellFormed(l) {
      SingletonList(Evidence(l).value, requested);
      if forall pair :: Qualifies(l, pair) <==> pair == requested {
        assert Qualifies(l, requested);
        var it, st, c :| Joined(l, it, st, c) && Proves(l, st, requested);
        FoundCandidate(l.candidates, c.id);
      }
    }
  }

  // ----- Lineages the store can hold -----

  /** No candidate belongs to two iterations. */
  ghost predicate OneIteration(l: Lineage) {
    forall x, y :: x in l.iterations && y in l.iterations && x.candidate.Some? && x.candidate == y.candidate ==> x == y
  }

  lemma {:induction false} FoundIteration(iterations: seq<Iteration>, candidate: string)
    ensures var found := FirstIteration(iterations, candidate);
            && (found.Some? ==> found.value in iterations && found.value.candidate == Some(candidate))
            && (found.None? ==> forall it :: it in iterations ==> it.candidate != Some(candidate))
  {
    if iterations != [] {
      FoundIteration(iterations[1..], candidate);
      assert iterations == [iterations[0]] + iterations[1..];
    }
  }

  /** With one iteration a candidate, its first iteration is the kept one that qualified it, so only its engine is left to check. */
  lemma OneIterationGateIff(l: Lineage, requested: Pair)
    requires UniqueIds(l) && OneIteration(l)
    ensures Gate(l, requested)
            <==> && WellFormed(l) && (forall pair :: Qualifies(l, pair) <==> pair == requested)
                 && (forall it :: it in l.iterations && it.candidate == Some(requested.0) ==> it.engine != OfflineReinforcementLearning)
  {
    GateIff(l, requested);
    FoundIteration(l.iterations, requested.0);
    if forall pair :: Qualifies(l, pair) <==> pair == requested {
      assert Qualifies(l, requested);
      var it, st, c :| Joined(l, it, st, c) && Proves(l, st, requested);
      assert FirstIteration(l.iterations, requested.0) == Some(it);
    }
  }

  lemma ReorderedKeepsRules(a: Lineage, b: Lineage)
    requires Reordered(a, b) && UniqueIds(a) && OneIteration(a)
    ensures UniqueIds(b) && OneIteration(b) && (WellFormed(a) <==> WellFormed(b))
  {
    forall it, st, c ensures Joined(a, it, st, c) <==> Joined(b, it, st, c) {}
  }

  /** The whole gate then ignores the order of the lineage's lists. */
  lemma GateIgnoresOrder(a: Lineage, b: Lineage, requested: Pair)
    requires UniqueIds(a) && OneIteration(a) && Reordered(a, b)
    ensures Gate(a, requested) <==> Gate(b, requested)
  {
    ReorderedKeepsRules(a, b);
    OneIterationGateIff(a, requested);
    OneIterationGateIff(b, requested);
    forall pair ensures Qualifies(a, pair) <==> Qualifies(b, pair) { ReorderedQualifies(a, b, pair); }
  }

  /** A table row and the mission it was filed under. */
  datatype Filed<T> = Filed(mission: string, row: T)

  /** The three tables an iteration is written to. */
  datatype Tables = Tables(iterations: seq<Filed<Iteration>>, candidates: seq<Filed<Candidate>>, evaluations: seq<Filed<Stored>>)

  datatype Write = Write(mission: string, iteration: Iteration, candidate: Option<Candidate>, evaluation: Option<Stored>)

  /** `validate_iteration_records`: the iteration names exactly the artifacts written with it. */
  predicate WriteValid(w: Write) {
    && w.iteration.candidate == (if w.candidate.Some? then Some(w.candidate.value.id) else None)
    && w.iteration.evaluation == (if w.evaluation.Some? then Some(w.evaluation.value.id) else None)
    && (w.evaluation.Some? ==> w.iteration.candidate == Some(w.evaluation.value.candidate))
  }

  /** `insert_iteration_records`: every identifier must be new in its table, whatever the mission. */
  predicate WriteIsNew(t: Tables, w: Write) {
    && (forall x :: x in t.iterations ==> x.row.id != w.iteration.id)
    && (w.candidate.Some? ==> forall x :: x in t.candidates ==> x.row.id != w.candidate.value.id)
    && (w.evaluation.Some? ==> forall x :: x in t.evaluations ==> x.row.id != w.evaluation.value.id)
  }

  /** One write, or the tables unchanged when it is refused. */
  ghost function Inserted(t: Tables, w: Write): Tables {
    if !WriteValid(w) || !WriteIsNew(t, w) then t
    else Tables(t.iterations + [Filed(w.mission, w.iteration)],
                if w.candidate.Some? then t.candidates + [Filed(w.mission, w.candidate.value)] else t.candidates,
                if w.evaluation.Some? then t.evaluations + [Filed(w.mission, w.evaluation.value)] else t.evaluations)
  }

  ghost function Written(t: Tables, writes: seq<Write>): Tables
    decreases writes
  {
    if writes == [] then t else Written(Inserted(t, writes[0]), writes[1..])
  }

  /** `mission_lineage`: the mission's rows of every table, in any order. */
  ghost predicate LineageOf(l: Lineage, t: Tables, mission: string) {
    && (forall x :: x in l.iterations <==> Filed(mission, x) in t.iterations)
    && (forall x :: x in l.candidates <==> Filed(mission, x) in t.candidates)
    && (forall x :: x in l.evaluations <==> Filed(mission, x) in t.evaluations)
  }

  ghost predicate CandidatesUnique(candidates: seq<Filed<Candidate>>) {
    forall x, y :: x in candidates && y in candidates && x.row.id == y.row.id ==> x == y
  }

  ghost predicate EvaluationsUnique(evaluations: seq<Filed<Stored>>) {
    forall x, y :: x in evaluations && y in evaluations && x.row.id == y.row.id ==> x == y
  }

  ghost predicate CandidatesOwned(iterations: seq<Filed<Iteration>>) {
    forall x, y :: x in iterations && y in iterations && x.row.candidate.Some? && x.row.candidate == y.row.candidate ==> x == y
  }

  ghost predicate IterationsUnique(iterations: seq<Filed<Iteration>>) {
    forall x, y :: x in iterations && y in iterations && x.row.id == y.row.id ==> x == y
  }

  /** Some iteration of the same mission names this evaluation and its candidate. */
  ghost predicate Names(iterations: seq<Filed<Iteration>>, e: Filed<Stored>) {
    exists it :: it in iterations && it.mission == e.mission && it.row.evaluation == Some(e.row.id) && it.row.candidate == Some(e.row.candidate)
  }

  ghost predicate EvaluationsOwned(evaluations: seq<Filed<Stored>>, iterations: seq<Filed<Iteration>>) {
    forall e :: e in evaluations ==> Names(iterations, e)
  }

  ghost predicate Holds(candidates: seq<Filed<Candidate>>, id: string) {
    exists c :: c in candidates && c.row.id == id
  }

  ghost predicate CandidatesStored(iterations: seq<Filed<Iteration>>, candidates: seq<Filed<Candidate>>) {
    forall x :: x in iterations && x.row.candidate.Some? ==> Holds(candidates, x.row.candidate.value)
  }

  /** What every write keeps: identifiers are unique, and an iteration's candidate is stored and is nobody else's. */
  ghost predicate TablesOk(t: Tables) {
    && CandidatesUnique(t.candidates) && EvaluationsUnique(t.evaluations) && IterationsUnique(t.iterations)
    && CandidatesStored(t.iterations, t.candidates) && CandidatesOwned(t.iterations)
    && EvaluationsOwned(t.evaluations, t.iterations)
  }

  /** A new iteration's candidate is new, so no earlier iteration names it. */
  lemma NewCandidateIsUnowned(t: Tables, w: Write)
    requires TablesOk(t) && WriteValid(w) && WriteIsNew(t, w)
    ensures CandidatesOwned(t.iterations + [Filed(w.mission, w.iteration)])
  {
    forall x | x in t.iterations && x.row.candidate.Some? ensures x.row.candidate != w.iteration.candidate {
      assert Holds(t.candidates, x.row.candidate.value);
    }
  }

  lemma NewCandidateIsStored(t: Tables, w: Write)
    requires TablesOk(t) && WriteValid(w) && WriteIsNew(t, w)
    ensures CandidatesStored(t.iterations + [Filed(w.mission, w.iteration)], Inserted(t, w).candidates)
  {
    var after := Inserted(t, w).candidates;
    forall x | x in t.iterations && x.row.candidate.Some? ensures Holds(after, x.row.candidate.value) {
      var c :| c in t.candidates && c.row.id == x.row.candidate.value;
      assert c in after;
    }
    if w.candidate.Some? { assert Filed(w.mission, w.candidate.value) in after; }
  }

  lemma NewEvaluationIsOwned(t: Tables, w: Write)
    requires TablesOk(t) && WriteValid(w) && WriteIsNew(t, w)
    ensures EvaluationsOwned(Inserted(t, w).evaluations, Inserted(t, w).iterations)
  {
    var after := Inserted(t, w);
    var added := Filed(w.mission, w.iteration);
    assert added in after.iterations;
    forall e | e in after.evaluations ensures Names(after.iterations, e) {
      if e in t.evaluations {
        var it :| it in t.iterations && it.mission == e.mission && it.row.evaluation == Some(e.row.id) && it.row.candidate == Some(e.row.candidate);
        assert it in after.iterations;
      } else {
        assert e == Filed(w.mission, w.evaluation.value);
      }
    }
  }

  /** A write is stored, row by row, exactly when it names its own artifacts and every identifier is new. */
  lemma WriteIsStored(t: Tables, w: Write)
    requires w.iteration.candidate == (if w.candidate.Some? then Some(w.candidate.value.id) else None)
    requires w.iteration.evaluation == (if w.evaluation.Some? then Some(w.evaluation.value.id) else None)
    requires w.evaluation.Some? ==> w.iteration.candidate == Some(w.evaluation.value.candidate)
    requires forall x :: x in t.iterations ==> x.row.id != w.iteration.id
    requires w.candidate.Some? ==> forall x :: x in t.candidates ==> x.row.id != w.candidate.value.id
    requires w.evaluation.Some? ==> forall x :: x in t.evaluations ==> x.row.id != w.evaluation.value.id
    ensures var t' := Inserted(t, w);
            && t'.iterations == t.iterations + [Filed(w.mission, w.iteration)]
            && t'.candidates == t.candidates + (if w.candidate.Some? then [Filed(w.mission, w.candidate.value)] else [])
            && t'.evaluations == t.evaluations + (if w.evaluation.Some? then [Filed(w.mission, w.evaluation.value)] else [])
  {
    assert t.candidates + [] == t.candidates && t.evaluations + [] == t.evaluations;
  }

  lemma NewIdsAreUnique(t: Tables, w: Write)
    requires TablesOk(t) && WriteValid(w) && WriteIsNew(t, w)
    ensures CandidatesUnique(Inserted(t, w).candidates)
    ensures EvaluationsUnique(Inserted(t, w).evaluations)
    ensures IterationsUnique(Inserted(t, w).iterations)
  {}

  lemma WriteKeepsTables(t: Tables, w: Write)
    requires TablesOk(t)
    ensures TablesOk(Inserted(t, w))
  {
    if WriteValid(w) && WriteIsNew(t, w) {
      NewCandidateIsUnowned(t, w);
      NewCandidateIsStored(t, w);
      NewEvaluationIsOwned(t, w);
      NewIdsAreUnique(t, w);
    }
  }

  lemma {:induction false} WritesKeepTables(t: Tables, writes: seq<Write>)
    requires TablesOk(t)
    ensures TablesOk(Written(t, writes))
    decreases writes
  {
    if writes != [] {
      WriteKeepsTables(t, writes[0]);
      WritesKeepTables(Inserted(t, writes[0]), writes[1..]);
    }
  }

  /** Every lineage read back from a store filled by any writes obeys both uniqueness rules, and every evaluation in it belongs to an iteration in it. */
  lemma StoredLineagesAreUnique(writes: seq<Write>, mission: string, l: Lineage)
    requires LineageOf(l, Written(Tables([], [], []), writes), mission)
    ensures UniqueIds(l) && OneIteration(l)
    ensures forall x, y :: x in l.iterations && y in l.iterations && x.id == y.id ==> x == y
    ensures forall st :: st in l.evaluations ==> exists it :: it in l.iterations && it.evaluation == Some(st.id) && it.candidate == Some(st.candidate)
  {
    WritesKeepTables(Tables([], [], []), writes);
    var t := Written(Tables([], [], []), writes);
    forall a, b | a in l.evaluations && b in l.evaluations && a.id == b.id ensures a == b {
      assert Filed(mission, a) in t.evaluations && Filed(mission, b) in t.evaluations;
    }
    forall a, b | a in l.candidates && b in l.candidates && a.id == b.id ensures a == b {
      assert Filed(mission, a) in t.candidates && Filed(mission, b) in t.candidates;
    }
    forall x, y | x in l.iterations && y in l.iterations && x.candidate.Some? && x.candidate == y.candidate ensures x == y {
      assert Filed(mission, x) in t.iterations && Filed(mission, y) in t.iterations;
    }
    forall x, y | x in l.iterations && y in l.iterations && x.id == y.id ensures x == y {
      assert Filed(mission, x) in t.iterations && Filed(mission, y) in t.iterations;
    }
    forall st | st in l.evaluations
      ensures exists it :: it in l.iterations && it.evaluation == Some(st.id) && it.candidate == Some(st.candidate)
    {
      assert Names(t.iterations, Filed(mission, st));
      var it :| it in t.iterations && it.mission == mission && it.row.evaluation == Some(st.id) && it.row.candidate == Some(st.candidate);
      assert it == Filed(mission, it.row) && it.row in l.iterations;
    }
  }

  /**
   The gate on stored lineages, in any read order and with nothing assumed: it opens exactly when the
   requested pair is the only qualifying one and no iteration of its candidate came from offline
   reinforcement learning.
   */
  lemma StoredGateIff(writes: seq<Write>, mission: string, a: Lineage, b: Lineage, requested: Pair)
    requires LineageOf(a, Written(Tables([], [], []), writes), mission) && Reordered(a, b)
    ensures Gate(a, requested) <==> Gate(b, requested)
    ensures Gate(a, requested)
            <==> && WellFormed(a) && (forall pair :: Qualifies(a, pair) <==> pair == requested)
                 && (forall it :: it in a.iterations && it.candidate == Some(requested.0) ==> it.engine != OfflineReinforcementLearning)
  {
    StoredLineagesAreUnique(writes, mission, a);
    GateIgnoresOrder(a, b, requested);
    OneIterationGateIff(a, requested);
  }

  lemma {:induction false} FirstIterationKept(iterations: seq<Iteration>, more: Iteration, candidate: string)
    requires FirstIteration(iterations, candidate).Some?
    ensures FirstIteration(iterations + [more], candidate) == FirstIteration(iterations, candidate)
  {
    assert (iterations + [more])[1..] == iterations[1..] + [more];
    if iterations[0].candidate != Some(candidate) { FirstIterationKept(iterations[1..], more, candidate); }
  }

  lemma DroppedChangesNoEvidence(a: Lineage, b: Lineage, dropped: Iteration, pair: Pair)
    requires dropped.verdict == Discard && b == a.(iterations := b.iterations)
    requires forall it :: it in b.iterations <==> it in a.iterations || it == dropped
    ensures Qualifies(b, pair) <==> Qualifies(a, pair)
    ensures WellFormed(b) <==> WellFormed(a)
  {
    forall it, st, c ensures Joined(b, it, st, c) <==> Joined(a, it, st, c) {}
    if it, st, c :| Joined(a, it, st, c) && Proves(a, st, pair) { assert Joined(b, it, st, c) && Proves(b, st, pair); }
    if it, st, c :| Joined(b, it, st, c) && Proves(b, st, pair) { assert Joined(a, it, st, c) && Proves(a, st, pair); }
  }

  /**
   Why the store's rule matters: were a candidate ever to gain a second, discarded iteration, listing
   it first would close the gate while listing it last would not.
   */
  lemma OneIterationIsNeeded(l: Lineage, requested: Pair, dropped: Iteration)
    requires UniqueIds(l) && Gate(l, requested) && dropped.verdict == Discard && dropped.candidate == Some(requested.0)
    ensures var last := l.(iterations := l.iterations + [dropped]);
            var first := l.(iterations := [dropped] + l.iterations);
            Reordered(last, first) && !OneIteration(last) && Gate(last, requested) && !Gate(first, requested)
  {
    var last := l.(iterations := l.iterations + [dropped]);
    GateIff(l, requested);
    GateIff(last, requested);
    FirstIterationKept(l.iterations, dropped, requested.0);
    FoundIteration(l.iterations, requested.0);
    DroppedChangesNoEvidence(l, last, dropped, requested);
    forall pair ensures Qualifies(last, pair) <==> pair == requested {
      DroppedChangesNoEvidence(l, last, dropped, pair);
      assert Qualifies(l, pair) <==> pair == requested;
    }
    var kept := FirstIteration(l.iterations, requested.0).value;
    assert kept in last.iterations && dropped in last.iterations && kept != dropped;
  }
}
