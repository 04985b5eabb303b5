/**
 The bounded follow-up history of a research plan. Identifiers are ideal digests: a revision
 identifier is either the digest of what it names or some unrelated text.
 */
module PlanHistory {
  import opened Prelude

  const MaxGeneration: nat := 3

  datatype Sizing = CostAware | PredictionIdentity | HystereticCostAware

  datatype Failure = NoTradesAfterCosts | OvertradeCapacity | PositiveIcNegativeNet

  /** A typed research delta; which ones the bounded grammar admits is a parameter below. */
  datatype Delta = Delta(fields: seq<string>, operators: seq<string>, windows: seq<nat>, ridge: real, depth: nat, leaf: nat)

  /** What a revision identifier digests: a legacy revision names its parent, a typed one does not. */
  datatype Semantic =
    | Legacy(schema: Schema, parent: Option<Id>, sizing: Sizing)
    | Typed(sizing: Sizing, delta: Option<Delta>)

  datatype Id = Digest(of: Semantic) | Text(text: string)

  datatype Schema = SchemaV1 | SchemaV2 | OtherSchema(text: string)

  datatype Revision = Revision(schema: Schema, id: Id, parent: Option<Id>, sizing: Sizing, delta: Option<Delta>)

  datatype Parent = Parent(campaign: string, requestSha: string, resultSha: string)

  datatype DirectiveId =
    | DirectiveDigest(parent: Parent, failure: Failure, rollback: Id, search: Id)
    | DirectiveText(text: string)

  datatype Directive = Directive(schemaOk: bool, id: DirectiveId, parent: Parent, failure: Failure, rollback: Id, search: Id)

  datatype Evidence = Evidence(schemaOk: bool, inputs: string, revision: Id, fields: string, factors: string, feedback: string)

  datatype Llm = Llm(provider: string, model: string, promptSha: string, promptTokens: nat, completionTokens: nat, totalTokens: nat)

  datatype Plan = Plan(
    generation: nat, revision: Revision, attempted: seq<Id>, allowed: seq<Revision>,
    evidence: Option<Evidence>, parent: Option<Parent>, directive: Option<Directive>, llm: Option<Llm>)

  // ----- Text rules -----

  predicate StartsWith(s: string, prefix: string) {
    prefix <= s
  }

  predicate PolicyId(id: Id) {
    id.Digest? || StartsWith(id.text, "cex-search-policy-")
  }

  predicate BlankId(id: Id) {
    id.Text? && Blank(id.text)
  }

  predicate LineOk(s: string, max: nat) {
    !Blank(s) && Utf8Length(s) <= max && forall i :: 0 <= i < |s| ==> !Control(s[i])
  }

  // ----- Revisions -----

  function ExpectedId(r: Revision): Id {
    if r.schema == SchemaV2 then Digest(Typed(r.sizing, r.delta)) else Digest(Legacy(r.schema, r.parent, r.sizing))
  }

  predicate RevisionValid(r: Revision, admitted: Delta -> bool) {
    && (r.schema == SchemaV1 || r.schema == SchemaV2) && r.id == ExpectedId(r)
    && (r.parent.Some? ==> !BlankId(r.parent.value) && r.parent.value != r.id)
    && (r.schema == SchemaV1 ==> r.delta.None?)
    && (r.schema == SchemaV2 ==> r.delta.Some? && admitted(r.delta.value))
  }

  function Canonical(): Revision {
    Revision(SchemaV1, Digest(Legacy(SchemaV1, None, CostAware)), None, CostAware, None)
  }

  /** `new_typed`: a typed revision with its digest; it may still be refused by `RevisionValid`. */
  function NewTyped(parent: Option<Id>, sizing: Sizing, delta: Delta): Revision {
    Revision(SchemaV2, Digest(Typed(sizing, Some(delta))), parent, sizing, Some(delta))
  }

  predicate SameConfiguration(a: Revision, b: Revision) {
    a.schema == b.schema && a.id == b.id && a.sizing == b.sizing && a.delta == b.delta
  }

  function Find(revisions: seq<Revision>, id: Id): Option<Revision> {
    if revisions == [] then None
    else if revisions[0].id == id then Some(revisions[0])
    else Find(revisions[1..], id)
  }

  // ----- `validate`: allowlist, history and directive -----

  predicate Allows(allowed: seq<Revision>, id: Id) {
    exists i :: 0 <= i < |allowed| && allowed[i].id == id
  }

  predicate AllowlistValid(plan: Plan, admitted: Delta -> bool) {
    && plan.allowed != []
    && (forall i :: 0 <= i < |plan.allowed| ==> RevisionValid(plan.allowed[i], admitted))
    && (forall i :: 1 <= i < |plan.allowed| ==> plan.allowed[i].delta.Some?)
    && (forall i, j :: 0 <= i < j < |plan.allowed| ==> plan.allowed[i].id != plan.allowed[j].id)
    && plan.allowed[0].id == Canonical().id
    && Allows(plan.allowed, plan.revision.id)
  }

  predicate HistoryValid(plan: Plan) {
    && |plan.attempted| == plan.generation + 1 && Distinct(plan.attempted)
    && plan.attempted[0] == Canonical().id && plan.attempted[plan.generation] == plan.revision.id
    && (forall i :: 0 <= i < |plan.attempted| ==> PolicyId(plan.attempted[i]) && Allows(plan.allowed, plan.attempted[i]))
    && (plan.revision.parent.Some? ==> plan.revision.parent.value in plan.attempted)
  }

  function Preferred(failure: Failure): Sizing {
    match failure
    case NoTradesAfterCosts => PredictionIdentity
    case OvertradeCapacity => HystereticCostAware
    case PositiveIcNegativeNet => HystereticCostAware
  }

  predicate ParentValid(p: Parent) {
    && StartsWith(p.campaign, "cex-campaign-") && |p.campaign| <= 63
    && (forall i :: 0 <= i < |p.campaign| ==> 'a' <= p.campaign[i] <= 'z' || '0' <= p.campaign[i] <= '9' || p.campaign[i] == '-')
    && IsSha(p.requestSha) && IsSha(p.resultSha)
  }

  predicate DirectiveValid(d: Directive) {
    && d.schemaOk && d.id == DirectiveDigest(d.parent, d.failure, d.rollback, d.search)
    && StartsWith(d.parent.campaign, "cex-campaign-") && IsSha(d.parent.requestSha) && IsSha(d.parent.resultSha)
    && !BlankId(d.rollback) && !BlankId(d.search) && d.rollback != d.search
  }

  predicate EvidenceValid(e: Evidence) {
    e.schemaOk && IsSha(e.inputs) && PolicyId(e.revision) && IsSha(e.fields) && IsSha(e.factors) && IsSha(e.feedback)
  }

  predicate LlmValid(llm: Llm) {
    && LineOk(llm.provider, 256) && LineOk(llm.model, 256) && IsSha(llm.promptSha)
    && llm.promptTokens > 0 && llm.completionTokens > 0
    && llm.totalTokens == (if llm.promptTokens + llm.completionTokens <= MaxU64 then llm.promptTokens + llm.completionTokens else MaxU64)
  }

  /** The directive names the parent and the revision, rolls back to the revision's parent and asks for its sizing. */
  predicate DirectiveBinds(plan: Plan, parent: Parent, d: Directive) {
    && d.parent == parent && d.search == plan.revision.id && plan.revision.parent == Some(d.rollback)
    && plan.revision.sizing == Preferred(d.failure)
    && var declared := Find(plan.allowed, plan.revision.id); declared.Some? && SameConfiguration(declared.value, plan.revision)
  }

  predicate LineageValid(plan: Plan) {
    match (plan.parent, plan.directive)
    case (None, None) => plan.llm.None? && plan.generation == 0 && plan.evidence.None? && plan.revision == Canonical()
    case (Some(parent), Some(d)) =>
      && 0 < plan.generation <= MaxGeneration && ParentValid(parent) && DirectiveValid(d)
      && plan.evidence.Some? && EvidenceValid(plan.evidence.value)
      && DirectiveBinds(plan, parent, d) && (plan.llm.Some? ==> LlmValid(plan.llm.value))
    case _ => false
  }

  predicate Valid(plan: Plan, admitted: Delta -> bool) {
    RevisionValid(plan.revision, admitted) && AllowlistValid(plan, admitted) && HistoryValid(plan) && LineageValid(plan)
  }

  // ----- Follow-ups -----

  /** The follow-up that retries `candidate` after `failure` of this plan's campaign. */
  function FollowUp(plan: Plan, candidate: Revision, failure: Failure, parent: Parent, evidence: Evidence): Plan
    requires candidate.delta.Some?
  {
    var revision := NewTyped(Some(plan.revision.id), candidate.sizing, candidate.delta.value);
    var directive := Directive(true, DirectiveDigest(parent, failure, plan.revision.id, revision.id),
                               parent, failure, plan.revision.id, revision.id);
    Plan(plan.generation + 1, revision, plan.attempted + [revision.id], plan.allowed,
         Some(evidence), Some(parent), Some(directive), None)
  }

  /** The untried allowlisted revisions with the sizing that a failure calls for. */
  predicate Eligible(plan: Plan, failure: Failure, r: Revision) {
    r in plan.allowed && r.sizing == Preferred(failure) && r.id !in plan.attempted
  }

  /** A typed revision keeps its identifier under any parent; a legacy one never does. */
  lemma IdIgnoresParentIffTyped(r: Revision, parent: Option<Id>)
    requires r.parent != parent
    ensures ExpectedId(r.(parent := parent)) == ExpectedId(r) <==> r.schema == SchemaV2
  {}

  lemma {:induction false} FindsTheOnlyOne(revisions: seq<Revision>, i: nat)
    requires i < |revisions| && forall j, k :: 0 <= j < k < |revisions| ==> revisions[j].id != revisions[k].id
    ensures Find(revisions, revisions[i].id) == Some(revisions[i])
  {
    if i > 0 {
      assert revisions[0].id != revisions[i].id;
      FindsTheOnlyOne(revisions[1..], i - 1);
    }
  }

  /** Every eligible revision is typed, and rebuilding it under a new parent gives the declared identifier. */
  lemma EligibleIsTyped(plan: Plan, admitted: Delta -> bool, failure: Failure, r: Revision)
    requires Valid(plan, admitted) && Eligible(plan, failure, r)
    ensures r.schema == SchemaV2 && r.delta.Some? && admitted(r.delta.value)
    ensures NewTyped(Some(plan.revision.id), r.sizing, r.delta.value).id == r.id
  {
    var i :| 0 <= i < |plan.allowed| && plan.allowed[i] == r;
    assert RevisionValid(plan.allowed[i], admitted);
  }

  lemma FollowUpHistory(plan: Plan, admitted: Delta -> bool, candidate: Revision, failure: Failure, parent: Parent, evidence: Evidence)
    requires Valid(plan, admitted) && candidate in plan.allowed && candidate.delta.Some?
    ensures var next := FollowUp(plan, candidate, failure, parent, evidence);
            && AllowlistValid(next, admitted) && next.revision.id == candidate.id
            && (RevisionValid(next.revision, admitted) && HistoryValid(next) <==> candidate.id !in plan.attempted)
  {
    var next := FollowUp(plan, candidate, failure, parent, evidence);
    var i :| 0 <= i < |plan.allowed| && plan.allowed[i] == candidate;
    assert RevisionValid(plan.allowed[i], admitted);
    assert next.allowed[i].id == next.revision.id;
    var n := |plan.attempted|;
    assert plan.revision.id == plan.attempted[plan.generation];
    if candidate.id in plan.attempted {
      var k :| 0 <= k < n && plan.attempted[k] == candidate.id;
      assert next.attempted[k] == next.attempted[n];
    } else {
      forall k | 0 <= k < |next.attempted|
        ensures PolicyId(next.attempted[k]) && Allows(next.allowed, next.attempted[k])
      {
        if k < n { assert Allows(plan.allowed, plan.attempted[k]); }
      }
      assert next.attempted[plan.generation] == plan.revision.id;
    }
  }

  /**
   Exactly when a follow-up passes: below the generation bound, with an untried revision, with the
   sizing the failure calls for, and with well-formed parent and evidence bindings.
   */
  lemma FollowUpValidIff(plan: Plan, admitted: Delta -> bool, candidate: Revision, failure: Failure, parent: Parent, evidence: Evidence)
    requires Valid(plan, admitted) && candidate in plan.allowed && candidate.delta.Some?
    ensures Valid(FollowUp(plan, candidate, failure, parent, evidence), admitted)
            <==> plan.generation < MaxGeneration && candidate.id !in plan.attempted && candidate.sizing == Preferred(failure)
                 && ParentValid(parent) && EvidenceValid(evidence)
  {
    var next := FollowUp(plan, candidate, failure, parent, evidence);
    FollowUpHistory(plan, admitted, candidate, failure, parent, evidence);
    var i :| 0 <= i < |plan.allowed| && plan.allowed[i] == candidate;
    FindsTheOnlyOne(plan.allowed, i);
    assert RevisionValid(plan.allowed[i], admitted);
    if candidate.id !in plan.attempted {
      assert plan.revision.id in plan.attempted;
      assert !BlankId(plan.revision.id);
    }
  }

  // ----- What any valid plan says, however it was made -----

  lemma RevisionIsTyped(plan: Plan, admitted: Delta -> bool)
    requires RevisionValid(plan.revision, admitted) && AllowlistValid(plan, admitted) && plan.revision.sizing != CostAware
    ensures plan.revision.schema == SchemaV2
  {
    var i :| 0 <= i < |plan.allowed| && plan.allowed[i].id == plan.revision.id;
    assert RevisionValid(plan.allowed[i], admitted);
  }

  /**
   A valid plan, field by field: its history, and either no lineage at all on the canonical policy or a
   parent and a directive that bind a typed, allowlisted revision rolled back to an earlier attempt.
   */
  lemma ValidPlanMeans(plan: Plan, admitted: Delta -> bool)
    requires Valid(plan, admitted)
    ensures plan.generation <= 3 && |plan.attempted| == plan.generation + 1
    ensures forall i, j :: 0 <= i < j <= plan.generation ==> plan.attempted[i] != plan.attempted[j]
    ensures plan.attempted[0] == Digest(Legacy(SchemaV1, None, CostAware)) && plan.attempted[plan.generation] == plan.revision.id
    ensures forall i :: 0 <= i <= plan.generation ==> exists k :: 0 <= k < |plan.allowed| && plan.allowed[k].id == plan.attempted[i]
    ensures plan.generation == 0 ==>
              plan.parent.None? && plan.directive.None? && plan.evidence.None? && plan.llm.None?
              && plan.revision == Revision(SchemaV1, Digest(Legacy(SchemaV1, None, CostAware)), None, CostAware, None)
    ensures plan.generation > 0 ==>
              && plan.parent.Some? && plan.directive.Some? && plan.evidence.Some?
              && var r, d, p, e := plan.revision, plan.directive.value, plan.parent.value, plan.evidence.value;
              && r.schema == SchemaV2 && r.delta.Some? && admitted(r.delta.value) && r.id == Digest(Typed(r.sizing, r.delta))
              && r.sizing == (if d.failure == NoTradesAfterCosts then PredictionIdentity else HystereticCostAware)
              && d.id == DirectiveDigest(p, d.failure, d.rollback, r.id) && d.parent == p && d.search == r.id
              && r.parent == Some(d.rollback) && d.rollback != r.id && d.rollback in plan.attempted
              && (exists k :: 0 <= k < |plan.allowed| && plan.allowed[k] == r.(parent := plan.allowed[k].parent))
              && "cex-campaign-" <= p.campaign && |p.campaign| <= 63 && IsSha(p.requestSha) && IsSha(p.resultSha)
              && (forall i :: 0 <= i < |p.campaign| ==> p.campaign[i] in "abcdefghijklmnopqrstuvwxyz0123456789-")
              && IsSha(e.inputs) && IsSha(e.fields) && IsSha(e.factors) && IsSha(e.feedback)
              && (e.revision.Text? ==> "cex-search-policy-" <= e.revision.text)
    ensures forall k :: 0 <= k < |plan.allowed| && plan.allowed[k].parent.Some? ==> plan.allowed[k].parent.value != plan.allowed[k].id
    ensures plan.llm.Some? ==>
              var l := plan.llm.value;
              && l.promptTokens > 0 && l.completionTokens > 0 && IsSha(l.promptSha) && !Blank(l.provider) && !Blank(l.model)
              && Utf8Length(l.provider) <= 256 && Utf8Length(l.model) <= 256
              && (forall i :: 0 <= i < |l.provider| ==> !Control(l.provider[i])) && (forall i :: 0 <= i < |l.model| ==> !Control(l.model[i]))
              && l.totalTokens == (if l.promptTokens + l.completionTokens < MaxU64 then l.promptTokens + l.completionTokens else MaxU64)
  {
    if plan.generation > 0 {
      CampaignLetters(plan.parent.value);
      RevisionIsTyped(plan, admitted);
      var k := FoundIsListed(plan.allowed, plan.revision.id);
      assert plan.allowed[k] == plan.revision.(parent := plan.allowed[k].parent);
    }
  }

  lemma CampaignLetters(p: Parent)
    requires ParentValid(p)
    ensures forall i :: 0 <= i < |p.campaign| ==> p.campaign[i] in "abcdefghijklmnopqrstuvwxyz0123456789-"
  {
    forall i | 0 <= i < |p.campaign| ensures p.campaign[i] in "abcdefghijklmnopqrstuvwxyz0123456789-" {
      var c := p.campaign[i];
      var letters := "abcdefghijklmnopqrstuvwxyz0123456789-";
      if 'a' <= c <= 'z' {
        assert letters[c as int - 'a' as int] == c;
      } else if '0' <= c <= '9' {
        assert letters[26 + (c as int - '0' as int)] == c;
      } else {
        assert letters[36] == c;
      }
    }
  }

  lemma {:induction false} FoundIsListed(revisions: seq<Revision>, id: Id) returns (k: nat)
    requires Find(revisions, id).Some?
    ensures k < |revisions| && Find(revisions, id) == Some(revisions[k])
  {
    k := 0;
    if revisions[0].id != id {
      var j := FoundIsListed(revisions[1..], id);
      k := j + 1;
    }
  }

  // ----- Chains -----

  /** A campaign and the follow-ups it led to, each built from the one before. */
  ghost predicate Chain(plans: seq<Plan>, admitted: Delta -> bool) {
    && |plans| > 0 && plans[0].generation == 0
    && (forall i :: 0 <= i < |plans| ==> Valid(plans[i], admitted))
    && (forall i :: 0 <= i < |plans| - 1 ==> Extends(plans[i], plans[i + 1]))
  }

  ghost predicate Extends(plan: Plan, next: Plan) {
    exists candidate: Revision, failure, parent, evidence ::
      candidate.delta.Some? && next == FollowUp(plan, candidate, failure, parent, evidence)
  }

  lemma {:induction false} ChainHistory(plans: seq<Plan>, admitted: Delta -> bool, i: nat, k: nat)
    requires Chain(plans, admitted) && k <= i < |plans|
    ensures plans[i].generation == i && plans[i].allowed == plans[0].allowed && |plans[i].attempted| == i + 1
    ensures plans[i].attempted[k] == plans[k].revision.id
    decreases i
  {
    if i > 0 {
      ChainHistory(plans, admitted, i - 1, if k < i then k else 0);
      assert Extends(plans[i - 1], plans[i]);
    }
  }

  /**
   Every chain of valid follow-ups has at most four plans, starts at the canonical policy, never
   tries a policy revision twice, and stays inside the first plan's allowlist; each follow-up's
   revision rolls back to the revision just before it.
   */
  lemma {:induction false} ChainsAreBounded(plans: seq<Plan>, admitted: Delta -> bool)
    requires Chain(plans, admitted)
    ensures |plans| <= MaxGeneration + 1
    ensures plans[0].revision == Canonical()
    ensures forall i, j :: 0 <= i < j < |plans| ==> plans[i].revision.id != plans[j].revision.id
    ensures forall i :: 0 <= i < |plans| ==> Allows(plans[0].allowed, plans[i].revision.id)
    ensures forall i :: 0 < i < |plans| ==> plans[i].revision.parent == Some(plans[i - 1].revision.id)
  {
    var last := |plans| - 1;
    ChainHistory(plans, admitted, last, 0);
    assert Valid(plans[last], admitted);
    forall i, j | 0 <= i < j < |plans| ensures plans[i].revision.id != plans[j].revision.id {
      ChainHistory(plans, admitted, j, i);
      ChainHistory(plans, admitted, j, j);
      assert Valid(plans[j], admitted);
    }
    forall i | 0 <= i < |plans| ensures Allows(plans[0].allowed, plans[i].revision.id) {
      ChainHistory(plans, admitted, i, 0);
      assert Valid(plans[i], admitted);
    }
    forall i | 0 < i < |plans| ensures plans[i].revision.parent == Some(plans[i - 1].revision.id) {
      assert Extends(plans[i - 1], plans[i]);
    }
  }

  // ----- A chain can always be continued while alternatives remain -----

  ghost function IdsWith(allowed: seq<Revision>, sizing: Sizing): set<Id> {
    set i | 0 <= i < |allowed| && allowed[i].sizing == sizing :: allowed[i].id
  }

  /** More revisions of the right sizing than attempts so far leave one to try, and trying it is valid. */
  lemma {:induction false} ChainCanContinue(plan: Plan, admitted: Delta -> bool, failure: Failure, parent: Parent, evidence: Evidence)
    returns (candidate: Revision)
    requires Valid(plan, admitted) && plan.generation < MaxGeneration && ParentValid(parent) && EvidenceValid(evidence)
    requires |IdsWith(plan.allowed, Preferred(failure))| > |plan.attempted|
    ensures Eligible(plan, failure, candidate) && candidate.delta.Some?
    ensures Valid(FollowUp(plan, candidate, failure, parent, evidence), admitted)
  {
    var tried := Members(plan.attempted);
    MembersAtMostLength(plan.attempted);
    var ids := IdsWith(plan.allowed, Preferred(failure));
    if ids <= tried { SubsetSize(ids, tried); }
    var id :| id in ids && id !in tried;
    var i :| 0 <= i < |plan.allowed| && plan.allowed[i].sizing == Preferred(failure) && plan.allowed[i].id == id;
    candidate := plan.allowed[i];
    EligibleIsTyped(plan, admitted, failure, candidate);
    FollowUpValidIff(plan, admitted, candidate, failure, parent, evidence);
  }
}
