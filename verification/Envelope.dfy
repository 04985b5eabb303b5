/**
 Signed deployment envelopes. Digests and signatures are ideal: a digest is the value it was taken
 of, and a signature is the key and message that made it.
 */
module Envelope {
  import opened Prelude
  import opened Sorting

  // ----- Numbers as the wire carries them: IEEE values, with a signed zero -----

  datatype Float = Finite(value: real) | NegativeZero | PositiveInfinity | NegativeInfinity | NaN

  function Number(f: Float): real {
    if f.Finite? then f.value else 0.0
  }

  /** Finite and not below zero; minus zero passes. */
  predicate LimitOk(f: Float) {
    f.NegativeZero? || (f.Finite? && f.value >= 0.0)
  }

  /** The IEEE `>`. */
  predicate Exceeds(a: Float, b: Float) {
    match (a, b)
    case (NaN, _) => false
    case (_, NaN) => false
    case (PositiveInfinity, _) => !b.PositiveInfinity?
    case (_, PositiveInfinity) => false
    case (NegativeInfinity, _) => false
    case (_, NegativeInfinity) => true
    case _ => Number(a) > Number(b)
  }

  datatype Limits = Limits(notional: Float, exposure: Float, order: Float, slippage: Float)

  predicate LimitsOk(l: Limits) {
    LimitOk(l.notional) && LimitOk(l.exposure) && LimitOk(l.order) && LimitOk(l.slippage)
  }

  predicate LimitsExceed(a: Limits, b: Limits) {
    Exceeds(a.notional, b.notional) || Exceeds(a.exposure, b.exposure) || Exceeds(a.order, b.order) || Exceeds(a.slippage, b.slippage)
  }

  /** The same four amounts, whatever the sign of a zero. */
  predicate SameAmounts(a: Limits, b: Limits) {
    Number(a.notional) == Number(b.notional) && Number(a.exposure) == Number(b.exposure)
    && Number(a.order) == Number(b.order) && Number(a.slippage) == Number(b.slippage)
  }

  // ----- Envelopes -----

  datatype Intent =
    | LoadProbabilityReversal | LoadFactor | LoadModel | LoadAllocatorPolicy | StartPaper | StartShadow | StartLiveSmall

  datatype ApprovalClass = PaperClass | ShadowClass | HumanApprovedLiveSmall | SameClassAutoLiveSmall

  /** Everything a signature covers. */
  datatype Payload = Payload(
    deployment: string, asset: string, promotion: string, promotionHash: string, bundle: string, bundleHash: string,
    configHash: string, riskHash: string, account: string, venue: string,
    instruments: seq<string>, intents: seq<Intent>, limits: Limits,
    validFrom: int, expiresAt: int, nonce: string, approvalClass: ApprovalClass, approvals: seq<string>)

  datatype PayloadHash = PayloadDigest(of: Payload) | OtherHash(text: string)

  datatype Envelope = Envelope(payload: Payload, hash: PayloadHash)

  datatype Signature = SignatureBy(key: int, message: PayloadHash) | OtherBytes(bytes: seq<int>) | Malformed(text: string)

  datatype Signed = Signed(envelope: Envelope, keyId: string, signature: Signature)

  /** The canonical deployment scope: what an approval approves. */
  datatype Scope = Scope(account: string, venue: string, instruments: seq<string>, intents: seq<Intent>, limits: Limits)

  datatype ScopeHash = ScopeDigest(of: Scope) | OtherScope(text: string)

  datatype Approval = Approval(
    id: string, approvalClass: ApprovalClass, subject: string, scope: ScopeHash, signer: string,
    validFrom: int, expiresAt: int, revokedAt: Option<int>)

  datatype Policy = Policy(
    account: string, venue: string, instruments: seq<string>, intents: seq<Intent>,
    configHash: string, riskHash: string, limits: Limits, approvals: seq<Approval>)

  datatype Error =
    | EmptyField | InvalidDeploymentHash | InvalidDeploymentLimit | InvalidValidityWindow | NotYetValid | Expired
    | PayloadHashMismatch | UnknownSigningKey | InvalidSignature | InvalidSignatureEncoding | NonceReplay
    | RuntimeBindingMismatch | RuntimeLimitExceeded | ApprovalEvidenceMismatch

  datatype Result<+T> = Ok(value: T) | Err(error: Error)

  predicate AnyBlank(s: seq<string>) {
    exists i :: 0 <= i < |s| && Blank(s[i])
  }

  // ----- Validation, first error first -----

  function Texts(p: Payload): seq<string> {
    [p.deployment, p.asset, p.promotion, p.promotionHash, p.bundle, p.bundleHash, p.configHash, p.riskHash, p.account, p.venue, p.nonce]
  }

  function PayloadError(p: Payload): Option<Error> {
    if AnyBlank(Texts(p)) then Some(EmptyField)
    else if !IsSha(p.promotionHash) || !IsSha(p.bundleHash) || !IsSha(p.configHash) || !IsSha(p.riskHash)
    then Some(InvalidDeploymentHash)
    else if p.instruments == [] || AnyBlank(p.instruments) || p.intents == [] || p.approvals == [] || AnyBlank(p.approvals)
    then Some(EmptyField)
    else if !LimitsOk(p.limits) then Some(InvalidDeploymentLimit)
    else if p.validFrom >= p.expiresAt then Some(InvalidValidityWindow)
    else None
  }

  function ApprovalError(a: Approval): Option<Error> {
    if AnyBlank([a.id, a.subject, a.signer]) then Some(EmptyField)
    else if a.scope.OtherScope? && !IsSha(a.scope.text) then Some(InvalidDeploymentHash)
    else if a.approvalClass == SameClassAutoLiveSmall || a.validFrom >= a.expiresAt
            || (a.revokedAt.Some? && a.revokedAt.value < a.validFrom) then Some(ApprovalEvidenceMismatch)
    else None
  }

  /** The approvals in turn, each valid and none repeating an identifier in `seen`. */
  function ApprovalsError(approvals: seq<Approval>, seen: set<string>): Option<Error>
    decreases approvals
  {
    if approvals == [] then None
    else if ApprovalError(approvals[0]).Some? then ApprovalError(approvals[0])
    else if approvals[0].id in seen then Some(ApprovalEvidenceMismatch)
    else ApprovalsError(approvals[1..], seen + {approvals[0].id})
  }

  function PolicyHeadError(p: Policy): Option<Error> {
    if AnyBlank([p.account, p.venue, p.configHash, p.riskHash]) then Some(EmptyField)
    else if !IsSha(p.configHash) || !IsSha(p.riskHash) then Some(InvalidDeploymentHash)
    else if p.instruments == [] || AnyBlank(p.instruments) || p.intents == [] then Some(RuntimeBindingMismatch)
    else None
  }

  function PolicyError(p: Policy): Option<Error> {
    if PolicyHeadError(p).Some? then PolicyHeadError(p)
    else if ApprovalsError(p.approvals, {}).Some? then ApprovalsError(p.approvals, {})
    else if !LimitsOk(p.limits) then Some(InvalidDeploymentLimit)
    else None
  }

  method ValidateRuntimePolicy(p: Policy) returns (error: Option<Error>)
    ensures error == PolicyError(p)
  {
    if PolicyHeadError(p).Some? { return PolicyHeadError(p); }
    var seen: set<string> := {};
    var i := 0;
    assert p.approvals[0..] == p.approvals;
    while i < |p.approvals|
      invariant i <= |p.approvals|
      invariant ApprovalsError(p.approvals[i..], seen) == ApprovalsError(p.approvals, {})
    {
      var approval := p.approvals[i];
      assert p.approvals[i..][1..] == p.approvals[i + 1..];
      if ApprovalError(approval).Some? { return ApprovalError(approval); }
      if approval.id in seen { return Some(ApprovalEvidenceMismatch); }
      seen := seen + {approval.id};
      i := i + 1;
    }
    return if !LimitsOk(p.limits) then Some(InvalidDeploymentLimit) else None;
  }

  // ----- Scope -----

  function IntentKey(i: Intent): nat {
    match i
    case LoadFactor => 0
    case LoadModel => 1
    case LoadAllocatorPolicy => 2
    case StartPaper => 3
    case StartShadow => 4
    case StartLiveSmall => 5
    case LoadProbabilityReversal => 6
  }

  predicate IntentLe(a: Intent, b: Intent) {
    IntentKey(a) <= IntentKey(b)
  }

  function ScopeOf(p: Payload): Scope {
    Scope(p.account, p.venue, NormalForm(p.instruments, TextLe), NormalForm(p.intents, IntentLe), p.limits)
  }

  // ----- Signing and verifying -----

  function Sign(envelope: Envelope, keyId: string, key: int): Result<Signed> {
    if PayloadError(envelope.payload).Some? then Err(PayloadError(envelope.payload).value)
    else if Blank(keyId) then Err(EmptyField)
    else
      var hash := PayloadDigest(envelope.payload);
      Ok(Signed(Envelope(envelope.payload, hash), keyId, SignatureBy(key, hash)))
  }

  predicate ActiveAt(a: Approval, now: int) {
    a.validFrom <= now < a.expiresAt && (a.revokedAt.Some? ==> now < a.revokedAt.value)
  }

  function FindApproval(approvals: seq<Approval>, id: string): Option<Approval> {
    if approvals == [] then None
    else if approvals[0].id == id then Some(approvals[0])
    else FindApproval(approvals[1..], id)
  }

  predicate Approves(a: Approval, p: Payload, now: int) {
    ActiveAt(a, now) && a.approvalClass == p.approvalClass && a.subject == p.promotion && a.scope == ScopeDigest(ScopeOf(p))
  }

  function RuntimeApprovalsError(p: Payload, ids: seq<string>, approvals: seq<Approval>, now: int): Option<Error>
    decreases ids
  {
    if ids == [] then None
    else
      match FindApproval(approvals, ids[0])
      case None => Some(ApprovalEvidenceMismatch)
      case Some(a) =>
        if !Approves(a, p, now) then Some(ApprovalEvidenceMismatch) else RuntimeApprovalsError(p, ids[1..], approvals, now)
  }

  /** The checks on an authentic envelope, in order. */
  function RuntimeError(p: Payload, policy: Policy, now: int, consumed: bool): Option<Error> {
    if now < p.validFrom then Some(NotYetValid)
    else if now >= p.expiresAt then Some(Expired)
    else if consumed then Some(NonceReplay)
    else if p.account != policy.account || p.venue != policy.venue || p.configHash != policy.configHash
            || p.riskHash != policy.riskHash
            || (exists i :: 0 <= i < |p.instruments| && p.instruments[i] !in policy.instruments)
            || (exists i :: 0 <= i < |p.intents| && p.intents[i] !in policy.intents)
    then Some(RuntimeBindingMismatch)
    else if LimitsExceed(p.limits, policy.limits) then Some(RuntimeLimitExceeded)
    else if p.approvalClass == SameClassAutoLiveSmall then Some(ApprovalEvidenceMismatch)
    else RuntimeApprovalsError(p, p.approvals, policy.approvals, now)
  }

  function AuthenticityError(s: Signed, keys: map<string, int>): Option<Error> {
    if s.envelope.hash != PayloadDigest(s.envelope.payload) then Some(PayloadHashMismatch)
    else if s.keyId !in keys then Some(UnknownSigningKey)
    else if s.signature.Malformed? then Some(InvalidSignatureEncoding)
    else if s.signature != SignatureBy(keys[s.keyId], s.envelope.hash) then Some(InvalidSignature)
    else None
  }

  function Verify(s: Signed, keys: map<string, int>, policy: Policy, now: int, consumed: string -> bool): Result<Envelope> {
    var p := s.envelope.payload;
    if PayloadError(p).Some? then Err(PayloadError(p).value)
    else if PolicyError(policy).Some? then Err(PolicyError(policy).value)
    else if Blank(s.keyId) then Err(EmptyField)
    else if AuthenticityError(s, keys).Some? then Err(AuthenticityError(s, keys).value)
    else if RuntimeError(p, policy, now, consumed(p.nonce)).Some? then Err(RuntimeError(p, policy, now, consumed(p.nonce)).value)
    else Ok(s.envelope)
  }

  // ----- The declarative gate, in its own words -----

  ghost predicate HasText(s: string) {
    exists i :: 0 <= i < |s| && !Whitespace(s[i])
  }

  ghost predicate AllHaveText(s: seq<string>) {
    forall x :: x in s ==> HasText(x)
  }

  /** A finite number that is not negative; minus zero is one. */
  ghost predicate Amount(f: Float) {
    !f.NaN? && !f.PositiveInfinity? && !f.NegativeInfinity? && Number(f) >= 0.0
  }

  ghost predicate Amounts(l: Limits) {
    Amount(l.notional) && Amount(l.exposure) && Amount(l.order) && Amount(l.slippage)
  }

  ghost predicate PayloadOk(p: Payload) {
    && AllHaveText([p.deployment, p.asset, p.promotion, p.promotionHash, p.bundle, p.bundleHash, p.configHash, p.riskHash,
                    p.account, p.venue, p.nonce])
    && IsSha(p.promotionHash) && IsSha(p.bundleHash) && IsSha(p.configHash) && IsSha(p.riskHash)
    && |p.instruments| > 0 && AllHaveText(p.instruments) && |p.intents| > 0
    && |p.approvals| > 0 && AllHaveText(p.approvals)
    && Amounts(p.limits) && p.validFrom < p.expiresAt
  }

  ghost predicate ApprovalOk(a: Approval) {
    && AllHaveText([a.id, a.subject, a.signer])
    && (a.scope.OtherScope? ==> IsSha(a.scope.text))
    && (a.approvalClass == PaperClass || a.approvalClass == ShadowClass || a.approvalClass == HumanApprovedLiveSmall)
    && a.validFrom < a.expiresAt && (a.revokedAt.Some? ==> a.validFrom <= a.revokedAt.value)
  }

  ghost predicate PolicyValid(p: Policy) {
    && AllHaveText([p.account, p.venue, p.configHash, p.riskHash]) && IsSha(p.configHash) && IsSha(p.riskHash)
    && |p.instruments| > 0 && AllHaveText(p.instruments) && |p.intents| > 0
    && Amounts(p.limits) && (forall a :: a in p.approvals ==> ApprovalOk(a))
    && (forall i, j :: 0 <= i < j < |p.approvals| ==> p.approvals[i].id != p.approvals[j].id)
  }

  ghost predicate Authentic(s: Signed, keys: map<string, int>) {
    && s.envelope.hash == PayloadDigest(s.envelope.payload) && HasText(s.keyId) && s.keyId in keys
    && s.signature == SignatureBy(keys[s.keyId], PayloadDigest(s.envelope.payload))
  }

  ghost predicate Within(p: Payload, policy: Policy) {
    && p.account == policy.account && p.venue == policy.venue && p.configHash == policy.configHash && p.riskHash == policy.riskHash
    && (forall x :: x in p.instruments ==> x in policy.instruments) && (forall x :: x in p.intents ==> x in policy.intents)
    && Number(p.limits.notional) <= Number(policy.limits.notional) && Number(p.limits.exposure) <= Number(policy.limits.exposure)
    && Number(p.limits.order) <= Number(policy.limits.order) && Number(p.limits.slippage) <= Number(policy.limits.slippage)
  }

  /** A canonical scope over exactly this account, venue, limits, instrument set and intent set. */
  ghost predicate ScopeCovers(h: ScopeHash, p: Payload) {
    && h.ScopeDigest? && h.of.account == p.account && h.of.venue == p.venue && h.of.limits == p.limits
    && StrictlySorted(h.of.instruments, TextLe) && (forall x :: x in h.of.instruments <==> x in p.instruments)
    && StrictlySorted(h.of.intents, IntentLe) && (forall x :: x in h.of.intents <==> x in p.intents)
  }

  /** Inside its window, not yet revoked, of the payload's class, about its promotion and over its scope. */
  ghost predicate Covers(a: Approval, p: Payload, now: int) {
    && a.validFrom <= now && now < a.expiresAt && (a.revokedAt.Some? ==> now < a.revokedAt.value)
    && a.approvalClass == p.approvalClass && a.subject == p.promotion && ScopeCovers(a.scope, p)
  }

  ghost predicate ApprovedBy(p: Payload, id: string, approvals: seq<Approval>, now: int) {
    exists a :: a in approvals && a.id == id && Covers(a, p, now)
  }

  /** Every cited approval exists in the policy and covers this payload now. */
  ghost predicate Approved(p: Payload, policy: Policy, now: int) {
    forall id :: id in p.approvals ==> ApprovedBy(p, id, policy.approvals, now)
  }

  ghost predicate Admissible(s: Signed, keys: map<string, int>, policy: Policy, now: int, consumed: bool) {
    var p := s.envelope.payload;
    && PayloadOk(p) && PolicyValid(policy) && Authentic(s, keys)
    && p.validFrom <= now && now < p.expiresAt && !consumed && Within(p, policy)
    && p.approvalClass != SameClassAutoLiveSmall && Approved(p, policy, now)
  }

  // ----- The checks mean what the gate says -----

  lemma BlankIff(s: string)
    ensures Blank(s) <==> !HasText(s)
  {}

  lemma AnyBlankIff(s: seq<string>)
    ensures AnyBlank(s) <==> !AllHaveText(s)
  {
    forall x ensures Blank(x) <==> !HasText(x) { BlankIff(x); }
    if AnyBlank(s) {
      var i :| 0 <= i < |s| && Blank(s[i]);
      assert s[i] in s;
    }
  }

  lemma LimitsOkIff(l: Limits)
    ensures LimitsOk(l) <==> Amounts(l)
  {}

  lemma PayloadErrorIff(p: Payload)
    ensures PayloadError(p).None? <==> PayloadOk(p)
  {
    AnyBlankIff(Texts(p));
    AnyBlankIff(p.instruments);
    AnyBlankIff(p.approvals);
    LimitsOkIff(p.limits);
  }

  lemma ApprovalErrorIff(a: Approval)
    ensures ApprovalError(a).None? <==> ApprovalOk(a)
  {
    AnyBlankIff([a.id, a.subject, a.signer]);
  }

  lemma PolicyHeadErrorIff(p: Policy)
    ensures PolicyHeadError(p).None?
            <==> AllHaveText([p.account, p.venue, p.configHash, p.riskHash]) && IsSha(p.configHash) && IsSha(p.riskHash)
                 && |p.instruments| > 0 && AllHaveText(p.instruments) && |p.intents| > 0
  {
    AnyBlankIff([p.account, p.venue, p.configHash, p.riskHash]);
    AnyBlankIff(p.instruments);
  }

  lemma ScopeCoversIff(h: ScopeHash, p: Payload)
    ensures h == ScopeDigest(ScopeOf(p)) <==> ScopeCovers(h, p)
  {
    TextOrder();
    IntentOrder();
    NormalFormIsStrict(p.instruments, TextLe);
    NormalFormIsStrict(p.intents, IntentLe);
    if ScopeCovers(h, p) {
      StrictlySortedUnique(h.of.instruments, NormalForm(p.instruments, TextLe), TextLe);
      StrictlySortedUnique(h.of.intents, NormalForm(p.intents, IntentLe), IntentLe);
    }
  }

  lemma ApprovesIff(a: Approval, p: Payload, now: int)
    ensures Approves(a, p, now) <==> Covers(a, p, now)
  {
    ScopeCoversIff(a.scope, p);
  }

  lemma {:induction false} ApprovalsErrorIff(approvals: seq<Approval>, seen: set<string>)
    ensures ApprovalsError(approvals, seen).None?
            <==> (forall i :: 0 <= i < |approvals| ==> ApprovalError(approvals[i]).None? && approvals[i].id !in seen)
                 && (forall i, j :: 0 <= i < j < |approvals| ==> approvals[i].id != approvals[j].id)
    decreases approvals
  {
    if approvals != [] {
      var rest, seen' := approvals[1..], seen + {approvals[0].id};
      ApprovalsErrorIff(rest, seen');
      assert forall i :: 0 <= i < |rest| ==> rest[i] == approvals[i + 1];
      assert forall i :: 1 <= i < |approvals| ==> approvals[i] == rest[i - 1];
    }
  }

  lemma PolicyErrorIff(p: Policy)
    ensures PolicyError(p).None? <==> PolicyValid(p)
  {
    PolicyHeadErrorIff(p);
    LimitsOkIff(p.limits);
    ApprovalsErrorIff(p.approvals, {});
    forall a ensures ApprovalError(a).None? <==> ApprovalOk(a) { ApprovalErrorIff(a); }
    if PolicyValid(p) {
      forall i | 0 <= i < |p.approvals| ensures ApprovalError(p.approvals[i]).None? {
        assert p.approvals[i] in p.approvals;
      }
    }
  }

  lemma {:induction false} FindsTheApproval(approvals: seq<Approval>, id: string)
    requires forall i, j :: 0 <= i < j < |approvals| ==> approvals[i].id != approvals[j].id
    ensures var found := FindApproval(approvals, id);
            && (found.Some? ==> found.value in approvals && found.value.id == id)
            && (forall a :: a in approvals && a.id == id ==> found == Some(a))
  {
    if approvals != [] {
      FindsTheApproval(approvals[1..], id);
      assert approvals == [approvals[0]] + approvals[1..];
    }
  }

  lemma FoundApproves(p: Payload, id: string, policy: Policy, now: int)
    requires PolicyValid(policy)
    ensures var found := FindApproval(policy.approvals, id);
            found.Some? && Approves(found.value, p, now) <==> ApprovedBy(p, id, policy.approvals, now)
  {
    FindsTheApproval(policy.approvals, id);
    var found := FindApproval(policy.approvals, id);
    if found.Some? { ApprovesIff(found.value, p, now); }
  }

  lemma {:induction false} RuntimeApprovalsErrorIff(p: Payload, ids: seq<string>, policy: Policy, now: int)
    requires PolicyValid(policy)
    ensures RuntimeApprovalsError(p, ids, policy.approvals, now).None?
            <==> forall id :: id in ids ==> ApprovedBy(p, id, policy.approvals, now)
    decreases ids
  {
    if ids != [] {
      RuntimeApprovalsErrorIff(p, ids[1..], policy, now);
      FoundApproves(p, ids[0], policy, now);
      assert ids == [ids[0]] + ids[1..];
    }
  }

  lemma LimitsExceedIff(a: Limits, b: Limits)
    requires LimitsOk(a) && LimitsOk(b)
    ensures LimitsExceed(a, b) <==>
            Number(a.notional) > Number(b.notional) || Number(a.exposure) > Number(b.exposure)
            || Number(a.order) > Number(b.order) || Number(a.slippage) > Number(b.slippage)
  {}

  lemma RuntimeErrorIff(p: Payload, policy: Policy, now: int, consumed: bool)
    requires LimitsOk(p.limits) && PolicyValid(policy)
    ensures RuntimeError(p, policy, now, consumed).None?
            <==> p.validFrom <= now < p.expiresAt && !consumed && Within(p, policy)
                 && p.approvalClass != SameClassAutoLiveSmall && Approved(p, policy, now)
  {
    LimitsOkIff(policy.limits);
    LimitsExceedIff(p.limits, policy.limits);
    RuntimeApprovalsErrorIff(p, p.approvals, policy, now);
  }

  /** A signed envelope verifies exactly when the gate holds, and then it is returned unchanged. */
  lemma VerifiesIffAdmissible(s: Signed, keys: map<string, int>, policy: Policy, now: int, consumed: string -> bool)
    ensures Verify(s, keys, policy, now, consumed).Ok? <==> Admissible(s, keys, policy, now, consumed(s.envelope.payload.nonce))
    ensures Verify(s, keys, policy, now, consumed).Ok? ==> Verify(s, keys, policy, now, consumed).value == s.envelope
  {
    var p := s.envelope.payload;
    PayloadErrorIff(p);
    PolicyErrorIff(policy);
    BlankIff(s.keyId);
    if PayloadOk(p) && PolicyValid(policy) {
      LimitsOkIff(p.limits);
      RuntimeErrorIff(p, policy, now, consumed(p.nonce));
    }
  }

  /**
   An accepted envelope cites at least one approval, and every one it cites is in the policy, inside its
   window and not yet revoked, of the payload's class, about its promotion, and over exactly its account,
   venue, limits, instruments and intents.
   */
  lemma AcceptedIsApproved(s: Signed, keys: map<string, int>, policy: Policy, now: int, consumed: string -> bool)
    requires Verify(s, keys, policy, now, consumed).Ok?
    ensures var p := s.envelope.payload;
            && |p.approvals| > 0
            && forall id :: id in p.approvals ==>
                 exists a :: a in policy.approvals && a.id == id
                             && a.validFrom <= now && now < a.expiresAt && (a.revokedAt.Some? ==> now < a.revokedAt.value)
                             && a.approvalClass == p.approvalClass && a.approvalClass != SameClassAutoLiveSmall
                             && a.subject == p.promotion && ScopeCovers(a.scope, p)
  {
    VerifiesIffAdmissible(s, keys, policy, now, consumed);
    var p := s.envelope.payload;
    forall id | id in p.approvals
      ensures exists a :: a in policy.approvals && a.id == id
                          && a.validFrom <= now && now < a.expiresAt && (a.revokedAt.Some? ==> now < a.revokedAt.value)
                          && a.approvalClass == p.approvalClass && a.approvalClass != SameClassAutoLiveSmall
                          && a.subject == p.promotion && ScopeCovers(a.scope, p)
    {
      assert ApprovedBy(p, id, policy.approvals, now);
      var a :| a in policy.approvals && a.id == id && Covers(a, p, now);
    }
  }

  /** Which error an ill-formed payload gets: blank texts first, then hashes, lists, limits and the window. */
  lemma PayloadRefusal(p: Payload)
    ensures var texts := AllHaveText([p.deployment, p.asset, p.promotion, p.promotionHash, p.bundle, p.bundleHash, p.configHash, p.riskHash,
                                      p.account, p.venue, p.nonce]);
            var hashes := IsSha(p.promotionHash) && IsSha(p.bundleHash) && IsSha(p.configHash) && IsSha(p.riskHash);
            var lists := |p.instruments| > 0 && AllHaveText(p.instruments) && |p.intents| > 0 && |p.approvals| > 0 && AllHaveText(p.approvals);
            PayloadError(p) == if !texts then Some(EmptyField)
                               else if !hashes then Some(InvalidDeploymentHash)
                               else if !lists then Some(EmptyField)
                               else if !Amounts(p.limits) then Some(InvalidDeploymentLimit)
                               else if p.expiresAt <= p.validFrom then Some(InvalidValidityWindow) else None
  {
    AnyBlankIff(Texts(p));
    AnyBlankIff(p.instruments);
    AnyBlankIff(p.approvals);
    LimitsOkIff(p.limits);
  }

  /** Which error an ill-formed approval gets. */
  lemma ApprovalRefusal(a: Approval)
    ensures ApprovalError(a) == if !AllHaveText([a.id, a.subject, a.signer]) then Some(EmptyField)
                                else if a.scope.OtherScope? && !IsSha(a.scope.text) then Some(InvalidDeploymentHash)
                                else if !ApprovalOk(a) then Some(ApprovalEvidenceMismatch) else None
  {
    AnyBlankIff([a.id, a.subject, a.signer]);
  }

  /** Which error an ill-formed policy gets before its approvals are looked at, and when its limits are all that is wrong. */
  lemma PolicyRefusal(p: Policy)
    ensures var texts := AllHaveText([p.account, p.venue, p.configHash, p.riskHash]);
            var hashes := IsSha(p.configHash) && IsSha(p.riskHash);
            var lists := |p.instruments| > 0 && AllHaveText(p.instruments) && |p.intents| > 0;
            && (!texts ==> PolicyError(p) == Some(EmptyField))
            && (texts && !hashes ==> PolicyError(p) == Some(InvalidDeploymentHash))
            && (texts && hashes && !lists ==> PolicyError(p) == Some(RuntimeBindingMismatch))
            && (PolicyValid(p.(limits := Limits(Finite(0.0), Finite(0.0), Finite(0.0), Finite(0.0)))) && !Amounts(p.limits) ==>
                  PolicyError(p) == Some(InvalidDeploymentLimit))
  {
    AnyBlankIff([p.account, p.venue, p.configHash, p.riskHash]);
    AnyBlankIff(p.instruments);
    LimitsOkIff(p.limits);
    PolicyErrorIff(p.(limits := Limits(Finite(0.0), Finite(0.0), Finite(0.0), Finite(0.0))));
  }

  /** The first approval that is ill-formed or repeats an identifier decides the error of the list. */
  lemma {:induction false} FirstBadApproval(approvals: seq<Approval>, seen: set<string>, k: nat)
    requires k < |approvals| && (ApprovalError(approvals[k]).Some? || approvals[k].id in seen || exists j :: 0 <= j < k && approvals[j].id == approvals[k].id)
    requires forall i :: 0 <= i < k ==> ApprovalError(approvals[i]).None? && approvals[i].id !in seen
    requires forall i, j :: 0 <= i < j < k ==> approvals[i].id != approvals[j].id
    ensures ApprovalsError(approvals, seen)
            == if ApprovalError(approvals[k]).Some? then ApprovalError(approvals[k]) else Some(ApprovalEvidenceMismatch)
    decreases k
  {
    if k > 0 {
      var rest, seen' := approvals[1..], seen + {approvals[0].id};
      assert rest[k - 1] == approvals[k];
      forall i | 0 <= i < k - 1 ensures ApprovalError(rest[i]).None? && rest[i].id !in seen' {
        assert rest[i] == approvals[i + 1];
      }
      if exists j :: 0 <= j < k && approvals[j].id == approvals[k].id {
        var j :| 0 <= j < k && approvals[j].id == approvals[k].id;
        if j > 0 { assert rest[j - 1] == approvals[j]; }
      }
      FirstBadApproval(rest, seen', k - 1);
    }
  }

  /** Which error a well-formed envelope that is not authentic gets. */
  lemma ForgeryMeans(s: Signed, keys: map<string, int>, policy: Policy, now: int, consumed: string -> bool)
    requires PayloadOk(s.envelope.payload) && PolicyValid(policy) && HasText(s.keyId)
    ensures var r := Verify(s, keys, policy, now, consumed);
            var intact := s.envelope.hash == PayloadDigest(s.envelope.payload);
            && (r == Err(PayloadHashMismatch) <==> !intact)
            && (r == Err(UnknownSigningKey) <==> intact && s.keyId !in keys)
            && (r == Err(InvalidSignatureEncoding) <==> intact && s.keyId in keys && s.signature.Malformed?)
            && (r == Err(InvalidSignature) <==>
                  intact && s.keyId in keys && !s.signature.Malformed? && s.signature != SignatureBy(keys[s.keyId], s.envelope.hash))
  {
    PayloadErrorIff(s.envelope.payload);
    PolicyErrorIff(policy);
    BlankIff(s.keyId);
    var p := s.envelope.payload;
    RuntimeErrorKinds(p, policy, now, consumed(p.nonce));
  }

  lemma RuntimeErrorKinds(p: Payload, policy: Policy, now: int, consumed: bool)
    ensures var e := RuntimeError(p, policy, now, consumed);
            e.Some? ==> e.value in {NotYetValid, Expired, NonceReplay, RuntimeBindingMismatch, RuntimeLimitExceeded, ApprovalEvidenceMismatch}
  {
    ApprovalErrorKind(p, p.approvals, policy.approvals, now);
  }

  lemma {:induction false} ApprovalErrorKind(p: Payload, ids: seq<string>, approvals: seq<Approval>, now: int)
    ensures var e := RuntimeApprovalsError(p, ids, approvals, now); e.Some? ==> e.value == ApprovalEvidenceMismatch
    decreases ids
  {
    if ids != [] { ApprovalErrorKind(p, ids[1..], approvals, now); }
  }

  /** Which error an authentic envelope gets: the first of window, nonce, binding, limits and approvals that fails. */
  lemma RejectionMeans(s: Signed, keys: map<string, int>, policy: Policy, now: int, consumed: string -> bool)
    requires PayloadOk(s.envelope.payload) && PolicyValid(policy) && Authentic(s, keys)
    ensures var r := Verify(s, keys, policy, now, consumed);
            var p := s.envelope.payload;
            var timely := p.validFrom <= now && now < p.expiresAt && !consumed(p.nonce);
            var bound := p.account == policy.account && p.venue == policy.venue && p.configHash == policy.configHash
                         && p.riskHash == policy.riskHash
                         && (forall x :: x in p.instruments ==> x in policy.instruments) && (forall x :: x in p.intents ==> x in policy.intents);
            && (r == Err(NotYetValid) <==> now < p.validFrom)
            && (r == Err(Expired) <==> p.expiresAt <= now)
            && (r == Err(NonceReplay) <==> p.validFrom <= now && now < p.expiresAt && consumed(p.nonce))
            && (r == Err(RuntimeBindingMismatch) <==> timely && !bound)
            && (r == Err(RuntimeLimitExceeded) <==> timely && bound && !Within(p, policy))
            && (r == Err(ApprovalEvidenceMismatch) <==>
                  timely && Within(p, policy) && (p.approvalClass == SameClassAutoLiveSmall || !Approved(p, policy, now)))
  {
    var p := s.envelope.payload;
    PayloadErrorIff(p);
    PolicyErrorIff(policy);
    BlankIff(s.keyId);
    LimitsOkIff(p.limits);
    LimitsOkIff(policy.limits);
    LimitsExceedIff(p.limits, policy.limits);
    RuntimeApprovalsErrorIff(p, p.approvals, policy, now);
    ApprovalErrorKind(p, p.approvals, policy.approvals, now);
  }

  /** Time and nonces do not influence the verdict on an envelope that is not authentic. */
  lemma RuntimeErrorsNeedAuthenticity(s: Signed, keys: map<string, int>, policy: Policy, now: int, consumed: string -> bool)
    requires PayloadOk(s.envelope.payload) && PolicyValid(policy) && !Authentic(s, keys)
    ensures forall now': int, consumed': string -> bool ::
              Verify(s, keys, policy, now', consumed') == Verify(s, keys, policy, now, consumed)
  {
    PayloadErrorIff(s.envelope.payload);
    PolicyErrorIff(policy);
    BlankIff(s.keyId);
  }

  // ----- Laws of the gate -----

  /** With the nonce unused, the accepting times form an interval. */
  lemma AcceptingTimesAreAnInterval(s: Signed, keys: map<string, int>, policy: Policy, from: int, now: int, to: int, consumed: string -> bool)
    requires from <= now <= to
    requires Verify(s, keys, policy, from, consumed).Ok? && Verify(s, keys, policy, to, consumed).Ok?
    ensures Verify(s, keys, policy, now, consumed).Ok?
  {
    VerifiesIffAdmissible(s, keys, policy, from, consumed);
    VerifiesIffAdmissible(s, keys, policy, now, consumed);
    VerifiesIffAdmissible(s, keys, policy, to, consumed);
    var p := s.envelope.payload;
    forall id | id in p.approvals ensures ApprovedBy(p, id, policy.approvals, now) {
      ApprovedBetween(p, policy, id, from, now, to);
    }
  }

  lemma ApprovedBetween(p: Payload, policy: Policy, id: string, from: int, now: int, to: int)
    requires PolicyValid(policy) && from <= now <= to
    requires ApprovedBy(p, id, policy.approvals, from) && ApprovedBy(p, id, policy.approvals, to)
    ensures ApprovedBy(p, id, policy.approvals, now)
  {
    var a :| a in policy.approvals && a.id == id && Covers(a, p, from);
    var b :| b in policy.approvals && b.id == id && Covers(b, p, to);
    OneApprovalPerId(policy, a, b);
    assert Covers(a, p, now);
  }

  lemma OneApprovalPerId(policy: Policy, a: Approval, b: Approval)
    requires PolicyValid(policy) && a in policy.approvals && b in policy.approvals && a.id == b.id
    ensures a == b
  {
    var i :| 0 <= i < |policy.approvals| && policy.approvals[i] == a;
    var j :| 0 <= j < |policy.approvals| && policy.approvals[j] == b;
  }

  /** `wide` allows at least what `narrow` allows: more instruments, intents and approvals, and no lower limit. */
  ghost predicate Widens(narrow: Policy, wide: Policy) {
    && wide.account == narrow.account && wide.venue == narrow.venue
    && wide.configHash == narrow.configHash && wide.riskHash == narrow.riskHash
    && (forall x :: x in narrow.instruments ==> x in wide.instruments) && (forall x :: x in narrow.intents ==> x in wide.intents)
    && (forall a :: a in narrow.approvals ==> a in wide.approvals)
    && Number(narrow.limits.notional) <= Number(wide.limits.notional) && Number(narrow.limits.exposure) <= Number(wide.limits.exposure)
    && Number(narrow.limits.order) <= Number(wide.limits.order) && Number(narrow.limits.slippage) <= Number(wide.limits.slippage)
  }

  lemma AcceptanceSurvivesWidening(s: Signed, keys: map<string, int>, narrow: Policy, wide: Policy, now: int, consumed: string -> bool)
    requires Widens(narrow, wide) && PolicyError(wide).None? && Verify(s, keys, narrow, now, consumed).Ok?
    ensures Verify(s, keys, wide, now, consumed).Ok?
  {
    VerifiesIffAdmissible(s, keys, narrow, now, consumed);
    VerifiesIffAdmissible(s, keys, wide, now, consumed);
    PolicyErrorIff(wide);
    var p := s.envelope.payload;
    forall id | id in p.approvals ensures ApprovedBy(p, id, wide.approvals, now) {
      assert ApprovedBy(p, id, narrow.approvals, now);
    }
  }

  /** The same policy with its lists in another order. */
  ghost predicate Reordered(a: Policy, b: Policy) {
    && b == a.(instruments := b.instruments, intents := b.intents, approvals := b.approvals)
    && multiset(b.instruments) == multiset(a.instruments) && multiset(b.intents) == multiset(a.intents)
    && multiset(b.approvals) == multiset(a.approvals)
  }

  /** Reordering cannot hide or create a repeated approval identifier. */
  lemma ReorderKeepsUniqueness(a: seq<Approval>, b: seq<Approval>)
    requires multiset(a) == multiset(b) && forall i, j :: 0 <= i < j < |a| ==> a[i].id != a[j].id
    ensures forall i, j :: 0 <= i < j < |b| ==> b[i].id != b[j].id
  {
    SameMembers(a, b);
    forall i, j | 0 <= i < j < |b| ensures b[i].id != b[j].id {
      assert b[i] in a && b[j] in a;
      if b[i] == b[j] {
        CountTwo(b, i, j);
        var k, l := OccursTwice(a, b[i]);
      }
    }
  }

  lemma ReorderKeepsValidity(a: Policy, b: Policy)
    requires Reordered(a, b) && PolicyValid(a)
    ensures PolicyValid(b)
  {
    SameMembers(a.instruments, b.instruments);
    SameMembers(a.intents, b.intents);
    SameMembers(a.approvals, b.approvals);
    ReorderKeepsUniqueness(a.approvals, b.approvals);
  }

  /** Acceptance does not depend on the order of any list in the policy. */
  lemma AcceptanceIgnoresPolicyOrder(s: Signed, keys: map<string, int>, a: Policy, b: Policy, now: int, consumed: string -> bool)
    requires Reordered(a, b)
    ensures Verify(s, keys, a, now, consumed).Ok? <==> Verify(s, keys, b, now, consumed).Ok?
  {
    PolicyErrorIff(a);
    PolicyErrorIff(b);
    VerifiesIffAdmissible(s, keys, a, now, consumed);
    VerifiesIffAdmissible(s, keys, b, now, consumed);
    SameMembers(a.instruments, b.instruments);
    SameMembers(a.intents, b.intents);
    SameMembers(a.approvals, b.approvals);
    if PolicyValid(a) {
      ReorderKeepsValidity(a, b);
      if Verify(s, keys, a, now, consumed).Ok? { AcceptanceSurvivesWidening(s, keys, a, b, now, consumed); }
    }
    if PolicyValid(b) {
      ReorderKeepsValidity(b, a);
      if Verify(s, keys, b, now, consumed).Ok? { AcceptanceSurvivesWidening(s, keys, b, a, now, consumed); }
    }
  }

  // ----- Signing -----

  /** What was signed is authentic under the signer's key, and under no other. */
  lemma SignedIsAuthentic(envelope: Envelope, keyId: string, key: int, keys: map<string, int>)
    requires Sign(envelope, keyId, key).Ok?
    ensures var s := Sign(envelope, keyId, key).value;
            s.envelope.payload == envelope.payload && (Authentic(s, keys) <==> keyId in keys && keys[keyId] == key)
  {
    BlankIff(keyId);
  }

  /** Signing succeeds exactly on valid payloads under a key id with text. */
  lemma SignsIff(envelope: Envelope, keyId: string, key: int)
    ensures Sign(envelope, keyId, key).Ok? <==> PayloadOk(envelope.payload) && HasText(keyId)
  {
    PayloadErrorIff(envelope.payload);
    BlankIff(keyId);
  }

  /** One signature vouches for one payload: two verified envelopes with the same signature are the same envelope. */
  lemma SignatureBindsPayload(s: Signed, t: Signed, keys: map<string, int>, policy: Policy, now: int, now': int, consumed: string -> bool)
    requires s.signature == t.signature
    requires Verify(s, keys, policy, now, consumed).Ok? && Verify(t, keys, policy, now', consumed).Ok?
    ensures s.envelope == t.envelope
  {
    VerifiesIffAdmissible(s, keys, policy, now, consumed);
    VerifiesIffAdmissible(t, keys, policy, now', consumed);
  }

  // ----- The deployment scope -----

  lemma IntentOrder()
    ensures TotalOrder(IntentLe)
  {}

  /** Two payloads have the same canonical scope exactly when they name the same account, venue, sets and limits. */
  lemma ScopeIff(p: Payload, q: Payload)
    ensures ScopeOf(p) == ScopeOf(q)
            <==> p.account == q.account && p.venue == q.venue && p.limits == q.limits
                 && (forall x :: x in p.instruments <==> x in q.instruments) && (forall x :: x in p.intents <==> x in q.intents)
  {
    TextOrder();
    IntentOrder();
    NormalFormIff(p.instruments, q.instruments, TextLe);
    NormalFormIff(p.intents, q.intents, IntentLe);
  }

  predicate SameZeroSigns(a: Limits, b: Limits) {
    a.notional.NegativeZero? == b.notional.NegativeZero? && a.exposure.NegativeZero? == b.exposure.NegativeZero?
    && a.order.NegativeZero? == b.order.NegativeZero? && a.slippage.NegativeZero? == b.slippage.NegativeZero?
  }

  /** Valid limits that are equal as numbers are the same limits exactly when their zeros have the same sign. */
  lemma EqualAmountsIff(a: Limits, b: Limits)
    requires LimitsOk(a) && LimitsOk(b)
    ensures a == b <==> SameAmounts(a, b) && SameZeroSigns(a, b)
  {}

  /** A zero limit and a minus-zero limit are equal numbers and both valid, yet approve different scopes. */
  lemma NegativeZeroChangesScope(p: Payload)
    requires PayloadError(p).None? && p.limits.slippage == Finite(0.0)
    ensures var q := p.(limits := p.limits.(slippage := NegativeZero));
            PayloadError(q).None? && SameAmounts(p.limits, q.limits) && ScopeOf(p) != ScopeOf(q)
  {
    var q := p.(limits := p.limits.(slippage := NegativeZero));
    assert Texts(q) == Texts(p);
    assert ScopeOf(q).limits != ScopeOf(p).limits;
  }
}
