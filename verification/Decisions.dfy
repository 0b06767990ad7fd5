/** Signed decisions and their offline verification.

    SHA-256 over RFC 8785 text is taken as injective, so a digest is the tree of what was hashed.
    Ed25519 is an arbitrary relation `check`; only the lemma on authenticity says more about it. */
module Decisions {
  import opened Prelude

  datatype Rail = X402 | Ap2 | Evm | Card | Mcp

  datatype Verdict = Allow | Block | RequireApproval

  /** The reason codes the modelled code emits. */
  datatype Reason =
    | MerchantAllowed | WithinTransactionLimit | WithinDailyLimit | DefaultDeny | NetworkNotAllowed | AssetNotAllowed
    | PayeeNotAllowed | ResourceNotAllowed | PurposeNotAllowed | AmountExceedsTransactionLimit | DailyLimitExceeded
    | OutsideAllowedTime | HumanApprovalRequired | HumanApprovalGranted | HumanApprovalRefused | ApprovalNotPending
    | ApprovalAlreadyResolved | PolicyExpired | PolicyVersionMismatch | ActionHashMismatch
    | PaymentRequirementsMismatch | DecisionBindingMismatch | DecisionExpired | InvalidDecisionSchema
    | FingerprintMismatch | InvalidSignature | UnknownSigningKey | NonceAlreadyConsumed | DecisionNotAllow
    | DecisionServiceUnavailable | ExecutionStateUnavailable | ExecutionConflict | ExecutionOutcomeUnknown
    | ExecutionAlreadyCompleted | ExecutionFailedFinal | ReconciliationRequired
    | KyaAuthorityRequired | KyaRejected | KyaAuthorityStateUnavailable | KyaAuthorityBindingMismatch

  datatype Digest =
    | Text(text: string)
    | Fields(version: string, parts: seq<Digest>)
    | OfAction(action: Action)
    | OfBody(body: Body)

  datatype Transaction = Transaction(amount: string, asset: string, network: string, payee: string, purpose: string)

  datatype Reference =
    | X402Reference(resource: string, scheme: string, requirementsHash: Digest, payloadHash: Option<Digest>)
    | OtherReference(rail: Rail, resource: string, details: Digest)

  datatype Action = Action(principalId: string, agentId: string, rail: Rail, transaction: Transaction,
                           reference: Reference, extensions: Option<Digest>)

  datatype Approval = Approval(human: bool, reference: Option<string>, approverIds: seq<string>)

  /** Everything a decision states, that is, all but its fingerprint and signature. */
  datatype Body = Body(decisionId: string, verdict: Verdict, principalId: string, agentId: string, rail: Rail,
                       transaction: Transaction, reference: Reference, actionHash: Digest, policyHash: Digest,
                       policyVersion: string, approval: Approval, reasonCodes: seq<Reason>, issuedAt: int,
                       expiresAt: int, nonce: string, supersedes: Option<string>, keyId: string)

  datatype Decision = Decision(body: Body, fingerprint: Digest, signature: string)

  datatype KeyStatus = Active | Retired | Revoked

  /** `wellFormed`: the stored key has 32 bytes and hashes to the entry's fingerprint. */
  datatype Key = Key(keyId: string, publicKey: string, status: KeyStatus, notBefore: int, notAfter: Option<int>,
                     wellFormed: bool)

  datatype Verifier = Verifier(registry: seq<Key>, policyVersion: Option<string>,
                               check: (string, Body, Digest, string) -> bool)

  function HashAction(a: Action): Digest {
    OfAction(a)
  }

  function Fingerprint(b: Body): Digest {
    OfBody(b)
  }

  predicate ReferenceFits(rail: Rail, reference: Reference) {
    match reference
    case X402Reference(_, _, _, _) => rail == X402
    case OtherReference(r, _, _) => rail == r && r != X402
  }

  predicate BodySchema(b: Body) {
    && b.issuedAt < b.expiresAt
    && ReferenceFits(b.rail, b.reference)
    && b.reasonCodes != []
    && forall i, j :: 0 <= i < j < |b.reasonCodes| ==> b.reasonCodes[i] != b.reasonCodes[j]
  }

  predicate RegistrySchema(registry: seq<Key>) {
    && registry != []
    && forall i, j :: 0 <= i < j < |registry| ==> registry[i].keyId != registry[j].keyId
  }

  /** The signed decision restates the subject it decided on. */
  predicate Restates(b: Body, a: Action) {
    && b.principalId == a.principalId
    && b.agentId == a.agentId
    && b.rail == a.rail
    && b.transaction == a.transaction
    && b.reference == a.reference
  }

  predicate Usable(key: Key, b: Body) {
    && key.keyId == b.keyId
    && key.status != Revoked
    && key.notBefore <= b.issuedAt
    && (key.notAfter.Some? ==> b.issuedAt < key.notAfter.value)
    && key.wellFormed
  }

  predicate Signed(v: Verifier, d: Decision) {
    exists i :: 0 <= i < |v.registry| && Usable(v.registry[i], d.body)
                && v.check(v.registry[i].publicKey, d.body, d.fingerprint, d.signature)
  }

  predicate RequirementsMatch(b: Body, requirements: Option<Digest>) {
    requirements.Some? ==> b.reference.X402Reference? && b.reference.requirementsHash == requirements.value
  }

  /** The declarative meaning of a valid verification: every check at once. */
  predicate Binds(v: Verifier, d: Decision, a: Action, at: int, requirements: Option<Digest>) {
    && BodySchema(d.body)
    && ReferenceFits(a.rail, a.reference)
    && RegistrySchema(v.registry)
    && d.fingerprint == Fingerprint(d.body)
    && Signed(v, d)
    && d.body.actionHash == HashAction(a)
    && Restates(d.body, a)
    && d.body.issuedAt <= at < d.body.expiresAt
    && (v.policyVersion.Some? ==> d.body.policyVersion == v.policyVersion.value)
    && RequirementsMatch(d.body, requirements)
  }

  ghost predicate Distinct(reasons: seq<Reason>) {
    forall i, j :: 0 <= i < j < |reasons| ==> reasons[i] != reasons[j]
  }

  /** Pushes `reason` for a failed check unless it is already there. */
  function AddReason(reasons: seq<Reason>, passed: bool, reason: Reason): (r: seq<Reason>)
    requires Distinct(reasons)
    ensures Distinct(r)
    ensures r == [] <==> reasons == [] && passed
    ensures forall x :: x in r <==> x in reasons || (x == reason && !passed)
  {
    if passed || reason in reasons then reasons else reasons + [reason]
  }

  /** The first registry entry with the decision's key id, if it may be used. */
  method FindUsableKey(b: Body, registry: seq<Key>) returns (key: Option<Key>)
    requires RegistrySchema(registry)
    ensures key.Some? ==> key.value in registry && Usable(key.value, b)
    ensures forall i :: 0 <= i < |registry| && Usable(registry[i], b) ==> key == Some(registry[i])
  {
    var n := 0;
    while n < |registry| && registry[n].keyId != b.keyId
      invariant 0 <= n <= |registry|
      invariant forall i :: 0 <= i < n ==> registry[i].keyId != b.keyId
    {
      n := n + 1;
    }
    if n == |registry| {
      return None;
    }
    var entry := registry[n];
    if entry.status == Revoked || b.issuedAt < entry.notBefore
       || (entry.notAfter.Some? && b.issuedAt >= entry.notAfter.value) || !entry.wellFormed {
      return None;
    }
    return Some(entry);
  }

  /** No key may be used for this decision. */
  predicate KeyUnknown(v: Verifier, d: Decision) {
    forall i :: 0 <= i < |v.registry| ==> !Usable(v.registry[i], d.body)
  }

  /** The decision expires after it was issued, its reference and the action's are of their rails, its reason codes are
      distinct and not none, and so are the registry's key ids. */
  predicate SchemasHold(v: Verifier, d: Decision, a: Action) {
    && d.body.issuedAt < d.body.expiresAt
    && (d.body.reference.X402Reference? <==> d.body.rail == X402)
    && (d.body.reference.OtherReference? ==> d.body.reference.rail == d.body.rail)
    && (a.reference.X402Reference? <==> a.rail == X402)
    && (a.reference.OtherReference? ==> a.reference.rail == a.rail)
    && d.body.reasonCodes != [] && v.registry != []
    && (forall i, j :: 0 <= i < |d.body.reasonCodes| && 0 <= j < |d.body.reasonCodes| && i != j ==>
          d.body.reasonCodes[i] != d.body.reasonCodes[j])
    && (forall i, j :: 0 <= i < |v.registry| && 0 <= j < |v.registry| && i != j ==>
          v.registry[i].keyId != v.registry[j].keyId)
  }

  lemma SchemasMean(v: Verifier, d: Decision, a: Action)
    ensures SchemasHold(v, d, a) <==> BodySchema(d.body) && ReferenceFits(a.rail, a.reference) && RegistrySchema(v.registry)
  {
  }

  /** What each reason says of the input. */
  predicate Justifies(reason: Reason, v: Verifier, d: Decision, a: Action, at: int, requirements: Option<Digest>) {
    match reason
    case FingerprintMismatch => d.fingerprint != OfBody(d.body)
    case UnknownSigningKey => KeyUnknown(v, d)
    case InvalidSignature => !KeyUnknown(v, d) && !Signed(v, d)
    case ActionHashMismatch => d.body.actionHash != OfAction(a)
    case DecisionBindingMismatch =>
      d.body.principalId != a.principalId || d.body.agentId != a.agentId || d.body.rail != a.rail
      || d.body.transaction != a.transaction || d.body.reference != a.reference
    case DecisionExpired => at < d.body.issuedAt || at >= d.body.expiresAt
    case PolicyVersionMismatch => v.policyVersion.Some? && v.policyVersion.value != d.body.policyVersion
    case PaymentRequirementsMismatch =>
      requirements.Some?
      && (!d.body.reference.X402Reference? || d.body.reference.requirementsHash != requirements.value)
    case _ => false
  }

  /** The two checks that need the key registry. */
  method CheckSignature(v: Verifier, d: Decision, reasons: seq<Reason>) returns (r: seq<Reason>)
    requires RegistrySchema(v.registry) && Distinct(reasons)
    ensures Distinct(r)
    ensures r == [] <==> reasons == [] && Signed(v, d)
    ensures forall x :: x in r <==>
              || x in reasons
              || (x == UnknownSigningKey && KeyUnknown(v, d))
              || (x == InvalidSignature && !KeyUnknown(v, d) && !Signed(v, d))
  {
    var key := FindUsableKey(d.body, v.registry);
    if key.None? {
      r := AddReason(reasons, false, UnknownSigningKey);
    } else {
      r := AddReason(reasons, v.check(key.value.publicKey, d.body, d.fingerprint, d.signature), InvalidSignature);
    }
  }

  /** Fills the checks one by one and pushes a reason for each that fails. */
  method VerifyDecision(v: Verifier, d: Decision, a: Action, at: int, requirements: Option<Digest>)
    returns (valid: bool, reasons: seq<Reason>)
    ensures valid == Binds(v, d, a, at, requirements)
    ensures valid <==> reasons == []
    ensures Distinct(reasons)
    ensures !SchemasHold(v, d, a) ==> reasons == [InvalidDecisionSchema]
    ensures SchemasHold(v, d, a) ==>
              forall reason :: reason in reasons <==> Justifies(reason, v, d, a, at, requirements)
  {
    hide Justifies, KeyUnknown, Signed, BodySchema, RegistrySchema, ReferenceFits, HashAction, Fingerprint, SchemasHold;
    SchemasMean(v, d, a);
    if !BodySchema(d.body) || !ReferenceFits(a.rail, a.reference) || !RegistrySchema(v.registry) {
      return false, [InvalidDecisionSchema];
    }
    reasons := AddReason([], Fingerprint(d.body) == d.fingerprint, FingerprintMismatch);
    reasons := CheckSignature(v, d, reasons);
    reasons := AddReason(reasons, HashAction(a) == d.body.actionHash, ActionHashMismatch);
    reasons := AddReason(reasons, Restates(d.body, a), DecisionBindingMismatch);
    reasons := AddReason(reasons, d.body.issuedAt <= at < d.body.expiresAt, DecisionExpired);
    reasons := AddReason(reasons, v.policyVersion.Some? ==> d.body.policyVersion == v.policyVersion.value,
                         PolicyVersionMismatch);
    reasons := AddReason(reasons, RequirementsMatch(d.body, requirements), PaymentRequirementsMismatch);
    valid := reasons == [];
    forall reason ensures reason in reasons <==> Justifies(reason, v, d, a, at, requirements) {
      JustifiedByOneOf(reason, v, d, a, at, requirements);
    }
  }

  lemma JustifiedByOneOf(reason: Reason, v: Verifier, d: Decision, a: Action, at: int, requirements: Option<Digest>)
    ensures Justifies(reason, v, d, a, at, requirements)
       <==> || (reason == FingerprintMismatch && Fingerprint(d.body) != d.fingerprint)
            || (reason == UnknownSigningKey && KeyUnknown(v, d))
            || (reason == InvalidSignature && !KeyUnknown(v, d) && !Signed(v, d))
            || (reason == ActionHashMismatch && HashAction(a) != d.body.actionHash)
            || (reason == DecisionBindingMismatch && !Restates(d.body, a))
            || (reason == DecisionExpired && !(d.body.issuedAt <= at < d.body.expiresAt))
            || (reason == PolicyVersionMismatch
                && v.policyVersion.Some? && d.body.policyVersion != v.policyVersion.value)
            || (reason == PaymentRequirementsMismatch && !RequirementsMatch(d.body, requirements))
  {
  }

  /** Fingerprint first, then sign the body together with it. */
  function Attach(b: Body, sign: (Body, Digest) -> string): (d: Decision) {
    Decision(b, Fingerprint(b), sign(b, Fingerprint(b)))
  }

  /** What a signer that stays within its ledger guarantees: a decision that verifies for an action is one the
      key holder signed, for exactly that action, and no other action verifies against it. */
  lemma ValidDecisionsAreAuthentic(v: Verifier, ledger: map<string, set<Body>>, d: Decision, a: Action, at: int,
                                   requirements: Option<Digest>)
    requires forall k, b, f, s :: v.check(k, b, f, s) ==> k in ledger && b in ledger[k]
    requires Binds(v, d, a, at, requirements)
    ensures exists k :: k in v.registry && Usable(k, d.body) && k.publicKey in ledger && d.body in ledger[k.publicKey]
    ensures && d.body.principalId == a.principalId && d.body.agentId == a.agentId && d.body.rail == a.rail
            && d.body.transaction == a.transaction && d.body.reference == a.reference
    ensures forall a', at', r :: Binds(v, d, a', at', r) ==> a' == a
    ensures forall d', at', r :: Binds(v, d', a, at', r) ==>
              d'.body.transaction == d.body.transaction && d'.body.reference == d.body.reference
  {
    var i :| 0 <= i < |v.registry| && Usable(v.registry[i], d.body)
             && v.check(v.registry[i].publicKey, d.body, d.fingerprint, d.signature);
    assert v.registry[i] in v.registry;
  }

  /** Issuing then verifying succeeds exactly during the decision's lifetime, under the policy version and for the
      payment requirements, if any, that the verifier asks for. */
  lemma IssuedDecisionsVerify(v: Verifier, b: Body, sign: (Body, Digest) -> string, key: Key, a: Action, at: int,
                              requirements: Option<Digest>)
    requires BodySchema(b) && RegistrySchema(v.registry) && ReferenceFits(a.rail, a.reference)
    requires key in v.registry && Usable(key, b)
    requires forall x, f :: v.check(key.publicKey, x, f, sign(x, f))
    requires b.actionHash == HashAction(a) && Restates(b, a)
    ensures Binds(v, Attach(b, sign), a, at, requirements)
       <==> && b.issuedAt <= at < b.expiresAt
            && (v.policyVersion == None || v.policyVersion == Some(b.policyVersion))
            && RequirementsMatch(b, requirements)
  {
    var i :| 0 <= i < |v.registry| && v.registry[i] == key;
    assert Signed(v, Attach(b, sign));
  }
}
