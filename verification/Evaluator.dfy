/**
 * One conformance case (packages/pulse-conformance-evaluator/src/evaluator.ts): the codes each check raises, and the
 * evaluation in the order of the source.  Hashing, addresses, schemas and signatures are parameters.
 */
module Evaluator {
  import opened Prelude
  import opened Failures

  // ----- the case

  datatype Merchant = Merchant(id: string, name: string, website: Option<string>)
  datatype Amount = Amount(amount: nat, currency: string)

  datatype Extension = Extension(version: nat, scheme: string, network: string, asset: string, amount: nat,
                                 payTo: string, payer: string, payeeId: string, paymentAmount: Amount,
                                 maxTimeoutSeconds: nat, domainName: string, domainVersion: string, nonceBinding: string)

  datatype Instrument = Instrument(id: string, kind: string, description: string, x402: Option<Extension>)

  /** What the loop reads of a constraint; a part is absent where its type is another than the loop asks for. */
  datatype Constraint =
    | Reference(transactionId: Option<string>)
    | Instruments(allowed: seq<Option<Instrument>>)
    | AmountRange(currency: Option<string>, max: Option<real>, min: Option<real>)
    | Payees(ids: seq<Option<string>>)
    | Unsupported(kind: string)

  datatype Kind = ReferenceKind | InstrumentsKind | AmountKind | PayeesKind

  datatype Open = Open(constraints: seq<Constraint>, payee: Option<Merchant>, amount: Option<Amount>,
                       instrument: Option<Instrument>, executionDate: Option<string>, iat: nat, exp: nat, jwk: string)

  datatype Closed = Closed(transactionId: string, payee: Merchant, amount: Amount, instrument: Instrument,
                           executionDate: string, iat: nat, exp: nat)

  datatype Receipt = Receipt(success: bool, reference: string, networkConfirmationId: Option<string>, rest: string)

  datatype Verification = Verification(verifiedAt: nat, clockSkew: nat, openCheckoutReference: string,
                                       closedClaimsHash: string, openClaimsHash: string, closedReference: string)

  datatype Requirements = Requirements(scheme: string, network: string, asset: string, amount: nat, payTo: string,
                                       maxTimeoutSeconds: nat, name: string, version: string, transferMethod: string,
                                       mandateReference: string, nonceDerivation: string)

  datatype Authorization = Authorization(payer: string, to: string, value: nat, validAfter: nat, validBefore: nat,
                                         nonce: string)

  datatype Payload = Payload(x402Version: nat, accepted: Requirements, hasExtensions: bool,
                             authorization: Authorization, signature: string)

  datatype Settlement = Settlement(success: bool, payer: string, transaction: string, network: string,
                                   amount: Option<nat>)

  datatype Case = Case(id: string, now: nat, open: Open, closed: Closed, receipt: Option<Receipt>,
                       verification: Verification, requirements: Requirements, payload: Payload,
                       settlement: Settlement, inputHash: string)

  // ----- what the structured verifier reports

  datatype Stage<T> = Verified(claims: T) | Invalid | NotEvaluated

  datatype Source = RootJwt | OpenMandate | ClosedJwt | ClosedMandate
  datatype Bound = Bound(source: Source, expiresAt: real)
  datatype Time = Time(stage: Stage<()>, bounds: seq<Bound>, effective: Option<real>)

  datatype Structured = Structured(open: Stage<string>, closed: Stage<(string, string)>, keyBinding: Stage<()>,
                                   time: Time, receipt: Stage<string>)

  predicate DistinctSources(bounds: seq<Bound>) {
    forall i, j :: 0 <= i < j < |bounds| ==> bounds[i].source != bounds[j].source
  }

  function Least(bounds: seq<Bound>): (least: real)
    requires bounds != []
    decreases |bounds|
  {
    if |bounds| == 1 || bounds[0].expiresAt <= Least(bounds[1..]) then bounds[0].expiresAt else Least(bounds[1..])
  }

  predicate HasSource(bounds: seq<Bound>, source: Source) {
    exists i :: 0 <= i < |bounds| && bounds[i].source == source
  }

  /** The bridge's refinement: distinct sources, the true minimum, and both mandates when verified. */
  predicate TimeConsistent(time: Time) {
    && DistinctSources(time.bounds)
    && time.effective == (if time.bounds == [] then None else Some(Least(time.bounds)))
    && (time.stage.Verified? ==> HasSource(time.bounds, OpenMandate) && HasSource(time.bounds, ClosedMandate))
  }

  /** Everything the evaluator calls. */
  datatype Library = Library(inputHashOf: Case -> string, openHashOf: Open -> string, closedHashOf: Closed -> string,
                             parseOpen: string -> Option<Open>, parseClosed: string -> Option<Closed>,
                             parseReceipt: string -> Option<Receipt>, jwtHashOf: string -> string,
                             nonceOf: string -> Option<string>, lower: string -> string,
                             addressOf: string -> Option<string>, isHex32: string -> bool,
                             signed: (Requirements, Authorization, string) -> bool)

  const NONCE_DERIVATION := "base64url-decode-ap2-mandate-reference"
  const TRANSFER_METHOD := "eip3009"
  const SAFETY_BUFFER := 6

  predicate SameAddress(lib: Library, a: string, b: string) {
    lib.addressOf(a).Some? && lib.addressOf(a) == lib.addressOf(b)
  }

  function AllVerified(s: Option<Structured>): bool {
    && s.Some? && s.value.open.Verified? && s.value.closed.Verified? && s.value.keyBinding.Verified?
    && s.value.time.stage.Verified? && s.value.receipt.Verified?
  }

  function SomeInvalid(s: Option<Structured>): bool {
    && s.Some? && (s.value.open.Invalid? || s.value.closed.Invalid? || s.value.keyBinding.Invalid?
                   || s.value.time.stage.Invalid? || s.value.receipt.Invalid?)
  }

  function VerifiedOpen(lib: Library, s: Option<Structured>): Option<Open> {
    if s.Some? && s.value.open.Verified? then lib.parseOpen(s.value.open.claims) else None
  }

  function VerifiedClosed(lib: Library, s: Option<Structured>): Option<Closed> {
    if s.Some? && s.value.closed.Verified? then lib.parseClosed(s.value.closed.claims.0) else None
  }

  function VerifiedReceipt(lib: Library, s: Option<Structured>): Option<Receipt> {
    if s.Some? && s.value.receipt.Verified? then lib.parseReceipt(s.value.receipt.claims) else None
  }

  function DerivedReference(lib: Library, s: Option<Structured>): Option<string> {
    if VerifiedClosed(lib, s).Some? then Some(lib.jwtHashOf(s.value.closed.claims.1)) else None
  }

  /** The mandate pairs under examination: the normalised and the signed one, or none. */
  function Pairs(lib: Library, c: Case, s: Option<Structured>): seq<(Open, Closed)> {
    if VerifiedOpen(lib, s).Some? && VerifiedClosed(lib, s).Some? && s.value.keyBinding.Verified?
    then [(c.open, c.closed), (VerifiedOpen(lib, s).value, VerifiedClosed(lib, s).value)]
    else []
  }

  // ----- the codes of each group of checks

  function ContextCodes(lib: Library, c: Case): set<Code> {
    Flag(INPUT_HASH_MISMATCH, lib.inputHashOf(c) != c.inputHash)
    + Flag(AP2_VERIFICATION_CONTEXT_MISMATCH, c.verification.verifiedAt != c.now || c.verification.clockSkew != 0)
  }

  function MandateStageCodes(lib: Library, s: Option<Structured>): set<Code> {
    Flag(AP2_CRYPTOGRAPHIC_EVIDENCE_INVALID, s.None?)
    + Flag(AP2_CRYPTOGRAPHIC_EVIDENCE_INVALID, !AllVerified(s) && !SomeInvalid(s))
    + Flag(AP2_OPEN_MANDATE_UNVERIFIED,
           s.Some? && (s.value.open.Invalid? || (s.value.open.Verified? && VerifiedOpen(lib, s).None?)))
    + Flag(AP2_CLOSED_MANDATE_UNVERIFIED,
           s.Some? && (s.value.closed.Invalid? || (s.value.closed.Verified? && VerifiedClosed(lib, s).None?)))
  }

  function StageCodes(lib: Library, c: Case, s: Option<Structured>): set<Code> {
    MandateStageCodes(lib, s)
    + Flag(AP2_KEY_BINDING_UNVERIFIED, s.Some? && s.value.keyBinding.Invalid?)
    + Flag(AP2_RECEIPT_UNVERIFIED,
           (s.Some? && (s.value.receipt.Invalid? || (s.value.receipt.Verified? && VerifiedReceipt(lib, s).None?)))
           || (VerifiedReceipt(lib, s).Some? && c.receipt != VerifiedReceipt(lib, s)))
    + Flag(AP2_MANDATE_TIME_INVALID, s.Some? && s.value.time.stage.Invalid?)
  }

  function HashCodes(lib: Library, c: Case, s: Option<Structured>): set<Code> {
    Flag(AP2_CLOSED_MANDATE_REFERENCE_MISMATCH,
         DerivedReference(lib, s).Some? && DerivedReference(lib, s).value != c.verification.closedReference)
    + Flag(AP2_CLOSED_MANDATE_CLAIMS_HASH_MISMATCH,
           lib.closedHashOf(c.closed) != c.verification.closedClaimsHash
           || (VerifiedClosed(lib, s).Some?
               && lib.closedHashOf(VerifiedClosed(lib, s).value) != c.verification.closedClaimsHash))
    + Flag(AP2_OPEN_MANDATE_CLAIMS_HASH_MISMATCH,
           lib.openHashOf(c.open) != c.verification.openClaimsHash
           || (VerifiedOpen(lib, s).Some? && lib.openHashOf(VerifiedOpen(lib, s).value) != c.verification.openClaimsHash))
  }

  predicate ReferencesMatch(constraints: seq<Constraint>, reference: string) {
    && (exists i :: 0 <= i < |constraints| && constraints[i].Reference?)
    && forall i :: 0 <= i < |constraints| && constraints[i].Reference? ==> constraints[i].transactionId == Some(reference)
  }

  function CheckoutCodes(lib: Library, c: Case, s: Option<Structured>): set<Code> {
    Flag(AP2_CHECKOUT_BINDING_UNVERIFIED,
         Pairs(lib, c, s) != []
         && (!ReferencesMatch(VerifiedOpen(lib, s).value.constraints, c.verification.openCheckoutReference)
             || VerifiedClosed(lib, s).value.transactionId != c.verification.openCheckoutReference))
  }

  // constraints

  function KindOf(constraint: Constraint): Option<Kind> {
    match constraint
    case Reference(_) => Some(ReferenceKind)
    case Instruments(_) => Some(InstrumentsKind)
    case AmountRange(_, _, _) => Some(AmountKind)
    case Payees(_) => Some(PayeesKind)
    case Unsupported(_) => None
  }

  predicate InstrumentsMatch(a: Instrument, selected: Instrument) {
    a.id == selected.id && a.kind == selected.kind && a.x402.Some? && selected.x402.Some? && a.x402 == selected.x402
  }

  predicate InstrumentAllowed(allowed: seq<Option<Instrument>>, selected: Instrument) {
    exists i :: 0 <= i < |allowed| && allowed[i].Some? && InstrumentsMatch(allowed[i].value, selected)
  }

  predicate InRange(amount: nat, min: Option<real>, max: Option<real>) {
    min.Some? && max.Some? && min.value <= amount as real <= max.value
  }

  predicate PayeeAllowed(ids: seq<Option<string>>, payee: Merchant) {
    payee.id != "" && exists i :: 0 <= i < |ids| && ids[i] == Some(payee.id)
  }

  predicate Holds(constraint: Constraint, closed: Closed, reference: string) {
    match constraint
    case Reference(id) => id == Some(reference)
    case Instruments(allowed) => InstrumentAllowed(allowed, closed.instrument)
    case AmountRange(currency, max, min) =>
      currency == Some(closed.amount.currency) && InRange(closed.amount.amount, min, max)
    case Payees(ids) => PayeeAllowed(ids, closed.payee)
    case Unsupported(_) => false
  }

  function ConstraintCodes(constraint: Constraint, closed: Closed, reference: string): set<Code> {
    if Holds(constraint, closed, reference) then {}
    else match constraint
      case Reference(_) => {AP2_PAYMENT_REFERENCE_MISMATCH}
      case Instruments(_) => {AP2_PAYMENT_INSTRUMENT_NOT_ALLOWED, AP2_CONSTRAINT_VIOLATION}
      case AmountRange(_, _, _) => {AP2_CONSTRAINT_VIOLATION}
      case Payees(_) => {AP2_CONSTRAINT_VIOLATION}
      case Unsupported(_) => {AP2_UNSUPPORTED_CONSTRAINT}
  }

  function AllConstraintCodes(constraints: seq<Constraint>, closed: Closed, reference: string): set<Code>
    decreases |constraints|
  {
    if constraints == [] then {}
    else ConstraintCodes(constraints[0], closed, reference) + AllConstraintCodes(constraints[1..], closed, reference)
  }

  predicate HasKind(constraints: seq<Constraint>, kind: Kind) {
    exists i :: 0 <= i < |constraints| && KindOf(constraints[i]) == Some(kind)
  }

  predicate AllKinds(constraints: seq<Constraint>) {
    && HasKind(constraints, ReferenceKind) && HasKind(constraints, InstrumentsKind)
    && HasKind(constraints, AmountKind) && HasKind(constraints, PayeesKind)
  }

  predicate PresetsMatch(open: Open, closed: Closed) {
    && (open.payee.Some? ==> open.payee.value.id != "" && closed.payee.id != "" && open.payee.value.id == closed.payee.id)
    && (open.amount.Some? ==> open.amount.value == closed.amount)
    && (open.instrument.Some? ==> open.instrument.value == closed.instrument)
    && (open.executionDate.Some? ==> open.executionDate.value == closed.executionDate)
  }

  predicate PayeeIdentified(e: Extension, closed: Closed) { e.payeeId != "" && e.payeeId == closed.payee.id }

  function ExtensionTermsCodes(lib: Library, e: Extension, r: Requirements): set<Code> {
    Flag(X402_UNSUPPORTED_EXTENSION, e.version != 2 || e.nonceBinding != NONCE_DERIVATION)
    + Flag(AP2_X402_SCHEME_MISMATCH, e.scheme != "exact" || r.scheme != "exact" || e.scheme != r.scheme)
    + Flag(AP2_X402_NETWORK_MISMATCH, e.network != r.network)
    + Flag(AP2_X402_ASSET_MISMATCH, !SameAddress(lib, e.asset, r.asset))
    + Flag(AP2_X402_AMOUNT_MISMATCH, e.amount != r.amount)
  }

  function ExtensionPartyCodes(lib: Library, e: Extension, r: Requirements, closed: Closed): set<Code> {
    Flag(AP2_X402_PAYEE_MISMATCH, !SameAddress(lib, e.payTo, r.payTo) || !PayeeIdentified(e, closed))
    + Flag(AP2_X402_COMMERCE_BINDING_MISMATCH, !PayeeIdentified(e, closed) || e.paymentAmount != closed.amount)
    + Flag(AP2_X402_TIMEOUT_MISMATCH, e.maxTimeoutSeconds != r.maxTimeoutSeconds)
    + Flag(AP2_X402_EIP712_DOMAIN_MISMATCH, e.domainName != r.name || e.domainVersion != r.version)
  }

  function ExtensionCodes(lib: Library, e: Extension, r: Requirements, closed: Closed): set<Code> {
    ExtensionTermsCodes(lib, e, r) + ExtensionPartyCodes(lib, e, r, closed)
  }

  function PairTermsCodes(c: Case, open: Open, closed: Closed): set<Code> {
    var reference := c.verification.openCheckoutReference;
    Flag(AP2_PAYMENT_REFERENCE_MISMATCH, !ReferencesMatch(open.constraints, reference))
    + Flag(AP2_CLOSED_TRANSACTION_ID_MISMATCH, closed.transactionId != reference)
    + AllConstraintCodes(open.constraints, closed, reference)
    + Flag(AP2_CONSTRAINT_VIOLATION, !AllKinds(open.constraints))
  }

  function PairCodes(lib: Library, c: Case, open: Open, closed: Closed): set<Code> {
    PairTermsCodes(c, open, closed)
    + Flag(AP2_OPEN_PRESET_MISMATCH, !PresetsMatch(open, closed))
    + Flag(AP2_MANDATE_TIME_INVALID, open.iat > c.now || closed.iat > c.now || open.exp <= c.now || closed.exp <= c.now)
    + Flag(AP2_PAYMENT_INSTRUMENT_NOT_ALLOWED, closed.instrument.kind != "x402")
    + (if closed.instrument.x402.Some? then ExtensionCodes(lib, closed.instrument.x402.value, c.requirements, closed) else {})
  }

  function ReceiptCodes(c: Case, receipt: Receipt, derived: Option<string>): set<Code> {
    Flag(AP2_RECEIPT_NOT_SUCCESSFUL, !receipt.success)
    + Flag(AP2_RECEIPT_REFERENCE_MISMATCH, derived.Some? && receipt.reference != derived.value)
    + Flag(AP2_RECEIPT_TRANSACTION_MISMATCH,
           receipt.success && receipt.networkConfirmationId != Some(c.settlement.transaction))
  }

  function ReceiptsCodes(lib: Library, c: Case, s: Option<Structured>): set<Code> {
    if VerifiedReceipt(lib, s).None? then {}
    else ReceiptCodes(c, VerifiedReceipt(lib, s).value, DerivedReference(lib, s))
         + (if c.receipt.Some? then ReceiptCodes(c, c.receipt.value, DerivedReference(lib, s)) else {})
  }

  function X402Codes(c: Case, derived: Option<string>): set<Code> {
    var r := c.requirements;
    Flag(X402_ACCEPTED_REQUIREMENTS_MISMATCH, r != c.payload.accepted)
    + Flag(X402_UNSUPPORTED_EXTENSION,
           c.payload.hasExtensions || c.payload.x402Version != 2 || r.transferMethod != TRANSFER_METHOD
           || r.nonceDerivation != NONCE_DERIVATION)
    + Flag(X402_MANDATE_REFERENCE_MISMATCH, derived.Some? && r.mandateReference != derived.value)
  }

  /** What a pair says about the authorization's payer and expiry. */
  function PairAuthorizationCodes(lib: Library, c: Case, open: Open, closed: Closed): set<Code> {
    var a := c.payload.authorization;
    Flag(EIP3009_PAYER_MISMATCH,
         closed.instrument.x402.Some? && !SameAddress(lib, closed.instrument.x402.value.payer, a.payer))
    + Flag(EIP3009_VALIDITY_EXCEEDS_AP2_EXPIRY, a.validBefore > if open.exp < closed.exp then open.exp else closed.exp)
  }

  function TransferCodes(lib: Library, c: Case): set<Code> {
    var a, r := c.payload.authorization, c.requirements;
    Flag(EIP3009_RECIPIENT_MISMATCH, !SameAddress(lib, a.to, r.payTo))
    + Flag(EIP3009_VALUE_MISMATCH, a.value != r.amount)
    + Flag(EIP3009_VALID_AFTER_IN_FUTURE, a.validAfter >= c.now)
    + Flag(EIP3009_VALID_BEFORE_EXPIRED, a.validBefore < c.now + SAFETY_BUFFER)
    + Flag(EIP3009_VALIDITY_EXCEEDS_TIMEOUT, a.validBefore > c.now + r.maxTimeoutSeconds)
  }

  function AuthorizationCodes(lib: Library, c: Case, s: Option<Structured>): set<Code> {
    var a, r := c.payload.authorization, c.requirements;
    TransferCodes(lib, c)
    + Flag(EIP3009_VALIDITY_EXCEEDS_AP2_EXPIRY,
           s.Some? && s.value.time.effective.Some? && a.validBefore > s.value.time.effective.value.Floor)
    + Flag(EIP3009_NONCE_BINDING_MISMATCH,
           DerivedReference(lib, s).Some? && lib.nonceOf(DerivedReference(lib, s).value).Some?
           && lib.lower(a.nonce) != lib.nonceOf(DerivedReference(lib, s).value).value)
    + Flag(EIP3009_SIGNATURE_INVALID, !lib.signed(r, a, c.payload.signature))
  }

  function SettlementCodes(lib: Library, c: Case): set<Code> {
    var t := c.settlement;
    Flag(SETTLEMENT_FAILED, !t.success)
    + Flag(SETTLEMENT_NETWORK_MISMATCH, t.network != c.requirements.network)
    + Flag(SETTLEMENT_PAYER_MISMATCH, !SameAddress(lib, t.payer, c.payload.authorization.payer))
    + Flag(SETTLEMENT_AMOUNT_MISMATCH, t.amount.Some? && t.amount.value != c.requirements.amount)
    + Flag(SETTLEMENT_TRANSACTION_INVALID, !lib.isHex32(t.transaction))
  }

  function PairsCodes(lib: Library, c: Case, pairs: seq<(Open, Closed)>): set<Code>
    decreases |pairs|
  {
    if pairs == [] then {}
    else PairCodes(lib, c, pairs[0].0, pairs[0].1) + PairAuthorizationCodes(lib, c, pairs[0].0, pairs[0].1)
         + PairsCodes(lib, c, pairs[1..])
  }

  function MandateCodes(lib: Library, c: Case, s: Option<Structured>): set<Code> {
    ContextCodes(lib, c) + StageCodes(lib, c, s) + HashCodes(lib, c, s) + CheckoutCodes(lib, c, s)
    + PairsCodes(lib, c, Pairs(lib, c, s))
  }

  function PaymentCodes(lib: Library, c: Case, s: Option<Structured>): set<Code> {
    ReceiptsCodes(lib, c, s) + X402Codes(c, DerivedReference(lib, s)) + AuthorizationCodes(lib, c, s)
    + SettlementCodes(lib, c)
  }

  /** All codes of a case. */
  function Codes(lib: Library, c: Case, s: Option<Structured>): set<Code> {
    MandateCodes(lib, c, s) + PaymentCodes(lib, c, s)
  }

  /** The bridge's report, if it came and is consistent. */
  function Parsed(report: Option<Structured>): Option<Structured> {
    if report.Some? && TimeConsistent(report.value.time) then report else None
  }

  function MandatoryChecks(lib: Library, s: Option<Structured>): bool {
    && AllVerified(s) && VerifiedOpen(lib, s).Some? && VerifiedClosed(lib, s).Some? && VerifiedReceipt(lib, s).Some?
  }

  datatype Result = Result(id: string, accepted: bool, failureCodes: seq<Code>)

  // ----- the evaluation, in the order of the source

  method EvaluateConstraints(open: Open, closed: Closed, reference: string, failures: FailureCollector)
    modifies failures
    ensures failures.codes == old(failures.codes) + AllConstraintCodes(open.constraints, closed, reference)
                            + Flag(AP2_CONSTRAINT_VIOLATION, !AllKinds(open.constraints))
  {
    var seen: set<Kind> := {};
    assert open.constraints[0..] == open.constraints;
    for i := 0 to |open.constraints|
      invariant failures.codes + AllConstraintCodes(open.constraints[i..], closed, reference)
             == old(failures.codes) + AllConstraintCodes(open.constraints, closed, reference)
      invariant forall kind :: kind in seen <==> HasKind(open.constraints[..i], kind)
    {
      var constraint := open.constraints[i];
      assert open.constraints[i..][1..] == open.constraints[i + 1..];
      assert open.constraints[..i + 1] == open.constraints[..i] + [constraint];
      SeenGrows(open.constraints, i);
      hide HasKind, AllConstraintCodes;
      ghost var before := failures.codes;
      match constraint {
        case Unsupported(_) =>
          failures.Add(AP2_UNSUPPORTED_CONSTRAINT, true);
        case Reference(id) =>
          seen := seen + {ReferenceKind};
          failures.Add(AP2_PAYMENT_REFERENCE_MISMATCH, id != Some(reference));
        case Instruments(allowed) =>
          seen := seen + {InstrumentsKind};
          var mismatch := !InstrumentAllowed(allowed, closed.instrument);
          failures.Add(AP2_PAYMENT_INSTRUMENT_NOT_ALLOWED, mismatch);
          failures.Add(AP2_CONSTRAINT_VIOLATION, mismatch);
        case AmountRange(currency, max, min) =>
          seen := seen + {AmountKind};
          failures.Add(AP2_CONSTRAINT_VIOLATION,
            currency != Some(closed.amount.currency) || min.None? || max.None?
            || closed.amount.amount as real < min.value || closed.amount.amount as real > max.value);
        case Payees(ids) =>
          seen := seen + {PayeesKind};
          failures.Add(AP2_CONSTRAINT_VIOLATION, !PayeeAllowed(ids, closed.payee));
      }
      assert failures.codes == before + ConstraintCodes(constraint, closed, reference);
      SplitCodes(open.constraints, i, closed, reference);
    }
    assert open.constraints[..|open.constraints|] == open.constraints;
    assert AllConstraintCodes(open.constraints[|open.constraints|..], closed, reference) == {};
    hide HasKind, AllConstraintCodes;
    failures.Add(AP2_CONSTRAINT_VIOLATION, ReferenceKind !in seen);
    failures.Add(AP2_CONSTRAINT_VIOLATION, InstrumentsKind !in seen);
    failures.Add(AP2_CONSTRAINT_VIOLATION, AmountKind !in seen);
    failures.Add(AP2_CONSTRAINT_VIOLATION, PayeesKind !in seen);
  }

  lemma SeenGrows(constraints: seq<Constraint>, i: nat)
    requires i < |constraints|
    ensures forall kind :: HasKind(constraints[..i + 1], kind)
              <==> HasKind(constraints[..i], kind) || KindOf(constraints[i]) == Some(kind)
  {
    var a, b := constraints[..i], constraints[..i + 1];
    assert forall j :: 0 <= j < i ==> a[j] == b[j];
    assert b[i] == constraints[i];
    forall kind ensures HasKind(b, kind) <==> HasKind(a, kind) || KindOf(constraints[i]) == Some(kind) {
      if HasKind(a, kind) {
        var j :| 0 <= j < |a| && KindOf(a[j]) == Some(kind);
        assert KindOf(b[j]) == Some(kind);
      }
      if KindOf(constraints[i]) == Some(kind) { assert KindOf(b[i]) == Some(kind); }
    }
  }

  lemma SplitCodes(constraints: seq<Constraint>, i: nat, closed: Closed, reference: string)
    requires i < |constraints|
    ensures AllConstraintCodes(constraints[i..], closed, reference)
         == ConstraintCodes(constraints[i], closed, reference) + AllConstraintCodes(constraints[i + 1..], closed, reference)
  {
    assert constraints[i..][1..] == constraints[i + 1..];
  }

  method EvaluatePresets(open: Open, closed: Closed, failures: FailureCollector)
    modifies failures
    ensures failures.codes == old(failures.codes) + Flag(AP2_OPEN_PRESET_MISMATCH, !PresetsMatch(open, closed))
  {
    var mismatch := false;
    if open.payee.Some? {
      mismatch := mismatch || open.payee.value.id == "" || closed.payee.id == "" || open.payee.value.id != closed.payee.id;
    }
    if open.amount.Some? {
      mismatch := mismatch || open.amount.value != closed.amount;
    }
    if open.instrument.Some? {
      mismatch := mismatch || open.instrument.value != closed.instrument;
    }
    if open.executionDate.Some? {
      mismatch := mismatch || open.executionDate.value != closed.executionDate;
    }
    failures.Add(AP2_OPEN_PRESET_MISMATCH, mismatch);
  }

  method EvaluateAp2X402(lib: Library, e: Extension, r: Requirements, closed: Closed, failures: FailureCollector)
    modifies failures
    ensures failures.codes == old(failures.codes) + ExtensionCodes(lib, e, r, closed)
  {
    hide Flag;
    hide SameAddress;
    var payeeIdentityMismatch := e.payeeId == "" || e.payeeId != closed.payee.id;
    failures.Add(X402_UNSUPPORTED_EXTENSION, e.version != 2 || e.nonceBinding != NONCE_DERIVATION);
    failures.Add(AP2_X402_SCHEME_MISMATCH, e.scheme != "exact" || r.scheme != "exact" || e.scheme != r.scheme);
    failures.Add(AP2_X402_NETWORK_MISMATCH, e.network != r.network);
    failures.Add(AP2_X402_ASSET_MISMATCH, !SameAddress(lib, e.asset, r.asset));
    failures.Add(AP2_X402_AMOUNT_MISMATCH, e.amount != r.amount);
    assert failures.codes == old(failures.codes) + ExtensionTermsCodes(lib, e, r);
    hide ExtensionTermsCodes;
    failures.Add(AP2_X402_PAYEE_MISMATCH, !SameAddress(lib, e.payTo, r.payTo) || payeeIdentityMismatch);
    failures.Add(AP2_X402_COMMERCE_BINDING_MISMATCH, payeeIdentityMismatch || e.paymentAmount != closed.amount);
    failures.Add(AP2_X402_TIMEOUT_MISMATCH, e.maxTimeoutSeconds != r.maxTimeoutSeconds);
    failures.Add(AP2_X402_EIP712_DOMAIN_MISMATCH, e.domainName != r.name || e.domainVersion != r.version);
  }

  method EvaluatePair(lib: Library, c: Case, open: Open, closed: Closed, failures: FailureCollector)
    modifies failures
    ensures failures.codes == old(failures.codes) + PairCodes(lib, c, open, closed)
  {
    hide Flag;
    hide AllConstraintCodes, AllKinds, PresetsMatch, ReferencesMatch, ExtensionCodes;
    var reference := c.verification.openCheckoutReference;
    failures.Add(AP2_PAYMENT_REFERENCE_MISMATCH, !ReferencesMatch(open.constraints, reference));
    failures.Add(AP2_CLOSED_TRANSACTION_ID_MISMATCH, closed.transactionId != reference);
    EvaluateConstraints(open, closed, reference, failures);
    assert failures.codes == old(failures.codes) + PairTermsCodes(c, open, closed);
    hide PairTermsCodes;
    EvaluatePresets(open, closed, failures);
    failures.Add(AP2_MANDATE_TIME_INVALID,
      open.iat > c.now || closed.iat > c.now || open.exp <= c.now || closed.exp <= c.now);
    failures.Add(AP2_PAYMENT_INSTRUMENT_NOT_ALLOWED, closed.instrument.kind != "x402");
    if closed.instrument.x402.Some? {
      EvaluateAp2X402(lib, closed.instrument.x402.value, c.requirements, closed, failures);
    }
  }

  method EvaluateReceipt(c: Case, receipt: Receipt, derived: Option<string>, failures: FailureCollector)
    modifies failures
    ensures failures.codes == old(failures.codes) + ReceiptCodes(c, receipt, derived)
  {
    hide Flag;
    failures.Add(AP2_RECEIPT_NOT_SUCCESSFUL, !receipt.success);
    failures.Add(AP2_RECEIPT_REFERENCE_MISMATCH, derived.Some? && receipt.reference != derived.value);
    failures.Add(AP2_RECEIPT_TRANSACTION_MISMATCH,
      receipt.success && receipt.networkConfirmationId != Some(c.settlement.transaction));
  }

  /** The stages the verifier reported, and what they were claimed to contain. */
  method EvaluateStages(lib: Library, c: Case, s: Option<Structured>, failures: FailureCollector)
    modifies failures
    ensures failures.codes == old(failures.codes) + StageCodes(lib, c, s)
  {
    hide Flag;
    hide AllVerified, SomeInvalid, VerifiedOpen, VerifiedClosed, VerifiedReceipt;
    failures.Add(AP2_CRYPTOGRAPHIC_EVIDENCE_INVALID, s.None?);
    failures.Add(AP2_CRYPTOGRAPHIC_EVIDENCE_INVALID, !AllVerified(s) && !SomeInvalid(s));
    failures.Add(AP2_OPEN_MANDATE_UNVERIFIED,
      s.Some? && (s.value.open.Invalid? || (s.value.open.Verified? && VerifiedOpen(lib, s).None?)));
    failures.Add(AP2_CLOSED_MANDATE_UNVERIFIED,
      s.Some? && (s.value.closed.Invalid? || (s.value.closed.Verified? && VerifiedClosed(lib, s).None?)));
    assert failures.codes == old(failures.codes) + MandateStageCodes(lib, s);
    hide MandateStageCodes;
    failures.Add(AP2_KEY_BINDING_UNVERIFIED, s.Some? && s.value.keyBinding.Invalid?);
    failures.Add(AP2_RECEIPT_UNVERIFIED,
      (s.Some? && (s.value.receipt.Invalid? || (s.value.receipt.Verified? && VerifiedReceipt(lib, s).None?)))
      || (VerifiedReceipt(lib, s).Some? && (c.receipt.None? || c.receipt.value != VerifiedReceipt(lib, s).value)));
    failures.Add(AP2_MANDATE_TIME_INVALID, s.Some? && s.value.time.stage.Invalid?);
  }

  method EvaluateHashes(lib: Library, c: Case, s: Option<Structured>, failures: FailureCollector)
    modifies failures
    ensures failures.codes == old(failures.codes) + HashCodes(lib, c, s)
  {
    hide Flag;
    hide VerifiedOpen, VerifiedClosed, DerivedReference;
    var v := c.verification;
    var derived := DerivedReference(lib, s);
    failures.Add(AP2_CLOSED_MANDATE_REFERENCE_MISMATCH, derived.Some? && derived.value != v.closedReference);
    failures.Add(AP2_CLOSED_MANDATE_CLAIMS_HASH_MISMATCH,
      lib.closedHashOf(c.closed) != v.closedClaimsHash
      || (VerifiedClosed(lib, s).Some? && lib.closedHashOf(VerifiedClosed(lib, s).value) != v.closedClaimsHash));
    failures.Add(AP2_OPEN_MANDATE_CLAIMS_HASH_MISMATCH,
      lib.openHashOf(c.open) != v.openClaimsHash
      || (VerifiedOpen(lib, s).Some? && lib.openHashOf(VerifiedOpen(lib, s).value) != v.openClaimsHash));
  }

  method EvaluateAuthorization(lib: Library, c: Case, s: Option<Structured>, failures: FailureCollector)
    modifies failures
    ensures failures.codes == old(failures.codes) + AuthorizationCodes(lib, c, s)
  {
    hide Flag;
    hide SameAddress, DerivedReference;
    var a, r := c.payload.authorization, c.requirements;
    failures.Add(EIP3009_RECIPIENT_MISMATCH, !SameAddress(lib, a.to, r.payTo));
    failures.Add(EIP3009_VALUE_MISMATCH, a.value != r.amount);
    failures.Add(EIP3009_VALID_AFTER_IN_FUTURE, a.validAfter >= c.now);
    failures.Add(EIP3009_VALID_BEFORE_EXPIRED, a.validBefore < c.now + SAFETY_BUFFER);
    failures.Add(EIP3009_VALIDITY_EXCEEDS_TIMEOUT, a.validBefore > c.now + r.maxTimeoutSeconds);
    assert failures.codes == old(failures.codes) + TransferCodes(lib, c);
    hide TransferCodes;
    failures.Add(EIP3009_VALIDITY_EXCEEDS_AP2_EXPIRY,
      s.Some? && s.value.time.effective.Some? && a.validBefore > s.value.time.effective.value.Floor);
    var derived := DerivedReference(lib, s);
    var expected := if derived.Some? then lib.nonceOf(derived.value) else None;
    failures.Add(EIP3009_NONCE_BINDING_MISMATCH, expected.Some? && lib.lower(a.nonce) != expected.value);
    failures.Add(EIP3009_SIGNATURE_INVALID, !lib.signed(r, a, c.payload.signature));
  }

  method EvaluateX402(c: Case, derived: Option<string>, failures: FailureCollector)
    modifies failures
    ensures failures.codes == old(failures.codes) + X402Codes(c, derived)
  {
    hide Flag;
    var r := c.requirements;
    failures.Add(X402_ACCEPTED_REQUIREMENTS_MISMATCH, r != c.payload.accepted);
    failures.Add(X402_UNSUPPORTED_EXTENSION,
      c.payload.hasExtensions || c.payload.x402Version != 2 || r.transferMethod != TRANSFER_METHOD
      || r.nonceDerivation != NONCE_DERIVATION);
    failures.Add(X402_MANDATE_REFERENCE_MISMATCH, derived.Some? && r.mandateReference != derived.value);
  }

  method EvaluateSettlement(lib: Library, c: Case, failures: FailureCollector)
    modifies failures
    ensures failures.codes == old(failures.codes) + SettlementCodes(lib, c)
  {
    hide Flag;
    hide SameAddress;
    var t := c.settlement;
    failures.Add(SETTLEMENT_FAILED, !t.success);
    failures.Add(SETTLEMENT_NETWORK_MISMATCH, t.network != c.requirements.network);
    failures.Add(SETTLEMENT_PAYER_MISMATCH, !SameAddress(lib, t.payer, c.payload.authorization.payer));
    failures.Add(SETTLEMENT_AMOUNT_MISMATCH, t.amount.Some? && t.amount.value != c.requirements.amount);
    failures.Add(SETTLEMENT_TRANSACTION_INVALID, !lib.isHex32(t.transaction));
  }

  /** The two mandate pairs, first against the constraints, then against the authorization. */
  method EvaluatePairs(lib: Library, c: Case, pairs: seq<(Open, Closed)>, failures: FailureCollector)
    modifies failures
    ensures failures.codes == old(failures.codes) + PairsCodes(lib, c, pairs)
  {
    hide PairCodes, SameAddress;
    assert pairs[0..] == pairs;
    for i := 0 to |pairs|
      invariant failures.codes + PairsCodes(lib, c, pairs[i..]) == old(failures.codes) + PairsCodes(lib, c, pairs)
    {
      assert pairs[i..][1..] == pairs[i + 1..];
      var (open, closed) := pairs[i];
      EvaluatePair(lib, c, open, closed, failures);
      var a, x402 := c.payload.authorization, closed.instrument.x402;
      failures.Add(EIP3009_PAYER_MISMATCH, x402.Some? && !SameAddress(lib, x402.value.payer, a.payer));
      failures.Add(EIP3009_VALIDITY_EXCEEDS_AP2_EXPIRY, a.validBefore > if open.exp < closed.exp then open.exp else closed.exp);
    }
    assert pairs[|pairs|..] == [];
  }

  /** A case that does not parse is rejected with one code; `report` is the verifier's, absent when it threw. */
  method EvaluateCase(lib: Library, id: string, parsed: Option<Case>, report: Option<Structured>) returns (r: Result)
    ensures parsed.None? ==> r == Result(id, false, [INPUT_SCHEMA_INVALID])
    ensures parsed.Some? ==>
              var s := Parsed(report);
              && r.id == parsed.value.id && Lists(r.failureCodes, Codes(lib, parsed.value, s))
              && (r.accepted <==> MandatoryChecks(lib, s) && r.failureCodes == [])
  {
    if parsed.None? {
      return Result(id, false, [INPUT_SCHEMA_INVALID]);
    }
    hide Codes, Parsed, MandatoryChecks, Lists;
    r := EvaluateParsed(lib, parsed.value, Parsed(report));
  }

  method EvaluateParsed(lib: Library, c: Case, s: Option<Structured>) returns (r: Result)
    ensures r.id == c.id && Lists(r.failureCodes, Codes(lib, c, s))
    ensures r.accepted <==> MandatoryChecks(lib, s) && r.failureCodes == []
  {
    hide Codes, MandatoryChecks, Lists;
    var failures := new FailureCollector();
    EvaluateChecks(lib, c, s, failures);
    assert {} + Codes(lib, c, s) == Codes(lib, c, s);
    var failureCodes := failures.Ordered();
    r := Result(c.id, MandatoryChecks(lib, s) && failureCodes == [], failureCodes);
  }

  method EvaluateChecks(lib: Library, c: Case, s: Option<Structured>, failures: FailureCollector)
    modifies failures
    ensures failures.codes == old(failures.codes) + Codes(lib, c, s)
  {
    hide MandateCodes, PaymentCodes;
    EvaluateMandates(lib, c, s, failures);
    EvaluatePayment(lib, c, s, failures);
  }

  method EvaluateMandates(lib: Library, c: Case, s: Option<Structured>, failures: FailureCollector)
    modifies failures
    ensures failures.codes == old(failures.codes) + MandateCodes(lib, c, s)
  {
    hide ContextCodes, StageCodes, HashCodes, CheckoutCodes, PairsCodes, Pairs;
    EvaluateContext(lib, c, failures);
    EvaluateStages(lib, c, s, failures);
    EvaluateHashes(lib, c, s, failures);
    EvaluateCheckout(lib, c, s, failures);
    EvaluatePairs(lib, c, Pairs(lib, c, s), failures);
  }

  method EvaluatePayment(lib: Library, c: Case, s: Option<Structured>, failures: FailureCollector)
    modifies failures
    ensures failures.codes == old(failures.codes) + PaymentCodes(lib, c, s)
  {
    hide ReceiptsCodes, X402Codes, AuthorizationCodes, SettlementCodes, DerivedReference;
    EvaluateReceipts(lib, c, s, failures);
    EvaluateX402(c, DerivedReference(lib, s), failures);
    EvaluateAuthorization(lib, c, s, failures);
    EvaluateSettlement(lib, c, failures);
  }

  /** The signed receipt, and the normalised one beside it. */
  method EvaluateReceipts(lib: Library, c: Case, s: Option<Structured>, failures: FailureCollector)
    modifies failures
    ensures failures.codes == old(failures.codes) + ReceiptsCodes(lib, c, s)
  {
    hide ReceiptCodes, VerifiedReceipt, DerivedReference;
    if VerifiedReceipt(lib, s).Some? {
      EvaluateReceipt(c, VerifiedReceipt(lib, s).value, DerivedReference(lib, s), failures);
      if c.receipt.Some? {
        EvaluateReceipt(c, c.receipt.value, DerivedReference(lib, s), failures);
      }
    }
  }

  method EvaluateContext(lib: Library, c: Case, failures: FailureCollector)
    modifies failures
    ensures failures.codes == old(failures.codes) + ContextCodes(lib, c)
  {
    hide Flag;
    failures.Add(INPUT_HASH_MISMATCH, lib.inputHashOf(c) != c.inputHash);
    failures.Add(AP2_VERIFICATION_CONTEXT_MISMATCH, c.verification.verifiedAt != c.now || c.verification.clockSkew != 0);
  }

  method EvaluateCheckout(lib: Library, c: Case, s: Option<Structured>, failures: FailureCollector)
    modifies failures
    ensures failures.codes == old(failures.codes) + CheckoutCodes(lib, c, s)
  {
    if Pairs(lib, c, s) != [] {
      var reference := c.verification.openCheckoutReference;
      failures.Add(AP2_CHECKOUT_BINDING_UNVERIFIED,
        !ReferencesMatch(VerifiedOpen(lib, s).value.constraints, reference)
        || VerifiedClosed(lib, s).value.transactionId != reference);
    }
  }
}
