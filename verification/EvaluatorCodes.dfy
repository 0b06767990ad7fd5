/**
 * What each failure code says of a conformance case, over the fields of the case and of the verifier's report
 * (packages/pulse-conformance-evaluator/src/evaluator.ts).
 */
module EvaluatorCodes {
  import opened Prelude
  import opened Failures
  import opened Evaluator

  // ----- what the report says

  predicate OpenIs(lib: Library, s: Option<Structured>, open: Open) {
    s.Some? && s.value.open.Verified? && lib.parseOpen(s.value.open.claims) == Some(open)
  }

  predicate ClosedIs(lib: Library, s: Option<Structured>, closed: Closed) {
    s.Some? && s.value.closed.Verified? && lib.parseClosed(s.value.closed.claims.0) == Some(closed)
  }

  predicate ReceiptIs(lib: Library, s: Option<Structured>, receipt: Receipt) {
    s.Some? && s.value.receipt.Verified? && lib.parseReceipt(s.value.receipt.claims) == Some(receipt)
  }

  predicate ReferenceIs(lib: Library, s: Option<Structured>, reference: string) {
    && s.Some? && s.value.closed.Verified? && lib.parseClosed(s.value.closed.claims.0).Some?
    && lib.jwtHashOf(s.value.closed.claims.1) == reference
  }

  /** A pair of mandates that is examined: the normalised or the signed one, once both signed ones parse and are bound. */
  ghost predicate Examined(lib: Library, c: Case, s: Option<Structured>, open: Open, closed: Closed) {
    exists o, d :: && OpenIs(lib, s, o) && ClosedIs(lib, s, d) && s.value.keyBinding.Verified?
                   && ((open, closed) == (c.open, c.closed) || (open, closed) == (o, d))
  }

  predicate Differ(lib: Library, a: string, b: string) {
    lib.addressOf(a).None? || lib.addressOf(b).None? || lib.addressOf(a).value != lib.addressOf(b).value
  }

  // ----- the input and the stages

  predicate InputFails(lib: Library, c: Case, code: Code) {
    || (code == INPUT_HASH_MISMATCH && lib.inputHashOf(c) != c.inputHash)
    || (code == AP2_VERIFICATION_CONTEXT_MISMATCH && !(c.verification.verifiedAt == c.now && c.verification.clockSkew == 0))
  }

  /** No stage is invalid, and yet one was not reached. */
  predicate Unexplained(v: Structured) {
    && !v.open.Invalid? && !v.closed.Invalid? && !v.keyBinding.Invalid? && !v.time.stage.Invalid? && !v.receipt.Invalid?
    && (v.open.NotEvaluated? || v.closed.NotEvaluated? || v.keyBinding.NotEvaluated? || v.time.stage.NotEvaluated?
        || v.receipt.NotEvaluated?)
  }

  ghost predicate StageFails(lib: Library, c: Case, s: Option<Structured>, code: Code) {
    || (code == AP2_CRYPTOGRAPHIC_EVIDENCE_INVALID && (s.None? || Unexplained(s.value)))
    || (code == AP2_OPEN_MANDATE_UNVERIFIED
        && s.Some? && !s.value.open.NotEvaluated? && !exists open :: OpenIs(lib, s, open))
    || (code == AP2_CLOSED_MANDATE_UNVERIFIED
        && s.Some? && !s.value.closed.NotEvaluated? && !exists closed :: ClosedIs(lib, s, closed))
    || (code == AP2_KEY_BINDING_UNVERIFIED && s.Some? && s.value.keyBinding.Invalid?)
    || (code == AP2_RECEIPT_UNVERIFIED
        && s.Some? && !s.value.receipt.NotEvaluated?
        && !exists receipt :: ReceiptIs(lib, s, receipt) && c.receipt == Some(receipt))
    || (code == AP2_MANDATE_TIME_INVALID && s.Some? && s.value.time.stage.Invalid?)
  }

  ghost predicate EvidenceFails(lib: Library, c: Case, s: Option<Structured>, code: Code) {
    var v := c.verification;
    || (code == AP2_CLOSED_MANDATE_REFERENCE_MISMATCH
        && exists reference :: ReferenceIs(lib, s, reference) && reference != v.closedReference)
    || (code == AP2_CLOSED_MANDATE_CLAIMS_HASH_MISMATCH
        && exists closed :: && (closed == c.closed || ClosedIs(lib, s, closed))
                            && lib.closedHashOf(closed) != v.closedClaimsHash)
    || (code == AP2_OPEN_MANDATE_CLAIMS_HASH_MISMATCH
        && exists open :: (open == c.open || OpenIs(lib, s, open)) && lib.openHashOf(open) != v.openClaimsHash)
    || (code == AP2_CHECKOUT_BINDING_UNVERIFIED
        && exists open, closed :: && OpenIs(lib, s, open) && ClosedIs(lib, s, closed) && s.value.keyBinding.Verified?
                                  && (Unreferenced(open.constraints, v.openCheckoutReference)
                                      || closed.transactionId != v.openCheckoutReference))
  }

  // ----- one pair of mandates

  /** No reference constraint, or one that names another transaction. */
  predicate Unreferenced(constraints: seq<Constraint>, reference: string) {
    || (forall i :: 0 <= i < |constraints| ==> !constraints[i].Reference?)
    || (exists i :: 0 <= i < |constraints| && constraints[i].Reference? && constraints[i].transactionId != Some(reference))
  }

  predicate ConstraintFails(constraint: Constraint, closed: Closed, reference: string, code: Code) {
    match constraint
    case Reference(id) => code == AP2_PAYMENT_REFERENCE_MISMATCH && id != Some(reference)
    case Instruments(allowed) =>
      && (code == AP2_PAYMENT_INSTRUMENT_NOT_ALLOWED || code == AP2_CONSTRAINT_VIOLATION)
      && forall i :: 0 <= i < |allowed| && allowed[i].Some? ==>
           var a, b := allowed[i].value, closed.instrument;
           !(a.id == b.id && a.kind == b.kind && a.x402.Some? && b.x402.Some? && a.x402.value == b.x402.value)
    case AmountRange(currency, max, min) =>
      && code == AP2_CONSTRAINT_VIOLATION
      && !(currency == Some(closed.amount.currency) && min.Some? && max.Some?
           && min.value <= closed.amount.amount as real <= max.value)
    case Payees(ids) => code == AP2_CONSTRAINT_VIOLATION && (closed.payee.id == "" || Some(closed.payee.id) !in ids)
    case Unsupported(_) => code == AP2_UNSUPPORTED_CONSTRAINT
  }

  ghost predicate ConstraintsFail(constraints: seq<Constraint>, closed: Closed, reference: string, code: Code) {
    || (exists i :: 0 <= i < |constraints| && ConstraintFails(constraints[i], closed, reference, code))
    || (code == AP2_CONSTRAINT_VIOLATION
        && !(&& (exists i :: 0 <= i < |constraints| && constraints[i].Reference?)
             && (exists i :: 0 <= i < |constraints| && constraints[i].Instruments?)
             && (exists i :: 0 <= i < |constraints| && constraints[i].AmountRange?)
             && (exists i :: 0 <= i < |constraints| && constraints[i].Payees?)))
    || (code == AP2_PAYMENT_REFERENCE_MISMATCH && Unreferenced(constraints, reference))
  }

  /** What the open mandate presets is what the closed one has. */
  predicate PresetsFail(open: Open, closed: Closed) {
    || (open.payee.Some? && (open.payee.value.id == "" || open.payee.value.id != closed.payee.id))
    || (open.amount.Some? && open.amount != Some(closed.amount))
    || (open.instrument.Some? && open.instrument != Some(closed.instrument))
    || (open.executionDate.Some? && open.executionDate != Some(closed.executionDate))
  }

  predicate ExtensionFails(lib: Library, e: Extension, r: Requirements, closed: Closed, code: Code) {
    || (code == X402_UNSUPPORTED_EXTENSION
        && !(e.version == 2 && e.nonceBinding == "base64url-decode-ap2-mandate-reference"))
    || (code == AP2_X402_SCHEME_MISMATCH && !(e.scheme == "exact" && r.scheme == "exact"))
    || (code == AP2_X402_NETWORK_MISMATCH && e.network != r.network)
    || (code == AP2_X402_ASSET_MISMATCH && Differ(lib, e.asset, r.asset))
    || (code == AP2_X402_AMOUNT_MISMATCH && e.amount != r.amount)
    || (code == AP2_X402_PAYEE_MISMATCH
        && (Differ(lib, e.payTo, r.payTo) || e.payeeId == "" || e.payeeId != closed.payee.id))
    || (code == AP2_X402_COMMERCE_BINDING_MISMATCH
        && (e.payeeId == "" || e.payeeId != closed.payee.id || e.paymentAmount != closed.amount))
    || (code == AP2_X402_TIMEOUT_MISMATCH && e.maxTimeoutSeconds != r.maxTimeoutSeconds)
    || (code == AP2_X402_EIP712_DOMAIN_MISMATCH && !(e.domainName == r.name && e.domainVersion == r.version))
  }

  ghost predicate PairFails(lib: Library, c: Case, open: Open, closed: Closed, code: Code) {
    var a, x402 := c.payload.authorization, closed.instrument.x402;
    || ConstraintsFail(open.constraints, closed, c.verification.openCheckoutReference, code)
    || (code == AP2_CLOSED_TRANSACTION_ID_MISMATCH && closed.transactionId != c.verification.openCheckoutReference)
    || (code == AP2_OPEN_PRESET_MISMATCH && PresetsFail(open, closed))
    || (code == AP2_MANDATE_TIME_INVALID && !(open.iat <= c.now < open.exp && closed.iat <= c.now < closed.exp))
    || (code == AP2_PAYMENT_INSTRUMENT_NOT_ALLOWED && closed.instrument.kind != "x402")
    || (x402.Some? && ExtensionFails(lib, x402.value, c.requirements, closed, code))
    || (code == EIP3009_PAYER_MISMATCH && x402.Some? && Differ(lib, x402.value.payer, a.payer))
    || (code == EIP3009_VALIDITY_EXCEEDS_AP2_EXPIRY && (a.validBefore > open.exp || a.validBefore > closed.exp))
  }

  // ----- receipt, payment and settlement

  predicate ReceiptFails(lib: Library, c: Case, s: Option<Structured>, receipt: Receipt, code: Code) {
    || (code == AP2_RECEIPT_NOT_SUCCESSFUL && !receipt.success)
    || (code == AP2_RECEIPT_REFERENCE_MISMATCH
        && s.Some? && s.value.closed.Verified? && lib.parseClosed(s.value.closed.claims.0).Some?
        && receipt.reference != lib.jwtHashOf(s.value.closed.claims.1))
    || (code == AP2_RECEIPT_TRANSACTION_MISMATCH
        && receipt.success && receipt.networkConfirmationId != Some(c.settlement.transaction))
  }

  ghost predicate X402Fails(lib: Library, c: Case, s: Option<Structured>, code: Code) {
    var r := c.requirements;
    || (code == X402_ACCEPTED_REQUIREMENTS_MISMATCH && c.payload.accepted != r)
    || (code == X402_UNSUPPORTED_EXTENSION
        && !(!c.payload.hasExtensions && c.payload.x402Version == 2 && r.transferMethod == "eip3009"
             && r.nonceDerivation == "base64url-decode-ap2-mandate-reference"))
    || (code == X402_MANDATE_REFERENCE_MISMATCH
        && exists reference :: ReferenceIs(lib, s, reference) && r.mandateReference != reference)
  }

  ghost predicate AuthorizationFails(lib: Library, c: Case, s: Option<Structured>, code: Code) {
    var a, r := c.payload.authorization, c.requirements;
    || (code == EIP3009_RECIPIENT_MISMATCH && Differ(lib, a.to, r.payTo))
    || (code == EIP3009_VALUE_MISMATCH && a.value != r.amount)
    || (code == EIP3009_VALID_AFTER_IN_FUTURE && !(a.validAfter < c.now))
    || (code == EIP3009_VALID_BEFORE_EXPIRED && !(c.now + 6 <= a.validBefore))
    || (code == EIP3009_VALIDITY_EXCEEDS_TIMEOUT && !(a.validBefore <= c.now + r.maxTimeoutSeconds))
    || (code == EIP3009_VALIDITY_EXCEEDS_AP2_EXPIRY
        && s.Some? && s.value.time.effective.Some? && !(a.validBefore as real <= s.value.time.effective.value))
    || (code == EIP3009_NONCE_BINDING_MISMATCH
        && exists reference :: && ReferenceIs(lib, s, reference) && lib.nonceOf(reference).Some?
                               && lib.lower(a.nonce) != lib.nonceOf(reference).value)
    || (code == EIP3009_SIGNATURE_INVALID && !lib.signed(r, a, c.payload.signature))
  }

  predicate SettlementFails(lib: Library, c: Case, code: Code) {
    var t, r := c.settlement, c.requirements;
    || (code == SETTLEMENT_FAILED && !t.success)
    || (code == SETTLEMENT_NETWORK_MISMATCH && t.network != r.network)
    || (code == SETTLEMENT_PAYER_MISMATCH && Differ(lib, t.payer, c.payload.authorization.payer))
    || (code == SETTLEMENT_AMOUNT_MISMATCH && t.amount.Some? && t.amount != Some(r.amount))
    || (code == SETTLEMENT_TRANSACTION_INVALID && !lib.isHex32(t.transaction))
  }

  /** The check that the code names fails: of the case itself, or of a pair of mandates or a receipt examined. */
  ghost predicate Fails(lib: Library, c: Case, s: Option<Structured>, code: Code) {
    || InputFails(lib, c, code) || StageFails(lib, c, s, code) || EvidenceFails(lib, c, s, code)
    || (exists open, closed :: Examined(lib, c, s, open, closed) && PairFails(lib, c, open, closed, code))
    || (exists signed, receipt :: && ReceiptIs(lib, s, signed) && (receipt == signed || c.receipt == Some(receipt))
                                  && ReceiptFails(lib, c, s, receipt, code))
    || X402Fails(lib, c, s, code) || AuthorizationFails(lib, c, s, code) || SettlementFails(lib, c, code)
  }

  // ----- the codes of each group

  lemma FlagHolds(code: Code, flag: Code, raised: bool)
    ensures code in Flag(flag, raised) <==> code == flag && raised
  {
  }

  lemma InputCodes(lib: Library, c: Case, code: Code)
    ensures code in ContextCodes(lib, c) <==> InputFails(lib, c, code)
  {
  }

  lemma StagesNamed(lib: Library, c: Case, s: Option<Structured>, code: Code)
    ensures code in StageCodes(lib, c, s) <==> StageFails(lib, c, s, code)
  {
    if s.Some? {
      var v := s.value;
      if v.open.Verified? && lib.parseOpen(v.open.claims).Some? { assert OpenIs(lib, s, lib.parseOpen(v.open.claims).value); }
      if v.closed.Verified? && lib.parseClosed(v.closed.claims.0).Some? {
        assert ClosedIs(lib, s, lib.parseClosed(v.closed.claims.0).value);
      }
      if v.receipt.Verified? && lib.parseReceipt(v.receipt.claims).Some? {
        assert ReceiptIs(lib, s, lib.parseReceipt(v.receipt.claims).value);
      }
    }
  }

  lemma ReferencesNamed(lib: Library, s: Option<Structured>, reference: string)
    ensures ReferenceIs(lib, s, reference) <==> DerivedReference(lib, s) == Some(reference)
  {
  }

  lemma UnreferencedMeans(constraints: seq<Constraint>, reference: string)
    ensures Unreferenced(constraints, reference) <==> !ReferencesMatch(constraints, reference)
  {
  }

  lemma HashesNamed(lib: Library, c: Case, s: Option<Structured>, code: Code)
    ensures code in HashCodes(lib, c, s) + CheckoutCodes(lib, c, s) <==> EvidenceFails(lib, c, s, code)
  {
    forall reference ensures ReferenceIs(lib, s, reference) <==> DerivedReference(lib, s) == Some(reference) {
      ReferencesNamed(lib, s, reference);
    }
    forall open ensures OpenIs(lib, s, open) <==> VerifiedOpen(lib, s) == Some(open) {}
    forall closed ensures ClosedIs(lib, s, closed) <==> VerifiedClosed(lib, s) == Some(closed) {}
    if VerifiedOpen(lib, s).Some? {
      UnreferencedMeans(VerifiedOpen(lib, s).value.constraints, c.verification.openCheckoutReference);
    }
    hide OpenIs, ClosedIs, ReferenceIs, DerivedReference, VerifiedOpen, VerifiedClosed, Unreferenced, ReferencesMatch;
  }

  lemma ConstraintNamed(constraint: Constraint, closed: Closed, reference: string, code: Code)
    ensures code in ConstraintCodes(constraint, closed, reference) <==> ConstraintFails(constraint, closed, reference, code)
  {
  }

  lemma {:induction false} ConstraintsNamed(constraints: seq<Constraint>, closed: Closed, reference: string, code: Code)
    ensures code in AllConstraintCodes(constraints, closed, reference)
       <==> exists i :: 0 <= i < |constraints| && ConstraintFails(constraints[i], closed, reference, code)
    decreases |constraints|
  {
    hide ConstraintCodes, ConstraintFails;
    if constraints != [] {
      var rest := constraints[1..];
      ConstraintsNamed(rest, closed, reference, code);
      ConstraintNamed(constraints[0], closed, reference, code);
      assert forall i :: 0 < i < |constraints| ==> constraints[i] == rest[i - 1];
      assert forall i :: 0 <= i < |rest| ==> rest[i] == constraints[i + 1];
    }
  }

  lemma KindsNamed(constraints: seq<Constraint>)
    ensures AllKinds(constraints)
       <==> && (exists i :: 0 <= i < |constraints| && constraints[i].Reference?)
            && (exists i :: 0 <= i < |constraints| && constraints[i].Instruments?)
            && (exists i :: 0 <= i < |constraints| && constraints[i].AmountRange?)
            && (exists i :: 0 <= i < |constraints| && constraints[i].Payees?)
  {
    forall i | 0 <= i < |constraints|
      ensures (KindOf(constraints[i]) == Some(ReferenceKind) <==> constraints[i].Reference?)
      ensures (KindOf(constraints[i]) == Some(InstrumentsKind) <==> constraints[i].Instruments?)
      ensures (KindOf(constraints[i]) == Some(AmountKind) <==> constraints[i].AmountRange?)
      ensures (KindOf(constraints[i]) == Some(PayeesKind) <==> constraints[i].Payees?)
    {
    }
    hide KindOf;
  }

  lemma ExtensionNamed(lib: Library, e: Extension, r: Requirements, closed: Closed, code: Code)
    ensures code in ExtensionCodes(lib, e, r, closed) <==> ExtensionFails(lib, e, r, closed, code)
  {
    hide Differ, SameAddress;
    AddressesNamed(lib, e.asset, r.asset);
    AddressesNamed(lib, e.payTo, r.payTo);
  }

  lemma TermsNamed(c: Case, open: Open, closed: Closed, code: Code)
    ensures code in PairTermsCodes(c, open, closed)
       <==> || ConstraintsFail(open.constraints, closed, c.verification.openCheckoutReference, code)
            || (code == AP2_CLOSED_TRANSACTION_ID_MISMATCH && closed.transactionId != c.verification.openCheckoutReference)
  {
    hide AllKinds, AllConstraintCodes, ConstraintFails, ReferencesMatch, Unreferenced;
    ConstraintsNamed(open.constraints, closed, c.verification.openCheckoutReference, code);
    KindsNamed(open.constraints);
    UnreferencedMeans(open.constraints, c.verification.openCheckoutReference);
  }

  lemma PresetsNamed(open: Open, closed: Closed)
    ensures PresetsFail(open, closed) <==> !PresetsMatch(open, closed)
  {
  }

  lemma AddressesNamed(lib: Library, a: string, b: string)
    ensures Differ(lib, a, b) <==> !SameAddress(lib, a, b)
  {
  }

  lemma PairNamed(lib: Library, c: Case, open: Open, closed: Closed, code: Code)
    ensures code in PairCodes(lib, c, open, closed) + PairAuthorizationCodes(lib, c, open, closed)
       <==> PairFails(lib, c, open, closed, code)
  {
    hide PairTermsCodes, ConstraintsFail, ExtensionCodes, ExtensionFails, PresetsFail, PresetsMatch, Differ, SameAddress;
    TermsNamed(c, open, closed, code);
    PresetsNamed(open, closed);
    if closed.instrument.x402.Some? {
      ExtensionNamed(lib, closed.instrument.x402.value, c.requirements, closed, code);
      AddressesNamed(lib, closed.instrument.x402.value.payer, c.payload.authorization.payer);
    }
  }

  lemma {:induction false} PairsNamed(lib: Library, c: Case, pairs: seq<(Open, Closed)>, code: Code)
    ensures code in PairsCodes(lib, c, pairs)
       <==> exists i :: 0 <= i < |pairs| && PairFails(lib, c, pairs[i].0, pairs[i].1, code)
    decreases |pairs|
  {
    hide PairCodes, PairAuthorizationCodes, PairFails;
    if pairs != [] {
      var rest := pairs[1..];
      PairsNamed(lib, c, rest, code);
      PairNamed(lib, c, pairs[0].0, pairs[0].1, code);
      assert forall i :: 0 < i < |pairs| ==> pairs[i] == rest[i - 1];
      assert forall i :: 0 <= i < |rest| ==> rest[i] == pairs[i + 1];
    }
  }

  lemma ExaminedPairs(lib: Library, c: Case, s: Option<Structured>, open: Open, closed: Closed)
    ensures Examined(lib, c, s, open, closed) <==> (open, closed) in Pairs(lib, c, s)
  {
    if (open, closed) in Pairs(lib, c, s) {
      assert OpenIs(lib, s, VerifiedOpen(lib, s).value) && ClosedIs(lib, s, VerifiedClosed(lib, s).value);
    }
  }

  lemma MandatesNamed(lib: Library, c: Case, s: Option<Structured>, code: Code)
    ensures code in PairsCodes(lib, c, Pairs(lib, c, s))
       <==> exists open, closed :: Examined(lib, c, s, open, closed) && PairFails(lib, c, open, closed, code)
  {
    hide PairsCodes, PairFails, Examined, Pairs;
    var pairs := Pairs(lib, c, s);
    PairsNamed(lib, c, pairs, code);
    if i :| 0 <= i < |pairs| && PairFails(lib, c, pairs[i].0, pairs[i].1, code) {
      assert (pairs[i].0, pairs[i].1) == pairs[i];
      ExaminedPairs(lib, c, s, pairs[i].0, pairs[i].1);
    }
    if open, closed :| Examined(lib, c, s, open, closed) && PairFails(lib, c, open, closed, code) {
      ExaminedPairs(lib, c, s, open, closed);
      var i :| 0 <= i < |pairs| && pairs[i] == (open, closed);
      assert PairFails(lib, c, pairs[i].0, pairs[i].1, code);
    }
  }

  lemma ReceiptNamed(lib: Library, c: Case, s: Option<Structured>, receipt: Receipt, code: Code)
    ensures code in ReceiptCodes(c, receipt, DerivedReference(lib, s)) <==> ReceiptFails(lib, c, s, receipt, code)
  {
  }

  lemma ReceiptsNamed(lib: Library, c: Case, s: Option<Structured>, code: Code)
    ensures code in ReceiptsCodes(lib, c, s)
       <==> exists signed, receipt :: && ReceiptIs(lib, s, signed) && (receipt == signed || c.receipt == Some(receipt))
                                      && ReceiptFails(lib, c, s, receipt, code)
  {
    forall signed ensures ReceiptIs(lib, s, signed) <==> VerifiedReceipt(lib, s) == Some(signed) {}
    hide ReceiptIs, VerifiedReceipt, ReceiptCodes, ReceiptFails, DerivedReference;
    if VerifiedReceipt(lib, s).Some? {
      var signed := VerifiedReceipt(lib, s).value;
      ReceiptNamed(lib, c, s, signed, code);
      if c.receipt.Some? { ReceiptNamed(lib, c, s, c.receipt.value, code); }
    }
  }

  lemma X402Named(lib: Library, c: Case, s: Option<Structured>, code: Code)
    ensures code in X402Codes(c, DerivedReference(lib, s)) <==> X402Fails(lib, c, s, code)
  {
    forall reference ensures ReferenceIs(lib, s, reference) <==> DerivedReference(lib, s) == Some(reference) {
      ReferencesNamed(lib, s, reference);
    }
    hide ReferenceIs, DerivedReference;
  }

  lemma FloorsAgree(validBefore: nat, effective: real)
    ensures validBefore > effective.Floor <==> !(validBefore as real <= effective)
  {
  }

  lemma TransferNamed(lib: Library, c: Case, code: Code)
    ensures var a, r := c.payload.authorization, c.requirements;
            code in TransferCodes(lib, c)
            <==> || (code == EIP3009_RECIPIENT_MISMATCH && Differ(lib, a.to, r.payTo))
                 || (code == EIP3009_VALUE_MISMATCH && a.value != r.amount)
                 || (code == EIP3009_VALID_AFTER_IN_FUTURE && !(a.validAfter < c.now))
                 || (code == EIP3009_VALID_BEFORE_EXPIRED && !(c.now + 6 <= a.validBefore))
                 || (code == EIP3009_VALIDITY_EXCEEDS_TIMEOUT && !(a.validBefore <= c.now + r.maxTimeoutSeconds))
  {
  }

  lemma AuthorizationNamed(lib: Library, c: Case, s: Option<Structured>, code: Code)
    ensures code in AuthorizationCodes(lib, c, s) <==> AuthorizationFails(lib, c, s, code)
  {
    hide ReferenceIs, DerivedReference, TransferCodes, Differ;
    forall reference ensures ReferenceIs(lib, s, reference) <==> DerivedReference(lib, s) == Some(reference) {
      ReferencesNamed(lib, s, reference);
    }
    TransferNamed(lib, c, code);
    if s.Some? && s.value.time.effective.Some? {
      FloorsAgree(c.payload.authorization.validBefore, s.value.time.effective.value);
    }
  }

  lemma SettlementNamed(lib: Library, c: Case, code: Code)
    ensures code in SettlementCodes(lib, c) <==> SettlementFails(lib, c, code)
  {
  }

  /** A code is raised exactly when the check that it names fails. */
  lemma RaisedExactlyWhen(lib: Library, c: Case, s: Option<Structured>, code: Code)
    ensures code in Codes(lib, c, s) <==> Fails(lib, c, s, code)
  {
    hide ContextCodes, InputFails, StageCodes, StageFails, HashCodes, CheckoutCodes, EvidenceFails, PairsCodes, Pairs,
      Examined, PairFails, ReceiptsCodes, ReceiptIs, ReceiptFails, X402Codes, X402Fails, AuthorizationCodes,
      AuthorizationFails, SettlementCodes, SettlementFails, DerivedReference;
    InputCodes(lib, c, code);
    StagesNamed(lib, c, s, code);
    HashesNamed(lib, c, s, code);
    MandatesNamed(lib, c, s, code);
    ReceiptsNamed(lib, c, s, code);
    X402Named(lib, c, s, code);
    AuthorizationNamed(lib, c, s, code);
    SettlementNamed(lib, c, code);
  }
}
