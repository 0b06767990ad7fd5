/** What an accepted case has been held to. */
module EvaluatorMeaning {
  import opened Prelude
  import opened Failures
  import opened Evaluator
  import E = EvaluatorCodes

  // ----- every constraint, every pair

  predicate ExtensionOk(lib: Library, e: Extension, r: Requirements, closed: Closed) {
    && e.version == 2 && e.nonceBinding == NONCE_DERIVATION
    && e.scheme == "exact" == r.scheme
    && e.network == r.network && SameAddress(lib, e.asset, r.asset) && e.amount == r.amount
    && SameAddress(lib, e.payTo, r.payTo) && PayeeIdentified(e, closed) && e.paymentAmount == closed.amount
    && e.maxTimeoutSeconds == r.maxTimeoutSeconds && e.domainName == r.name && e.domainVersion == r.version
  }

  predicate ConstraintsHold(constraints: seq<Constraint>, closed: Closed, reference: string) {
    AllKinds(constraints) && forall i :: 0 <= i < |constraints| ==> Holds(constraints[i], closed, reference)
  }

  predicate PairOk(lib: Library, c: Case, open: Open, closed: Closed) {
    && ConstraintsHold(open.constraints, closed, c.verification.openCheckoutReference)
    && closed.transactionId == c.verification.openCheckoutReference
    && PresetsMatch(open, closed)
    && open.iat <= c.now < open.exp && closed.iat <= c.now < closed.exp
    && closed.instrument.kind == "x402" && closed.instrument.x402.Some?
    && ExtensionOk(lib, closed.instrument.x402.value, c.requirements, closed)
    && SameAddress(lib, closed.instrument.x402.value.payer, c.payload.authorization.payer)
    && c.payload.authorization.validBefore <= open.exp && c.payload.authorization.validBefore <= closed.exp
  }

  predicate ReceiptOk(c: Case, receipt: Receipt, reference: string) {
    receipt.success && receipt.reference == reference && receipt.networkConfirmationId == Some(c.settlement.transaction)
  }

  predicate PaymentOk(lib: Library, c: Case, reference: string, effective: Option<real>) {
    var a, r, t := c.payload.authorization, c.requirements, c.settlement;
    && r == c.payload.accepted && !c.payload.hasExtensions && c.payload.x402Version == 2
    && r.transferMethod == TRANSFER_METHOD && r.nonceDerivation == NONCE_DERIVATION && r.mandateReference == reference
    && SameAddress(lib, a.to, r.payTo) && a.value == r.amount
    && a.validAfter < c.now && c.now + SAFETY_BUFFER <= a.validBefore <= c.now + r.maxTimeoutSeconds
    && (effective.Some? ==> a.validBefore <= effective.value.Floor)
    && (lib.nonceOf(reference).Some? ==> lib.lower(a.nonce) == lib.nonceOf(reference).value)
    && lib.signed(r, a, c.payload.signature)
    && t.success && t.network == r.network && SameAddress(lib, t.payer, a.payer)
    && (t.amount.Some? ==> t.amount.value == r.amount) && lib.isHex32(t.transaction)
  }

  /** The whole binding chain, without mention of any code. */
  predicate AllChecks(lib: Library, c: Case, s: Option<Structured>) {
    && MandatoryChecks(lib, s)
    && lib.inputHashOf(c) == c.inputHash && c.verification.verifiedAt == c.now && c.verification.clockSkew == 0
    && var open, closed, receipt := VerifiedOpen(lib, s).value, VerifiedClosed(lib, s).value, VerifiedReceipt(lib, s).value;
       var reference := lib.jwtHashOf(s.value.closed.claims.1);
       && reference == c.verification.closedReference
       && lib.closedHashOf(c.closed) == c.verification.closedClaimsHash == lib.closedHashOf(closed)
       && lib.openHashOf(c.open) == c.verification.openClaimsHash == lib.openHashOf(open)
       && c.receipt == Some(receipt) && ReceiptOk(c, receipt, reference)
       && PairOk(lib, c, c.open, c.closed) && PairOk(lib, c, open, closed)
       && PaymentOk(lib, c, reference, s.value.time.effective)
  }

  // ----- from codes to checks, group by group

  lemma FlagIsEmpty(code: Code, raised: bool)
    ensures Flag(code, raised) == {} <==> !raised
  {
    assert raised ==> code in Flag(code, raised);
  }

  lemma UnionIsEmpty(a: set<Code>, b: set<Code>)
    ensures a + b == {} <==> a == {} && b == {}
  {
    assert a <= a + b && b <= a + b;
  }

  lemma {:induction false} ConstraintsAreClean(constraints: seq<Constraint>, closed: Closed, reference: string)
    ensures AllConstraintCodes(constraints, closed, reference) == {}
       <==> forall i :: 0 <= i < |constraints| ==> Holds(constraints[i], closed, reference)
    decreases |constraints|
  {
    if constraints != [] {
      ConstraintsAreClean(constraints[1..], closed, reference);
      hide Holds;
      var a, b := ConstraintCodes(constraints[0], closed, reference), AllConstraintCodes(constraints[1..], closed, reference);
      UnionIsEmpty(a, b);
      assert forall i :: 0 < i < |constraints| ==> constraints[i] == constraints[1..][i - 1];
      assert a == {} <==> Holds(constraints[0], closed, reference);
    }
  }

  lemma ExtensionIsClean(lib: Library, e: Extension, r: Requirements, closed: Closed)
    ensures ExtensionCodes(lib, e, r, closed) == {} <==> ExtensionOk(lib, e, r, closed)
  {
    hide SameAddress;
    UnionIsEmpty(ExtensionTermsCodes(lib, e, r), ExtensionPartyCodes(lib, e, r, closed));
    assert ExtensionTermsCodes(lib, e, r) == {} <==>
      e.version == 2 && e.nonceBinding == NONCE_DERIVATION && e.scheme == "exact" == r.scheme
      && e.network == r.network && SameAddress(lib, e.asset, r.asset) && e.amount == r.amount;
  }

  /** Constraints that all hold, one of each kind, settle the reference and the instrument. */
  lemma KindsGive(constraints: seq<Constraint>, closed: Closed, reference: string)
    requires ConstraintsHold(constraints, closed, reference)
    ensures ReferencesMatch(constraints, reference) && closed.instrument.x402.Some?
  {
    var i :| 0 <= i < |constraints| && KindOf(constraints[i]) == Some(ReferenceKind);
    assert Holds(constraints[i], closed, reference);
    var k :| 0 <= k < |constraints| && KindOf(constraints[k]) == Some(InstrumentsKind);
    assert Holds(constraints[k], closed, reference);
    forall j | 0 <= j < |constraints| && constraints[j].Reference? ensures constraints[j].transactionId == Some(reference) {
      assert Holds(constraints[j], closed, reference);
    }
  }

  lemma TermsAreClean(c: Case, open: Open, closed: Closed)
    ensures PairTermsCodes(c, open, closed) == {}
       <==> ConstraintsHold(open.constraints, closed, c.verification.openCheckoutReference)
            && closed.transactionId == c.verification.openCheckoutReference
  {
    var reference := c.verification.openCheckoutReference;
    ConstraintsAreClean(open.constraints, closed, reference);
    hide AllKinds, Holds, AllConstraintCodes, ReferencesMatch;
    if ConstraintsHold(open.constraints, closed, reference) { KindsGive(open.constraints, closed, reference); }
    var a := Flag(AP2_PAYMENT_REFERENCE_MISMATCH, !ReferencesMatch(open.constraints, reference));
    var b := Flag(AP2_CLOSED_TRANSACTION_ID_MISMATCH, closed.transactionId != reference);
    var d := AllConstraintCodes(open.constraints, closed, reference);
    var e := Flag(AP2_CONSTRAINT_VIOLATION, !AllKinds(open.constraints));
    UnionIsEmpty(a, b);
    UnionIsEmpty(a + b, d);
    UnionIsEmpty(a + b + d, e);
  }

  lemma PairIsClean(lib: Library, c: Case, open: Open, closed: Closed)
    ensures PairCodes(lib, c, open, closed) + PairAuthorizationCodes(lib, c, open, closed) == {}
       <==> PairOk(lib, c, open, closed)
  {
    TermsAreClean(c, open, closed);
    if ConstraintsHold(open.constraints, closed, c.verification.openCheckoutReference) {
      KindsGive(open.constraints, closed, c.verification.openCheckoutReference);
    }
    var x402 := closed.instrument.x402;
    if x402.Some? { ExtensionIsClean(lib, x402.value, c.requirements, closed); }
    UnionIsEmpty(PairCodes(lib, c, open, closed), PairAuthorizationCodes(lib, c, open, closed));
    hide ConstraintsHold, PairTermsCodes, ExtensionCodes, ExtensionOk, PresetsMatch, SameAddress, Flag;
    PairCodesAreEmpty(lib, c, open, closed);
    var a := c.payload.authorization;
    var late := a.validBefore > if open.exp < closed.exp then open.exp else closed.exp;
    var payer := x402.Some? && !SameAddress(lib, x402.value.payer, a.payer);
    UnionIsEmpty(Flag(EIP3009_PAYER_MISMATCH, payer), Flag(EIP3009_VALIDITY_EXCEEDS_AP2_EXPIRY, late));
    FlagIsEmpty(EIP3009_PAYER_MISMATCH, payer);
    FlagIsEmpty(EIP3009_VALIDITY_EXCEEDS_AP2_EXPIRY, late);
  }

  lemma PairCodesAreEmpty(lib: Library, c: Case, open: Open, closed: Closed)
    ensures PairCodes(lib, c, open, closed) == {}
       <==> && PairTermsCodes(c, open, closed) == {} && PresetsMatch(open, closed)
            && open.iat <= c.now < open.exp && closed.iat <= c.now < closed.exp && closed.instrument.kind == "x402"
            && (closed.instrument.x402.Some? ==>
                  ExtensionCodes(lib, closed.instrument.x402.value, c.requirements, closed) == {})
  {
    hide PairTermsCodes, ExtensionCodes, PresetsMatch, Flag;
    var a := PairTermsCodes(c, open, closed);
    var untimely := open.iat > c.now || closed.iat > c.now || open.exp <= c.now || closed.exp <= c.now;
    var b := Flag(AP2_OPEN_PRESET_MISMATCH, !PresetsMatch(open, closed));
    var d := Flag(AP2_MANDATE_TIME_INVALID, untimely);
    var e := Flag(AP2_PAYMENT_INSTRUMENT_NOT_ALLOWED, closed.instrument.kind != "x402");
    var f := if closed.instrument.x402.Some?
             then ExtensionCodes(lib, closed.instrument.x402.value, c.requirements, closed) else {};
    UnionIsEmpty(a, b);
    UnionIsEmpty(a + b, d);
    UnionIsEmpty(a + b + d, e);
    UnionIsEmpty(a + b + d + e, f);
    FlagIsEmpty(AP2_OPEN_PRESET_MISMATCH, !PresetsMatch(open, closed));
    FlagIsEmpty(AP2_MANDATE_TIME_INVALID, untimely);
    FlagIsEmpty(AP2_PAYMENT_INSTRUMENT_NOT_ALLOWED, closed.instrument.kind != "x402");
  }

  /** The stages: none of their codes exactly when every stage is verified, everything claimed parses, and the
      normalised receipt is the signed one. */
  lemma StagesAreClean(lib: Library, c: Case, s: Option<Structured>)
    ensures StageCodes(lib, c, s) == {}
       <==> MandatoryChecks(lib, s) && c.receipt == VerifiedReceipt(lib, s)
  {
    hide Flag;
    var f1 := s.None?;
    var f2 := !AllVerified(s) && !SomeInvalid(s);
    var f3 := s.Some? && (s.value.open.Invalid? || (s.value.open.Verified? && VerifiedOpen(lib, s).None?));
    var f4 := s.Some? && (s.value.closed.Invalid? || (s.value.closed.Verified? && VerifiedClosed(lib, s).None?));
    var f5 := s.Some? && s.value.keyBinding.Invalid?;
    var f6 := (s.Some? && (s.value.receipt.Invalid? || (s.value.receipt.Verified? && VerifiedReceipt(lib, s).None?)))
              || (VerifiedReceipt(lib, s).Some? && c.receipt != VerifiedReceipt(lib, s));
    var f7 := s.Some? && s.value.time.stage.Invalid?;
    assert !f1 && !f2 && !f3 && !f4 && !f5 && !f6 && !f7
       <==> MandatoryChecks(lib, s) && c.receipt == VerifiedReceipt(lib, s);
    SevenFlags(AP2_CRYPTOGRAPHIC_EVIDENCE_INVALID, f1, AP2_CRYPTOGRAPHIC_EVIDENCE_INVALID, f2, AP2_OPEN_MANDATE_UNVERIFIED, f3,
               AP2_CLOSED_MANDATE_UNVERIFIED, f4, AP2_KEY_BINDING_UNVERIFIED, f5, AP2_RECEIPT_UNVERIFIED, f6,
               AP2_MANDATE_TIME_INVALID, f7);
    hide AllVerified, SomeInvalid, VerifiedOpen, VerifiedClosed, VerifiedReceipt, MandatoryChecks;
  }

  lemma SevenFlags(c1: Code, f1: bool, c2: Code, f2: bool, c3: Code, f3: bool, c4: Code, f4: bool, c5: Code, f5: bool,
                   c6: Code, f6: bool, c7: Code, f7: bool)
    ensures Flag(c1, f1) + Flag(c2, f2) + Flag(c3, f3) + Flag(c4, f4) + Flag(c5, f5) + Flag(c6, f6) + Flag(c7, f7) == {}
       <==> !f1 && !f2 && !f3 && !f4 && !f5 && !f6 && !f7
  {
    FlagIsEmpty(c1, f1);
    FlagIsEmpty(c2, f2);
    FlagIsEmpty(c3, f3);
    FlagIsEmpty(c4, f4);
    FlagIsEmpty(c5, f5);
    FlagIsEmpty(c6, f6);
    FlagIsEmpty(c7, f7);
    hide Flag;
    var s2 := Flag(c1, f1) + Flag(c2, f2);
    var s3 := s2 + Flag(c3, f3);
    var s4 := s3 + Flag(c4, f4);
    var s5 := s4 + Flag(c5, f5);
    UnionIsEmpty(Flag(c1, f1), Flag(c2, f2));
    UnionIsEmpty(s2, Flag(c3, f3));
    UnionIsEmpty(s3, Flag(c4, f4));
    UnionIsEmpty(s4, Flag(c5, f5));
    UnionIsEmpty(s5, Flag(c6, f6));
    UnionIsEmpty(s5 + Flag(c6, f6), Flag(c7, f7));
  }

  predicate HashesOk(lib: Library, c: Case, s: Option<Structured>)
    requires MandatoryChecks(lib, s)
  {
    && lib.jwtHashOf(s.value.closed.claims.1) == c.verification.closedReference
    && lib.closedHashOf(c.closed) == c.verification.closedClaimsHash == lib.closedHashOf(VerifiedClosed(lib, s).value)
    && lib.openHashOf(c.open) == c.verification.openClaimsHash == lib.openHashOf(VerifiedOpen(lib, s).value)
  }

  lemma HashesAreClean(lib: Library, c: Case, s: Option<Structured>)
    requires MandatoryChecks(lib, s)
    ensures ContextCodes(lib, c) + HashCodes(lib, c, s) == {}
       <==> && HashesOk(lib, c, s) && lib.inputHashOf(c) == c.inputHash
            && c.verification.verifiedAt == c.now && c.verification.clockSkew == 0
  {
    UnionIsEmpty(ContextCodes(lib, c), HashCodes(lib, c, s));
  }

  lemma ReceiptsAreClean(lib: Library, c: Case, s: Option<Structured>)
    requires MandatoryChecks(lib, s) && c.receipt == VerifiedReceipt(lib, s)
    ensures ReceiptsCodes(lib, c, s) == {}
       <==> ReceiptOk(c, VerifiedReceipt(lib, s).value, lib.jwtHashOf(s.value.closed.claims.1))
  {
  }

  lemma PaymentIsClean(lib: Library, c: Case, s: Option<Structured>)
    requires MandatoryChecks(lib, s)
    ensures X402Codes(c, DerivedReference(lib, s)) + AuthorizationCodes(lib, c, s) + SettlementCodes(lib, c) == {}
       <==> PaymentOk(lib, c, lib.jwtHashOf(s.value.closed.claims.1), s.value.time.effective)
  {
    var reference := lib.jwtHashOf(s.value.closed.claims.1);
    assert DerivedReference(lib, s) == Some(reference);
    var x, a, t := X402Codes(c, Some(reference)), AuthorizationCodes(lib, c, s), SettlementCodes(lib, c);
    UnionIsEmpty(x, a);
    UnionIsEmpty(x + a, t);
    AuthorizationIsClean(lib, c, s, reference);
    X402AndSettlement(lib, c, reference);
    hide X402Codes, AuthorizationCodes, SettlementCodes, SameAddress;
  }

  predicate AuthorizationOk(lib: Library, c: Case, reference: string, effective: Option<real>) {
    var a, r := c.payload.authorization, c.requirements;
    && SameAddress(lib, a.to, r.payTo) && a.value == r.amount
    && a.validAfter < c.now && c.now + SAFETY_BUFFER <= a.validBefore <= c.now + r.maxTimeoutSeconds
    && (effective.Some? ==> a.validBefore <= effective.value.Floor)
    && (lib.nonceOf(reference).Some? ==> lib.lower(a.nonce) == lib.nonceOf(reference).value)
    && lib.signed(r, a, c.payload.signature)
  }

  lemma AuthorizationIsClean(lib: Library, c: Case, s: Option<Structured>, reference: string)
    requires s.Some? && DerivedReference(lib, s) == Some(reference)
    ensures AuthorizationCodes(lib, c, s) == {} <==> AuthorizationOk(lib, c, reference, s.value.time.effective)
  {
    hide SameAddress, DerivedReference;
    var a, r := c.payload.authorization, c.requirements;
    assert TransferCodes(lib, c) == {}
      <==> SameAddress(lib, a.to, r.payTo) && a.value == r.amount && a.validAfter < c.now
           && c.now + SAFETY_BUFFER <= a.validBefore <= c.now + r.maxTimeoutSeconds;
    hide TransferCodes, Flag;
    var late := s.Some? && s.value.time.effective.Some? && a.validBefore > s.value.time.effective.value.Floor;
    var nonce := DerivedReference(lib, s).Some? && lib.nonceOf(DerivedReference(lib, s).value).Some?
                 && lib.lower(a.nonce) != lib.nonceOf(DerivedReference(lib, s).value).value;
    var x := TransferCodes(lib, c) + Flag(EIP3009_VALIDITY_EXCEEDS_AP2_EXPIRY, late);
    UnionIsEmpty(TransferCodes(lib, c), Flag(EIP3009_VALIDITY_EXCEEDS_AP2_EXPIRY, late));
    UnionIsEmpty(x, Flag(EIP3009_NONCE_BINDING_MISMATCH, nonce));
    UnionIsEmpty(x + Flag(EIP3009_NONCE_BINDING_MISMATCH, nonce),
                 Flag(EIP3009_SIGNATURE_INVALID, !lib.signed(r, a, c.payload.signature)));
    FlagIsEmpty(EIP3009_VALIDITY_EXCEEDS_AP2_EXPIRY, late);
    FlagIsEmpty(EIP3009_NONCE_BINDING_MISMATCH, nonce);
    FlagIsEmpty(EIP3009_SIGNATURE_INVALID, !lib.signed(r, a, c.payload.signature));
  }

  lemma X402AndSettlement(lib: Library, c: Case, reference: string)
    ensures var r, t := c.requirements, c.settlement;
            && (X402Codes(c, Some(reference)) == {} <==>
                  && r == c.payload.accepted && !c.payload.hasExtensions && c.payload.x402Version == 2
                  && r.transferMethod == TRANSFER_METHOD && r.nonceDerivation == NONCE_DERIVATION
                  && r.mandateReference == reference)
            && (SettlementCodes(lib, c) == {} <==>
                  && t.success && t.network == r.network && SameAddress(lib, t.payer, c.payload.authorization.payer)
                  && (t.amount.Some? ==> t.amount.value == r.amount) && lib.isHex32(t.transaction))
  {
    hide SameAddress;
  }

  lemma PairsAreClean(lib: Library, c: Case, s: Option<Structured>)
    requires MandatoryChecks(lib, s)
    ensures PairsCodes(lib, c, Pairs(lib, c, s)) == {}
       <==> PairOk(lib, c, c.open, c.closed) && PairOk(lib, c, VerifiedOpen(lib, s).value, VerifiedClosed(lib, s).value)
  {
    var open, closed := VerifiedOpen(lib, s).value, VerifiedClosed(lib, s).value;
    var pairs := [(c.open, c.closed), (open, closed)];
    assert pairs[1..] == [(open, closed)] && pairs[1..][1..] == [];
    PairIsClean(lib, c, c.open, c.closed);
    PairIsClean(lib, c, open, closed);
    hide PairOk, PairCodes, PairAuthorizationCodes;
    var a := PairCodes(lib, c, c.open, c.closed) + PairAuthorizationCodes(lib, c, c.open, c.closed);
    var b := PairCodes(lib, c, open, closed) + PairAuthorizationCodes(lib, c, open, closed);
    assert PairsCodes(lib, c, pairs[1..]) == b;
    UnionIsEmpty(a, b);
  }

  /** Nothing the checkout check could add is missed by the pairs. */
  lemma CheckoutIsClean(lib: Library, c: Case, s: Option<Structured>)
    requires MandatoryChecks(lib, s) && PairOk(lib, c, VerifiedOpen(lib, s).value, VerifiedClosed(lib, s).value)
    ensures CheckoutCodes(lib, c, s) == {}
  {
    KindsGive(VerifiedOpen(lib, s).value.constraints, VerifiedClosed(lib, s).value, c.verification.openCheckoutReference);
  }

  lemma CodesSplit(lib: Library, c: Case, s: Option<Structured>)
    ensures Codes(lib, c, s) == {}
       <==> && StageCodes(lib, c, s) == {} && ContextCodes(lib, c) + HashCodes(lib, c, s) == {}
            && CheckoutCodes(lib, c, s) == {} && PairsCodes(lib, c, Pairs(lib, c, s)) == {}
            && ReceiptsCodes(lib, c, s) == {}
            && X402Codes(c, DerivedReference(lib, s)) + AuthorizationCodes(lib, c, s) + SettlementCodes(lib, c) == {}
  {
    hide StageCodes, ContextCodes, HashCodes, CheckoutCodes, PairsCodes, ReceiptsCodes, X402Codes, AuthorizationCodes,
      SettlementCodes, DerivedReference, Pairs;
    var ctx, st, h := ContextCodes(lib, c), StageCodes(lib, c, s), HashCodes(lib, c, s);
    var ch, ps := CheckoutCodes(lib, c, s), PairsCodes(lib, c, Pairs(lib, c, s));
    UnionIsEmpty(ctx, st);
    UnionIsEmpty(ctx + st, h);
    UnionIsEmpty(ctx + st + h, ch);
    UnionIsEmpty(ctx + st + h + ch, ps);
    UnionIsEmpty(ctx, h);
    var r, x := ReceiptsCodes(lib, c, s), X402Codes(c, DerivedReference(lib, s));
    var a, t := AuthorizationCodes(lib, c, s), SettlementCodes(lib, c);
    UnionIsEmpty(r, x);
    UnionIsEmpty(r + x, a);
    UnionIsEmpty(r + x + a, t);
    UnionIsEmpty(x, a);
    UnionIsEmpty(x + a, t);
    UnionIsEmpty(MandateCodes(lib, c, s), PaymentCodes(lib, c, s));
  }

  // ----- the claims

  /** No code is raised exactly when the whole binding chain holds. */
  lemma CleanExactlyWhen(lib: Library, c: Case, s: Option<Structured>)
    ensures Codes(lib, c, s) == {} <==> AllChecks(lib, c, s)
  {
    CodesSplit(lib, c, s);
    StagesAreClean(lib, c, s);
    hide Codes, StageCodes, PairOk, PaymentOk, ReceiptOk;
    if MandatoryChecks(lib, s) && c.receipt == VerifiedReceipt(lib, s) {
      HashesAreClean(lib, c, s);
      PairsAreClean(lib, c, s);
      ReceiptsAreClean(lib, c, s);
      PaymentIsClean(lib, c, s);
      if PairOk(lib, c, VerifiedOpen(lib, s).value, VerifiedClosed(lib, s).value) { CheckoutIsClean(lib, c, s); }
      hide ContextCodes, HashCodes, CheckoutCodes, PairsCodes, ReceiptsCodes, X402Codes, AuthorizationCodes,
        SettlementCodes;
      assert HashesOk(lib, c, s) && c.receipt == Some(VerifiedReceipt(lib, s).value) ==>
        lib.jwtHashOf(s.value.closed.claims.1) == c.verification.closedReference;
    }
  }

  /** For every input: accepted exactly when the list of failure codes is empty, so no result trips the record
      builder; and accepted exactly when the whole chain holds. A case that parses lists a code exactly when the check
      that the code names fails, each code once and in the order of the catalogue. */
  method Evaluate(lib: Library, id: string, parsed: Option<Case>, report: Option<Structured>) returns (r: Result)
    ensures r.accepted <==> r.failureCodes == []
    ensures r.accepted <==> parsed.Some? && AllChecks(lib, parsed.value, Parsed(report))
    ensures parsed.None? ==> r.failureCodes == [INPUT_SCHEMA_INVALID]
    ensures parsed.Some? ==>
              forall code :: code in r.failureCodes <==> E.Fails(lib, parsed.value, Parsed(report), code)
    ensures forall i, j :: 0 <= i < j < |r.failureCodes| ==> r.failureCodes[i] < r.failureCodes[j]
  {
    hide Codes, AllChecks, TimeConsistent, E.Fails;
    r := EvaluateCase(lib, id, parsed, report);
    if parsed.Some? {
      forall code
        ensures code in Codes(lib, parsed.value, Parsed(report)) <==> E.Fails(lib, parsed.value, Parsed(report), code)
      {
        E.RaisedExactlyWhen(lib, parsed.value, Parsed(report), code);
      }
      CleanExactlyWhen(lib, parsed.value, Parsed(report));
      ChecksAreMandatory(lib, parsed.value, Parsed(report));
      EmptyLists(r.failureCodes, Codes(lib, parsed.value, Parsed(report)));
    }
  }

  lemma ChecksAreMandatory(lib: Library, c: Case, s: Option<Structured>)
    ensures AllChecks(lib, c, s) ==> MandatoryChecks(lib, s)
  {
  }

  lemma EmptyLists(list: seq<Code>, codes: set<Code>)
    requires Lists(list, codes)
    ensures list == [] <==> codes == {}
  {
    assert list != [] ==> list[0] in codes;
  }

  /** The reported effective expiry is the true minimum of its sources. */
  lemma {:induction false} LeastIsMinimum(bounds: seq<Bound>)
    requires bounds != []
    ensures exists i :: 0 <= i < |bounds| && bounds[i].expiresAt == Least(bounds)
    ensures forall i :: 0 <= i < |bounds| ==> Least(bounds) <= bounds[i].expiresAt
    decreases |bounds|
  {
    if |bounds| == 1 {
      assert bounds[0].expiresAt == Least(bounds);
    } else {
      var rest := bounds[1..];
      LeastIsMinimum(rest);
      assert forall i :: 0 < i < |bounds| ==> bounds[i] == rest[i - 1];
      if Least(bounds) == bounds[0].expiresAt {
        assert bounds[0].expiresAt == Least(bounds);
      } else {
        var i :| 0 <= i < |rest| && rest[i].expiresAt == Least(rest);
        assert bounds[i + 1].expiresAt == Least(bounds);
      }
    }
  }

  /** The report reaches the evaluation exactly when no source is listed twice, the effective expiry is there if any
      bound is and is the least of them, and verified time has a bound of either mandate. */
  lemma ParsedExactlyWhen(report: Option<Structured>)
    ensures Parsed(report).Some? ==> Parsed(report) == report
    ensures Parsed(report).Some? <==>
              report.Some?
              && var bounds, effective := report.value.time.bounds, report.value.time.effective;
                 && (forall i, j :: 0 <= i < |bounds| && 0 <= j < |bounds| && i != j ==> bounds[i].source != bounds[j].source)
                 && (effective.Some? <==> bounds != [])
                 && (effective.Some? ==>
                       && (exists i :: 0 <= i < |bounds| && bounds[i].expiresAt == effective.value)
                       && (forall i :: 0 <= i < |bounds| ==> effective.value <= bounds[i].expiresAt))
                 && (report.value.time.stage.Verified? ==>
                       && (exists i :: 0 <= i < |bounds| && bounds[i].source == OpenMandate)
                       && (exists i :: 0 <= i < |bounds| && bounds[i].source == ClosedMandate))
  {
    if report.Some? && report.value.time.bounds != [] {
      LeastIsMinimum(report.value.time.bounds);
      hide Least;
    }
  }

  /** An accepted authorization opens before now, stays open six seconds more, and closes within the timeout and before
      every mandate and every authenticated wrapper expires, fractional expiries included. */
  lemma AcceptedWindow(lib: Library, c: Case, report: Option<Structured>)
    requires AllChecks(lib, c, Parsed(report))
    ensures var a := c.payload.authorization;
            && a.validAfter < c.now && c.now + SAFETY_BUFFER <= a.validBefore
            && a.validBefore <= c.now + c.requirements.maxTimeoutSeconds
            && a.validBefore <= c.open.exp && a.validBefore <= c.closed.exp
            && a.validBefore <= VerifiedOpen(lib, report).value.exp && a.validBefore <= VerifiedClosed(lib, report).value.exp
            && report.Some? && HasSource(report.value.time.bounds, OpenMandate)
            && HasSource(report.value.time.bounds, ClosedMandate)
            && (forall i :: 0 <= i < |report.value.time.bounds| ==>
                  a.validBefore as real <= report.value.time.bounds[i].expiresAt)
  {
    hide ExtensionOk, ConstraintsHold, PresetsMatch, SameAddress, ReceiptOk;
    var a, time := c.payload.authorization, report.value.time;
    assert time.bounds != [];
    LeastIsMinimum(time.bounds);
    assert a.validBefore <= time.effective.value.Floor;
    assert a.validBefore as real <= Least(time.bounds);
  }

  /** The derived reference always decodes to the 32 bytes of a nonce. */
  ghost predicate NoncesDecode(lib: Library) {
    forall jwt :: lib.nonceOf(lib.jwtHashOf(jwt)).Some?
  }

  /** Amount, payee, payer, nonce and reference agree across the mandate, the requirements, the authorization, the
      receipt and the settlement, for the normalised and for the signed mandates. */
  lemma AcceptedAgrees(lib: Library, c: Case, s: Option<Structured>)
    requires NoncesDecode(lib) && AllChecks(lib, c, s)
    ensures var a, r, t := c.payload.authorization, c.requirements, c.settlement;
            var closed := VerifiedClosed(lib, s).value;
            var reference := lib.jwtHashOf(s.value.closed.claims.1);
            c.closed.instrument.x402.Some? && closed.instrument.x402.Some?
    ensures var a, r, t := c.payload.authorization, c.requirements, c.settlement;
            var closed := VerifiedClosed(lib, s).value;
            var reference := lib.jwtHashOf(s.value.closed.claims.1);
            var e, f := c.closed.instrument.x402.value, closed.instrument.x402.value;
            && e.amount == f.amount == r.amount == a.value && (t.amount.Some? ==> t.amount.value == r.amount)
            && SameAddress(lib, e.payTo, a.to) && SameAddress(lib, f.payTo, a.to)
            && e.payeeId == c.closed.payee.id != "" && f.payeeId == closed.payee.id != ""
            && SameAddress(lib, e.payer, t.payer) && SameAddress(lib, f.payer, a.payer)
            && lib.nonceOf(reference) == Some(lib.lower(a.nonce))
            && reference == c.verification.closedReference == r.mandateReference == VerifiedReceipt(lib, s).value.reference
            && VerifiedReceipt(lib, s).value.networkConfirmationId == Some(t.transaction)
            && c.closed.transactionId == closed.transactionId == c.verification.openCheckoutReference
            && AllKinds(c.open.constraints) && AllKinds(VerifiedOpen(lib, s).value.constraints)
  {
    hide AllKinds, PresetsMatch, Holds;
  }
}
