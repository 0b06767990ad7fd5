/** Failure codes and their collector (packages/pulse-conformance-evaluator/src/failures.ts). */
module Failures {
  /** A code is its place in the catalogue. */
  type Code = i: nat | i < 47

  const INPUT_SCHEMA_INVALID: Code := 0
  const INPUT_HASH_MISMATCH: Code := 1
  const AP2_CRYPTOGRAPHIC_EVIDENCE_INVALID: Code := 2
  const AP2_CLOSED_MANDATE_UNVERIFIED: Code := 3
  const AP2_OPEN_MANDATE_UNVERIFIED: Code := 4
  const AP2_KEY_BINDING_UNVERIFIED: Code := 5
  const AP2_CHECKOUT_BINDING_UNVERIFIED: Code := 6
  const AP2_RECEIPT_UNVERIFIED: Code := 7
  const AP2_CLOSED_MANDATE_REFERENCE_MISMATCH: Code := 8
  const AP2_CLOSED_MANDATE_CLAIMS_HASH_MISMATCH: Code := 9
  const AP2_OPEN_MANDATE_CLAIMS_HASH_MISMATCH: Code := 10
  const AP2_PAYMENT_REFERENCE_MISMATCH: Code := 11
  const AP2_CLOSED_TRANSACTION_ID_MISMATCH: Code := 12
  const AP2_CONSTRAINT_VIOLATION: Code := 13
  const AP2_UNSUPPORTED_CONSTRAINT: Code := 14
  const AP2_OPEN_PRESET_MISMATCH: Code := 15
  const AP2_VERIFICATION_CONTEXT_MISMATCH: Code := 16
  const AP2_MANDATE_TIME_INVALID: Code := 17
  const AP2_PAYMENT_INSTRUMENT_NOT_ALLOWED: Code := 18
  const AP2_RECEIPT_NOT_SUCCESSFUL: Code := 19
  const AP2_RECEIPT_REFERENCE_MISMATCH: Code := 20
  const AP2_RECEIPT_TRANSACTION_MISMATCH: Code := 21
  const AP2_X402_SCHEME_MISMATCH: Code := 22
  const AP2_X402_NETWORK_MISMATCH: Code := 23
  const AP2_X402_ASSET_MISMATCH: Code := 24
  const AP2_X402_AMOUNT_MISMATCH: Code := 25
  const AP2_X402_PAYEE_MISMATCH: Code := 26
  const AP2_X402_COMMERCE_BINDING_MISMATCH: Code := 27
  const AP2_X402_TIMEOUT_MISMATCH: Code := 28
  const AP2_X402_EIP712_DOMAIN_MISMATCH: Code := 29
  const X402_MANDATE_REFERENCE_MISMATCH: Code := 30
  const X402_ACCEPTED_REQUIREMENTS_MISMATCH: Code := 31
  const X402_UNSUPPORTED_EXTENSION: Code := 32
  const EIP3009_PAYER_MISMATCH: Code := 33
  const EIP3009_RECIPIENT_MISMATCH: Code := 34
  const EIP3009_VALUE_MISMATCH: Code := 35
  const EIP3009_VALID_AFTER_IN_FUTURE: Code := 36
  const EIP3009_VALID_BEFORE_EXPIRED: Code := 37
  const EIP3009_VALIDITY_EXCEEDS_TIMEOUT: Code := 38
  const EIP3009_VALIDITY_EXCEEDS_AP2_EXPIRY: Code := 39
  const EIP3009_NONCE_BINDING_MISMATCH: Code := 40
  const EIP3009_SIGNATURE_INVALID: Code := 41
  const SETTLEMENT_FAILED: Code := 42
  const SETTLEMENT_NETWORK_MISMATCH: Code := 43
  const SETTLEMENT_PAYER_MISMATCH: Code := 44
  const SETTLEMENT_AMOUNT_MISMATCH: Code := 45
  const SETTLEMENT_TRANSACTION_INVALID: Code := 46

  /** The codes of a set, each once, in catalogue order. */
  ghost predicate Lists(list: seq<Code>, codes: set<Code>) {
    && (forall i, j :: 0 <= i < j < |list| ==> list[i] < list[j])
    && (forall code :: code in list <==> code in codes)
  }

  /** Such a list is unique, whatever order the codes were added in. */
  lemma {:induction false} ListIsUnique(a: seq<Code>, b: seq<Code>, codes: set<Code>)
    requires Lists(a, codes) && Lists(b, codes)
    ensures a == b
    decreases |a|
  {
    if a == [] {
      assert forall code :: code !in codes;
      assert forall i :: 0 <= i < |b| ==> b[i] in codes;
    } else {
      assert a[0] in codes;
      FirstIsLeast(a, b, codes);
      FirstIsLeast(b, a, codes);
      Rest(a, codes);
      Rest(b, codes);
      ListIsUnique(a[1..], b[1..], codes - {a[0]});
      assert a == [a[0]] + a[1..] && b == [b[0]] + b[1..];
    }
  }

  lemma FirstIsLeast(a: seq<Code>, b: seq<Code>, codes: set<Code>)
    requires Lists(a, codes) && Lists(b, codes) && a != []
    ensures b != [] && a[0] <= b[0]
  {
    assert a[0] in codes;
    assert b[0] in codes;
    var k :| 0 <= k < |a| && a[k] == b[0];
  }

  lemma Rest(a: seq<Code>, codes: set<Code>)
    requires Lists(a, codes) && a != []
    ensures Lists(a[1..], codes - {a[0]})
  {
    forall code ensures code in a[1..] <==> code in codes - {a[0]} {
      if code in codes - {a[0]} {
        var k :| 0 <= k < |a| && a[k] == code;
        assert a[1..][k - 1] == code;
      }
      if code in a[1..] {
        var k :| 0 <= k < |a| - 1 && a[1..][k] == code;
        assert a[k + 1] == code;
      }
    }
  }

  /** The library sort, one element at a time. */
  function Insert(code: Code, list: seq<Code>): seq<Code>
    decreases |list|
  {
    if list == [] || code < list[0] then [code] + list else [list[0]] + Insert(code, list[1..])
  }

  lemma {:induction false} InsertLists(code: Code, list: seq<Code>, codes: set<Code>)
    requires Lists(list, codes) && code !in codes
    ensures Lists(Insert(code, list), codes + {code})
    decreases |list|
  {
    if list != [] && list[0] <= code {
      assert list[0] in list;
      Rest(list, codes);
      InsertLists(code, list[1..], codes - {list[0]});
      var tail := Insert(code, list[1..]);
      var all := [list[0]] + tail;
      assert codes - {list[0]} + {code} + {list[0]} == codes + {code};
      forall i, j | 0 <= i < j < |all| ensures all[i] < all[j] {
        if i == 0 {
          assert all[j] in tail;
          if all[j] != code { LaterIsGreater(list, codes, all[j]); }
        }
      }
    } else if list != [] {
      forall j | 0 <= j < |list| ensures code < list[j] {
        if j > 0 { assert list[0] < list[j]; }
      }
    }
  }

  lemma LaterIsGreater(list: seq<Code>, codes: set<Code>, code: Code)
    requires Lists(list, codes) && list != [] && code in codes - {list[0]}
    ensures list[0] < code
  {
    var k :| 0 <= k < |list| && list[k] == code;
  }

  function Flag(code: Code, raised: bool): set<Code> { if raised then {code} else {} }

  class FailureCollector {
    var codes: set<Code>

    constructor ()
      ensures codes == {}
    {
      codes := {};
    }

    method Add(code: Code, condition: bool)
      modifies this
      ensures codes == old(codes) + Flag(code, condition)
    {
      if condition {
        codes := codes + {code};
      }
    }

    method Ordered() returns (list: seq<Code>)
      ensures Lists(list, codes)
    {
      list := [];
      var left := codes;
      while left != {}
        invariant left <= codes && Lists(list, codes - left)
        decreases |left|
      {
        var code :| code in left;
        InsertLists(code, list, codes - left);
        assert codes - left + {code} == codes - (left - {code});
        list := Insert(code, list);
        left := left - {code};
      }
      assert codes - left == codes;
    }
  }
}
