/** Exactly which sequences of calls make the purging nonce store answer otherwise than one that never forgets, whatever
    the clocks do. */
module KyaForgetting {
  import opened Prelude
  import opened KyaNonces

  // ----- the two stores after some calls

  function After(nonces: Nonces, ops: seq<Op>): Nonces
    decreases |ops|
  {
    if ops == [] then nonces else After(Step(nonces, ops[0]).0, ops[1..])
  }

  function LogAfter(log: Log, ops: seq<Op>): Log
    decreases |ops|
  {
    if ops == [] then log else LogAfter(Remember(log, ops[0]).0, ops[1..])
  }

  lemma {:induction false} AnswerAt(nonces: Nonces, ops: seq<Op>, j: nat)
    requires j < |ops|
    ensures |Answers(nonces, ops)| == |ops| && Answers(nonces, ops)[j] == Step(After(nonces, ops[..j]), ops[j]).1
    ensures After(nonces, ops[..j + 1]) == Step(After(nonces, ops[..j]), ops[j]).0
    decreases j
  {
    Lengths(nonces, [], ops);
    hide Step;
    var next := Step(nonces, ops[0]).0;
    assert ops[..j + 1][1..] == ops[1..][..j];
    if j > 0 {
      assert ops[..j][1..] == ops[1..][..j - 1];
      AnswerAt(next, ops[1..], j - 1);
    }
  }

  lemma {:induction false} RecollectionAt(log: Log, ops: seq<Op>, j: nat)
    requires j < |ops|
    ensures |Recollections(log, ops)| == |ops| && Recollections(log, ops)[j] == Remember(LogAfter(log, ops[..j]), ops[j]).1
    ensures LogAfter(log, ops[..j + 1]) == Remember(LogAfter(log, ops[..j]), ops[j]).0
    decreases j
  {
    Lengths(map[], log, ops);
    hide Remember;
    var next := Remember(log, ops[0]).0;
    assert ops[..j + 1][1..] == ops[1..][..j];
    if j > 0 {
      assert ops[..j][1..] == ops[1..][..j - 1];
      RecollectionAt(next, ops[1..], j - 1);
    }
  }

  // ----- what was accepted, and what was lost of it

  /** The i-th call consumes the nonce, as a store that never forgets sees it. */
  predicate Accepted(ops: seq<Op>, i: nat, key: Key)
    requires i < |ops|
  {
    ops[i].Consume? && ops[i].key == key && !Remembered(LogAfter([], ops[..i]), key, ops[i].at)
  }

  /** The last acceptance of the nonce before the j-th call. */
  predicate Last(ops: seq<Op>, i: nat, j: nat, key: Key)
    requires i < j <= |ops|
  {
    Accepted(ops, i, key) && forall k :: i < k < j ==> !Accepted(ops, k, key)
  }

  predicate PurgedBetween(ops: seq<Op>, i: nat, j: nat, expiresAt: int)
    requires i < j <= |ops|
  {
    exists m :: i < m < j && ops[m].Purge? && ops[m].at > expiresAt
  }

  /** The j-th call consumes a nonce that some earlier acceptance still covers, while the last acceptance was purged since
      or does not reach as far: some clock ran ahead. */
  predicate Forgets(ops: seq<Op>, i: nat, j: nat)
    requires i < j < |ops|
  {
    && ops[j].Consume? && Last(ops, i, j, ops[j].key)
    && (exists h :: 0 <= h <= i && Accepted(ops, h, ops[j].key) && ops[j].at <= ops[h].expiresAt)
    && (PurgedBetween(ops, i, j, ops[i].expiresAt) || ops[i].expiresAt < ops[j].at)
  }

  ghost predicate ForgetsSomewhere(ops: seq<Op>) {
    exists i, j :: 0 <= i < j < |ops| && Forgets(ops, i, j)
  }

  // ----- the log holds what was accepted

  lemma {:induction false} RememberedIs(ops: seq<Op>, j: nat, key: Key, at: int)
    requires j <= |ops|
    ensures Remembered(LogAfter([], ops[..j]), key, at)
       <==> exists h :: 0 <= h < j && Accepted(ops, h, key) && at <= ops[h].expiresAt
    decreases j
  {
    if j > 0 {
      var k := j - 1;
      RememberedIs(ops, k, key, at);
      RecollectionAt([], ops, k);
      hide Remembered, LogAfter;
      var log := LogAfter([], ops[..k]);
      if ops[k].Consume? { Appended(log, ops[k], key, at); }
      assert (exists h :: 0 <= h < j && Accepted(ops, h, key) && at <= ops[h].expiresAt)
        <==> (exists h :: 0 <= h < k && Accepted(ops, h, key) && at <= ops[h].expiresAt)
             || (Accepted(ops, k, key) && at <= ops[k].expiresAt);
    } else {
      assert ops[..0] == [];
    }
  }

  /** Some acceptance is the last. */
  lemma {:induction false} SomeLast(ops: seq<Op>, h: nat, j: nat, key: Key) returns (i: nat)
    requires h < j <= |ops| && Accepted(ops, h, key)
    ensures h <= i < j && Last(ops, i, j, key)
    decreases j
  {
    hide Accepted;
    if Accepted(ops, j - 1, key) {
      i := j - 1;
    } else {
      i := SomeLast(ops, h, j - 1, key);
    }
  }

  // ----- the store holds the last of them, unless purged

  ghost predicate AgreeUntil(ops: seq<Op>, j: nat)
    requires j <= |ops|
  {
    forall k :: 0 <= k < j ==> Step(After(map[], ops[..k]), ops[k]).1 == Remember(LogAfter([], ops[..k]), ops[k]).1
  }

  predicate HeldSince(ops: seq<Op>, i: nat, j: nat, key: Key)
    requires i < j <= |ops|
  {
    Last(ops, i, j, key) && !PurgedBetween(ops, i, j, ops[i].expiresAt)
  }

  /** What the store has of a nonce after j calls. */
  ghost predicate Held(ops: seq<Op>, j: nat, key: Key)
    requires j <= |ops|
  {
    var nonces := After(map[], ops[..j]);
    && (key in nonces ==> exists i :: 0 <= i < j && HeldSince(ops, i, j, key) && ops[i].expiresAt == nonces[key])
    && (forall i :: 0 <= i < j && HeldSince(ops, i, j, key) ==> key in nonces)
  }

  lemma LastIsUnique(ops: seq<Op>, h: nat, i: nat, j: nat, key: Key)
    requires h < j <= |ops| && i < j && Last(ops, h, j, key) && Last(ops, i, j, key)
    ensures h == i
  {
    hide Accepted;
  }

  /** An acceptance is the last one from then on. */
  lemma AcceptanceHolds(ops: seq<Op>, j: nat, n: nat, key: Key)
    requires n == j + 1 <= |ops| && Accepted(ops, j, key)
    ensures HeldSince(ops, j, n, key)
    ensures forall i :: 0 <= i < n && HeldSince(ops, i, n, key) ==> i == j
  {
    hide Accepted;
  }

  /** Any other call keeps what was last, and drops it only by a purge past its time. */
  lemma OthersHold(ops: seq<Op>, j: nat, n: nat, key: Key, i: nat)
    requires i < j && n == j + 1 <= |ops| && !Accepted(ops, j, key)
    ensures HeldSince(ops, i, n, key)
       <==> HeldSince(ops, i, j, key) && !(ops[j].Purge? && ops[j].at > ops[i].expiresAt)
  {
    assert Last(ops, i, n, key) <==> Last(ops, i, j, key);
    if Last(ops, i, j, key) {
      assert PurgedBetween(ops, i, n, ops[i].expiresAt)
        <==> PurgedBetween(ops, i, j, ops[i].expiresAt) || (ops[j].Purge? && ops[j].at > ops[i].expiresAt);
    }
  }

  lemma NotHeldByItself(ops: seq<Op>, j: nat, key: Key)
    requires j < |ops| && !Accepted(ops, j, key)
    ensures !HeldSince(ops, j, j + 1, key)
  {
    hide Accepted;
  }

  lemma {:induction false} StoreHolds(ops: seq<Op>, j: nat, key: Key)
    requires j <= |ops| && AgreeUntil(ops, j)
    ensures Held(ops, j, key)
    decreases j
  {
    if j == 0 {
      assert ops[..0] == [];
    } else {
      StoreHolds(ops, j - 1, key);
      HoldsOn(ops, j - 1, key);
    }
  }

  lemma HoldsOn(ops: seq<Op>, j: nat, key: Key)
    requires j < |ops| && Held(ops, j, key)
    requires Step(After(map[], ops[..j]), ops[j]).1 == Remember(LogAfter([], ops[..j]), ops[j]).1
    ensures Held(ops, j + 1, key)
  {
    AnswerAt(map[], ops, j);
    var nonces := After(map[], ops[..j]);
    var next := After(map[], ops[..j + 1]);
    hide After, LogAfter, Remembered;
    var n := j + 1;
    if Accepted(ops, j, key) {
      AcceptanceHolds(ops, j, n, key);
      hide HeldSince, Accepted;
      assert next == nonces[key := ops[j].expiresAt];
      assert HeldSince(ops, j, n, key);
    } else {
      NotHeldByItself(ops, j, key);
      forall i | 0 <= i < j
        ensures HeldSince(ops, i, n, key)
           <==> HeldSince(ops, i, j, key) && !(ops[j].Purge? && ops[j].at > ops[i].expiresAt)
      {
        OthersHold(ops, j, n, key, i);
      }
      UntouchedOrPurged(nonces, ops[j], key);
      hide HeldSince, Accepted, Step;
      if key in next {
        var i :| 0 <= i < j && HeldSince(ops, i, j, key) && ops[i].expiresAt == nonces[key];
        assert HeldSince(ops, i, n, key) && ops[i].expiresAt == next[key];
      }
      forall i | 0 <= i < n && HeldSince(ops, i, n, key) ensures key in next {
        assert HeldSince(ops, i, j, key);
        var h :| 0 <= h < j && HeldSince(ops, h, j, key) && ops[h].expiresAt == nonces[key];
        SameHeld(ops, h, i, j, key);
      }
    }
  }

  lemma SameHeld(ops: seq<Op>, h: nat, i: nat, j: nat, key: Key)
    requires h < j <= |ops| && i < j && HeldSince(ops, h, j, key) && HeldSince(ops, i, j, key)
    ensures h == i
  {
    LastIsUnique(ops, h, i, j, key);
  }

  /** What a call that does not consume this nonce does to it. */
  lemma UntouchedOrPurged(nonces: Nonces, op: Op, key: Key)
    ensures var next := Step(nonces, op).0;
            !(op.Consume? && op.key == key && Step(nonces, op).1) ==>
              && (key in next <==> key in nonces && !(op.Purge? && op.at > nonces[key]))
              && (key in next ==> next[key] == nonces[key])
  {
  }

  // ----- the exact condition

  /** A purge consumes nothing in either store, and a nonce with no acceptance behind it is fresh in both. */
  lemma StepAgreesUnless(ops: seq<Op>, j: nat)
    requires j < |ops| && AgreeUntil(ops, j)
    requires forall i :: 0 <= i < j ==> !Forgets(ops, i, j)
    ensures Step(After(map[], ops[..j]), ops[j]).1 == Remember(LogAfter([], ops[..j]), ops[j]).1
  {
    if ops[j].Consume? {
      var key, at := ops[j].key, ops[j].at;
      StoreHolds(ops, j, key);
      RememberedIs(ops, j, key, at);
      hide After, LogAfter, Remembered, Accepted, AgreeUntil, PurgedBetween;
      var nonces := After(map[], ops[..j]);
      if Remembered(LogAfter([], ops[..j]), key, at) {
        var h :| 0 <= h < j && Accepted(ops, h, key) && at <= ops[h].expiresAt;
        var i := SomeLast(ops, h, j, key);
        assert !Forgets(ops, i, j);
        assert HeldSince(ops, i, j, key);
        var l :| 0 <= l < j && HeldSince(ops, l, j, key) && ops[l].expiresAt == nonces[key];
        SameHeld(ops, l, i, j, key);
      } else if key in nonces {
        var i :| 0 <= i < j && HeldSince(ops, i, j, key) && ops[i].expiresAt == nonces[key];
        assert Accepted(ops, i, key);
      }
    }
  }

  lemma ForgettingDisagrees(ops: seq<Op>, i: nat, j: nat)
    requires i < j < |ops| && Forgets(ops, i, j) && AgreeUntil(ops, j)
    ensures Step(After(map[], ops[..j]), ops[j]).1 != Remember(LogAfter([], ops[..j]), ops[j]).1
  {
    var key, at := ops[j].key, ops[j].at;
    StoreHolds(ops, j, key);
    RememberedIs(ops, j, key, at);
    hide After, LogAfter, Remembered, Accepted, AgreeUntil, PurgedBetween;
    var nonces := After(map[], ops[..j]);
    if key in nonces {
      var l :| 0 <= l < j && HeldSince(ops, l, j, key) && ops[l].expiresAt == nonces[key];
      LastIsUnique(ops, l, i, j, key);
    }
  }

  lemma {:induction false} AgreesUntil(ops: seq<Op>, j: nat)
    requires j <= |ops| && !ForgetsSomewhere(ops)
    ensures AgreeUntil(ops, j)
    decreases j
  {
    if j > 0 {
      AgreesUntil(ops, j - 1);
      hide Forgets, Step, Remember, After, LogAfter;
      StepAgreesUnless(ops, j - 1);
    }
  }

  /** For every sequence of calls, at whatever times: the purging store answers as one that never forgets if and only if
      no consumption finds an earlier acceptance still covering it whose successor, or which itself, was purged since or
      ended sooner. Times that never run backwards are one way to make sure. */
  lemma AnswersAgreeExactlyWhen(ops: seq<Op>)
    ensures Answers(map[], ops) == Recollections([], ops) <==> !ForgetsSomewhere(ops)
  {
    Lengths(map[], [], ops);
    forall j | 0 <= j < |ops|
      ensures Answers(map[], ops)[j] == Step(After(map[], ops[..j]), ops[j]).1
      ensures Recollections([], ops)[j] == Remember(LogAfter([], ops[..j]), ops[j]).1
    {
      AnswerAt(map[], ops, j);
      RecollectionAt([], ops, j);
    }
    hide Step, Remember, After, LogAfter, Forgets, Answers, Recollections;
    if ForgetsSomewhere(ops) {
      var i, j :| 0 <= i < j < |ops| && Forgets(ops, i, j);
      if Answers(map[], ops) == Recollections([], ops) { ForgettingDisagrees(ops, i, j); }
    } else {
      AgreesUntil(ops, |ops|);
    }
  }

  /** At times in order nothing is forgotten. */
  lemma OrderForgetsNothing(ops: seq<Op>, now: int)
    requires InOrder(ops, now)
    ensures !ForgetsSomewhere(ops)
  {
    PurgingForgetsNothing(ops, now);
    AnswersAgreeExactlyWhen(ops);
  }
}
