/** The replay store for KYA request proofs, with and without purging (packages/kya-os-authority/src/state-store.ts and
    packages/postgres-store/src/kya-store.ts). */
module KyaNonces {
  import opened Prelude

  datatype Key = Key(did: string, nonce: string)

  datatype Op = Consume(key: Key, at: int, expiresAt: int) | Purge(at: int)

  type Nonces = map<Key, int>

  predicate IsReplay(nonces: Nonces, key: Key, at: int) {
    key in nonces && nonces[key] >= at
  }

  function Purged(nonces: Nonces, at: int): Nonces {
    map key | key in nonces && nonces[key] >= at :: nonces[key]
  }

  /** One call; true means that a nonce was consumed. */
  function Step(nonces: Nonces, op: Op): (Nonces, bool) {
    match op
    case Consume(key, at, expiresAt) =>
      if IsReplay(nonces, key, at) then (nonces, false) else (nonces[key := expiresAt], true)
    case Purge(at) => (Purged(nonces, at), false)
  }

  function Answers(nonces: Nonces, ops: seq<Op>): seq<bool>
    decreases |ops|
  {
    if ops == [] then [] else [Step(nonces, ops[0]).1] + Answers(Step(nonces, ops[0]).0, ops[1..])
  }

  // ----- a store that never forgets

  /** Every consumption that was accepted, oldest first. */
  type Log = seq<Op>

  predicate Remembered(log: Log, key: Key, at: int) {
    exists i :: 0 <= i < |log| && log[i].Consume? && log[i].key == key && log[i].expiresAt >= at
  }

  function Remember(log: Log, op: Op): (Log, bool) {
    if op.Purge? || Remembered(log, op.key, op.at) then (log, false) else (log + [op], true)
  }

  function Recollections(log: Log, ops: seq<Op>): seq<bool>
    decreases |ops|
  {
    if ops == [] then [] else [Remember(log, ops[0]).1] + Recollections(Remember(log, ops[0]).0, ops[1..])
  }

  predicate InOrder(ops: seq<Op>, from: int)
    decreases |ops|
  {
    ops == [] || (from <= ops[0].at && InOrder(ops[1..], ops[0].at))
  }

  /** From `now` on, the store answers as the log would. */
  ghost predicate Agree(nonces: Nonces, log: Log, now: int) {
    forall key, at :: at >= now ==> (IsReplay(nonces, key, at) <==> Remembered(log, key, at))
  }

  lemma StepAgrees(nonces: Nonces, log: Log, op: Op, now: int)
    requires Agree(nonces, log, now) && now <= op.at
    ensures Step(nonces, op).1 == Remember(log, op).1
    ensures Agree(Step(nonces, op).0, Remember(log, op).0, op.at)
  {
    var t, l := Step(nonces, op).0, Remember(log, op).0;
    match op
    case Purge(_) =>
      forall key, at | at >= op.at ensures IsReplay(t, key, at) <==> Remembered(l, key, at) {
        assert IsReplay(nonces, key, at) <==> Remembered(log, key, at);
      }
    case Consume(k, _, expiresAt) =>
      assert IsReplay(nonces, k, op.at) <==> Remembered(log, k, op.at);
      if l != log {
        forall key, at | at >= op.at ensures IsReplay(t, key, at) <==> Remembered(l, key, at) {
          assert IsReplay(nonces, key, at) <==> Remembered(log, key, at);
          Appended(log, op, key, at);
          if key == k { LaterIsFree(log, k, op.at, at); }
        }
      }
  }

  lemma Appended(log: Log, op: Op, key: Key, at: int)
    requires op.Consume?
    ensures Remembered(log + [op], key, at) <==> Remembered(log, key, at) || (op.key == key && op.expiresAt >= at)
  {
    var l := log + [op];
    if Remembered(log, key, at) {
      var i :| 0 <= i < |log| && log[i].Consume? && log[i].key == key && log[i].expiresAt >= at;
      assert l[i] == log[i];
    }
    if op.key == key && op.expiresAt >= at {
      assert l[|log|] == op;
    }
  }

  lemma LaterIsFree(log: Log, key: Key, at: int, later: int)
    requires !Remembered(log, key, at) && at <= later
    ensures !Remembered(log, key, later)
  {
  }

  lemma {:induction false} AnswersAgree(nonces: Nonces, log: Log, ops: seq<Op>, now: int)
    requires Agree(nonces, log, now) && InOrder(ops, now)
    ensures Answers(nonces, ops) == Recollections(log, ops)
    decreases |ops|
  {
    if ops != [] {
      StepAgrees(nonces, log, ops[0], now);
      AnswersAgree(Step(nonces, ops[0]).0, Remember(log, ops[0]).0, ops[1..], ops[0].at);
    }
  }

  /** With clocks that do not run backwards, the purging store answers every call as a store that forgets nothing. */
  lemma PurgingForgetsNothing(ops: seq<Op>, now: int)
    requires InOrder(ops, now)
    ensures Answers(map[], ops) == Recollections([], ops)
  {
    AnswersAgree(map[], [], ops, now);
  }

  // ----- consequences

  function WithoutPurges(ops: seq<Op>): seq<Op>
    decreases |ops|
  {
    if ops == [] then [] else (if ops[0].Purge? then [] else [ops[0]]) + WithoutPurges(ops[1..])
  }

  /** The answers to the consumptions alone. */
  function ConsumeAnswers(answers: seq<bool>, ops: seq<Op>): seq<bool>
    requires |answers| == |ops|
    decreases |ops|
  {
    if ops == [] then []
    else (if ops[0].Purge? then [] else [answers[0]]) + ConsumeAnswers(answers[1..], ops[1..])
  }

  lemma {:induction false} Lengths(nonces: Nonces, log: Log, ops: seq<Op>)
    ensures |Answers(nonces, ops)| == |ops| && |Recollections(log, ops)| == |ops|
    decreases |ops|
  {
    if ops != [] { Lengths(Step(nonces, ops[0]).0, Remember(log, ops[0]).0, ops[1..]); }
  }

  lemma {:induction false} OrderWithoutPurges(ops: seq<Op>, now: int, later: int)
    requires InOrder(ops, later) && now <= later
    ensures InOrder(WithoutPurges(ops), now)
    decreases |ops|
  {
    if ops != [] {
      OrderWithoutPurges(ops[1..], ops[0].at, ops[0].at);
      if ops[0].Purge? {
        OrderWithoutPurges(ops[1..], now, ops[0].at);
        assert WithoutPurges(ops) == WithoutPurges(ops[1..]);
      } else {
        assert WithoutPurges(ops)[1..] == WithoutPurges(ops[1..]);
      }
    }
  }

  lemma {:induction false} LogIgnoresPurges(log: Log, ops: seq<Op>)
    ensures |Recollections(log, ops)| == |ops|
    ensures ConsumeAnswers(Recollections(log, ops), ops) == Recollections(log, WithoutPurges(ops))
    decreases |ops|
  {
    Lengths(map[], log, ops);
    if ops != [] {
      var l := Remember(log, ops[0]).0;
      LogIgnoresPurges(l, ops[1..]);
      assert Recollections(log, ops)[1..] == Recollections(l, ops[1..]);
      if ops[0].Purge? {
        assert WithoutPurges(ops) == WithoutPurges(ops[1..]);
        assert ConsumeAnswers(Recollections(log, ops), ops) == ConsumeAnswers(Recollections(l, ops[1..]), ops[1..]);
      } else {
        assert WithoutPurges(ops)[1..] == WithoutPurges(ops[1..]);
      }
    }
  }

  /** Purges anywhere in the sequence change no consumption's answer. */
  lemma PurgesChangeNothing(ops: seq<Op>, now: int)
    requires InOrder(ops, now)
    ensures |Answers(map[], ops)| == |ops|
    ensures ConsumeAnswers(Answers(map[], ops), ops) == Answers(map[], WithoutPurges(ops))
  {
    Lengths(map[], [], ops);
    PurgingForgetsNothing(ops, now);
    OrderWithoutPurges(ops, now, now);
    PurgingForgetsNothing(WithoutPurges(ops), now);
    LogIgnoresPurges([], ops);
  }

  /** Nothing accepted now is in the log already; what is accepted stays in it. */
  lemma {:induction false} AcceptedStays(log: Log, ops: seq<Op>, j: nat, key: Key, expiresAt: int)
    requires j < |ops| && ops[j].Consume? && ops[j].key == key
    requires Remembered(log, key, expiresAt)
    ensures |Recollections(log, ops)| == |ops|
    ensures Recollections(log, ops)[j] ==> expiresAt < ops[j].at
    decreases |ops|
  {
    Lengths(map[], log, ops);
    var l := Remember(log, ops[0]).0;
    if j > 0 {
      if ops[0].Consume? { Appended(log, ops[0], key, expiresAt); }
      AcceptedStays(l, ops[1..], j - 1, key, expiresAt);
    } else if ops[0].at <= expiresAt {
      var i :| 0 <= i < |log| && log[i].Consume? && log[i].key == key && log[i].expiresAt >= expiresAt;
      assert Remembered(log, key, ops[0].at);
    }
  }

  lemma {:induction false} SpentUntilExpiry(log: Log, ops: seq<Op>, i: nat, j: nat)
    requires i < j < |ops| && ops[i].Consume? && ops[j].Consume? && ops[i].key == ops[j].key
    ensures |Recollections(log, ops)| == |ops|
    ensures Recollections(log, ops)[i] && Recollections(log, ops)[j] ==> ops[i].expiresAt < ops[j].at
    decreases i
  {
    Lengths(map[], log, ops);
    var l := Remember(log, ops[0]).0;
    if i > 0 {
      SpentUntilExpiry(l, ops[1..], i - 1, j - 1);
    } else if Recollections(log, ops)[0] {
      Appended(log, ops[0], ops[0].key, ops[0].expiresAt);
      AcceptedStays(l, ops[1..], j - 1, ops[0].key, ops[0].expiresAt);
    }
  }

  /** A proof nonce is accepted again only after its retention time. */
  lemma AcceptedOncePerRetention(ops: seq<Op>, now: int, i: nat, j: nat)
    requires InOrder(ops, now)
    requires i < j < |ops| && ops[i].Consume? && ops[j].Consume? && ops[i].key == ops[j].key
    ensures |Answers(map[], ops)| == |ops|
    ensures Answers(map[], ops)[i] && Answers(map[], ops)[j] ==> ops[i].expiresAt < ops[j].at
  {
    Lengths(map[], [], ops);
    PurgingForgetsNothing(ops, now);
    SpentUntilExpiry([], ops, i, j);
  }

  /** The order matters: a purge by a clock that runs ahead lets a slower clock accept the nonce again. */
  lemma PurgeAheadForgets(key: Key, at: int, expiresAt: int, ahead: int)
    requires at <= expiresAt < ahead
    ensures Answers(map[], [Consume(key, at, expiresAt), Purge(ahead), Consume(key, at, expiresAt)])
         == [true, false, true]
    ensures Recollections([], [Consume(key, at, expiresAt), Purge(ahead), Consume(key, at, expiresAt)])
         == [true, false, false]
  {
    var c := Consume(key, at, expiresAt);
    var ops := [c, Purge(ahead), c];
    assert ops[1..] == [Purge(ahead), c] && ops[1..][1..] == [c] && ops[1..][1..][1..] == [];
    var held: Nonces := map[][key := expiresAt];
    assert Purged(held, ahead) == map[];
    assert Answers(Purged(held, ahead), [c]) == [true];
    assert Answers(held, [Purge(ahead), c]) == [false] + Answers(Purged(held, ahead), [c]);
    assert ([] + [c])[0] == c;
    assert Recollections([c], [c]) == [false];
    assert Recollections([c], [Purge(ahead), c]) == [false] + Recollections([c], [c]);
    assert Recollections([], ops) == [true] + Recollections([] + [c], ops[1..]);
    assert [] + [c] == [c];
  }

  // ----- the store

  class InMemoryKyaNonceStore {
    var nonces: Nonces

    constructor ()
      ensures nonces == map[]
    {
      nonces := map[];
    }

    method Consume(key: Key, consumedAt: int, expiresAt: int) returns (consumed: bool)
      modifies this
      ensures (nonces, consumed) == Step(old(nonces), Op.Consume(key, consumedAt, expiresAt))
    {
      if key in nonces && nonces[key] >= consumedAt {
        return false;
      }
      nonces := nonces[key := expiresAt];
      consumed := true;
    }

    /** Deletes while it walks over the keys, and counts what it deleted. */
    method PurgeExpired(at: int) returns (removed: nat)
      modifies this
      ensures nonces == Purged(old(nonces), at) && removed == |old(nonces)| - |nonces|
    {
      removed := 0;
      var left := nonces.Keys;
      while left != {}
        invariant left <= nonces.Keys <= old(nonces).Keys
        invariant forall key :: key in nonces ==> nonces[key] == old(nonces)[key]
        invariant forall key :: key in old(nonces) && key !in left ==> (key in nonces <==> old(nonces)[key] >= at)
        invariant removed == |old(nonces)| - |nonces|
        decreases |left|
      {
        var key :| key in left;
        left := left - {key};
        if nonces[key] < at {
          Smaller(nonces, key);
          nonces := nonces - {key};
          removed := removed + 1;
        }
      }
      assert nonces == Purged(old(nonces), at);
    }
  }

  lemma Smaller(nonces: Nonces, key: Key)
    requires key in nonces
    ensures |nonces - {key}| == |nonces| - 1
  {
    assert (nonces - {key}).Keys == nonces.Keys - {key};
    assert |nonces.Keys - {key}| == |nonces.Keys| - 1;
    assert |nonces| == |nonces.Keys| && |nonces - {key}| == |(nonces - {key}).Keys|;
  }
}
