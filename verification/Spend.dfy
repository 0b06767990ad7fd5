/** Consumption and the daily limit in one transaction (`SplitSpend` has the older pair of separate stores).

    Amounts are natural numbers of 10^-18 units, the finest the canonical form writes. `ledger` is history: one entry
    per committed consumption. */
module Spend {
  import opened Prelude
  import opened Decisions

  datatype SpendKey = SpendKey(principalId: string, dayKey: string)

  datatype Consumption = Consumption(decisionId: string, nonce: string, actionHash: Digest, executionRef: string,
                                     expiresAt: int, consumedAt: int)

  datatype Input = Input(consumption: Consumption, key: SpendKey, amount: nat, dailyLimit: nat)

  datatype Status = Consumed | Idempotent | NonceConflict | Expired | LimitExceeded | NotAllow | HashMismatch

  /** A committed consumption, the total it raised and the limit it was held to. */
  datatype Entry = Entry(decisionId: string, key: SpendKey, amount: nat, limit: nat, at: int)

  datatype State = State(rows: map<string, Consumption>, spend: map<SpendKey, nat>, ledger: seq<Entry>)

  const EMPTY := State(map[], map[], [])

  function Spent(s: State, key: SpendKey): nat {
    if key in s.spend then s.spend[key] else 0
  }

  predicate NonceTaken(rows: map<string, Consumption>, nonce: string) {
    exists id :: id in rows && rows[id].nonce == nonce
  }

  predicate SameConsumption(a: Consumption, b: Consumption) {
    a.nonce == b.nonce && a.actionHash == b.actionHash && a.executionRef == b.executionRef
  }

  /** The transaction as one step. */
  function Commit(s: State, i: Input): (State, Status) {
    var c := i.consumption;
    if c.consumedAt >= c.expiresAt then (s, Expired)
    else if c.decisionId in s.rows then
      (s, if SameConsumption(s.rows[c.decisionId], c) then Idempotent else NonceConflict)
    else if NonceTaken(s.rows, c.nonce) then (s, NonceConflict)
    else if i.amount > i.dailyLimit || Spent(s, i.key) + i.amount > i.dailyLimit then (s, LimitExceeded)
    else (State(s.rows[c.decisionId := c], s.spend[i.key := Spent(s, i.key) + i.amount],
                s.ledger + [Entry(c.decisionId, i.key, i.amount, i.dailyLimit, c.consumedAt)]), Consumed)
  }

  /** Tables of one database; the transaction works on them and restores what it saved to roll back. */
  class PostgresPolicyStateStore {
    var consumptions: map<string, Consumption>
    var dailySpend: map<SpendKey, nat>
    ghost var ledger: seq<Entry>

    ghost function Contents(): State
      reads this
    {
      State(consumptions, dailySpend, ledger)
    }

    constructor ()
      ensures Contents() == EMPTY
    {
      consumptions, dailySpend, ledger := map[], map[], [];
    }

    method ConsumeAndRecordSpend(i: Input) returns (status: Status)
      modifies this
      ensures (Contents(), status) == Commit(old(Contents()), i)
    {
      var c := i.consumption;
      if c.consumedAt >= c.expiresAt {
        return Expired;
      }
      var saved := consumptions;
      // insert, unless one of the two unique keys is taken
      var inserted := c.decisionId !in consumptions && !NonceTaken(consumptions, c.nonce);
      if inserted {
        consumptions := consumptions[c.decisionId := c];
      } else {
        // the row of this decision is read before one that merely shares the nonce
        return if c.decisionId in consumptions && SameConsumption(consumptions[c.decisionId], c) then Idempotent
               else NonceConflict;
      }
      var rowCount := 0;
      if i.key !in dailySpend {
        if i.amount <= i.dailyLimit {
          dailySpend := dailySpend[i.key := i.amount];
          rowCount := 1;
        }
      } else if i.amount <= i.dailyLimit && dailySpend[i.key] + i.amount <= i.dailyLimit {
        dailySpend := dailySpend[i.key := dailySpend[i.key] + i.amount];
        rowCount := 1;
      }
      if rowCount == 0 {
        consumptions := saved;
        return LimitExceeded;
      }
      ledger := ledger + [Entry(c.decisionId, i.key, i.amount, i.dailyLimit, c.consumedAt)];
      return Consumed;
    }
  }

  // ---- conservation -----------------------------------------------------------------------------------

  function Sum(ledger: seq<Entry>, key: SpendKey): nat {
    if ledger == [] then 0
    else Sum(ledger[..|ledger| - 1], key)
         + (if ledger[|ledger| - 1].key == key then ledger[|ledger| - 1].amount else 0)
  }

  /** Every entry kept its day within the limit it was held to. */
  predicate Held(ledger: seq<Entry>) {
    ledger == [] || (Held(ledger[..|ledger| - 1])
                     && Sum(ledger, ledger[|ledger| - 1].key) <= ledger[|ledger| - 1].limit)
  }

  /** One ledger entry per consumed decision, and nonces are single-use. */
  ghost predicate SingleUse(s: State) {
    && (forall i, j :: 0 <= i < j < |s.ledger| ==> s.ledger[i].decisionId != s.ledger[j].decisionId)
    && (forall i :: 0 <= i < |s.ledger| ==> s.ledger[i].decisionId in s.rows)
    && |s.ledger| == |s.rows|
    && (forall a, b :: a in s.rows && b in s.rows && s.rows[a].nonce == s.rows[b].nonce ==> a == b)
    && (forall id :: id in s.rows ==> s.rows[id].decisionId == id)
  }

  /** The stored totals are the sums of the ledger, every one within its limit. */
  ghost predicate Conserved(s: State) {
    && (forall key :: Spent(s, key) == Sum(s.ledger, key))
    && Held(s.ledger)
    && SingleUse(s)
  }

  /** Each total moves as its sum does. */
  lemma CommitBalances(s: State, i: Input)
    requires (forall key :: Spent(s, key) == Sum(s.ledger, key)) && Held(s.ledger) && Commit(s, i).1 == Consumed
    ensures var t := Commit(s, i).0;
            && t.ledger == s.ledger + [Entry(i.consumption.decisionId, i.key, i.amount, i.dailyLimit, i.consumption.consumedAt)]
            && (forall key :: Spent(t, key) == Sum(t.ledger, key)) && Held(t.ledger)
  {
    var t := Commit(s, i).0;
    assert t.ledger[..|t.ledger| - 1] == s.ledger;
    assert Spent(t, i.key) == Spent(s, i.key) + i.amount <= i.dailyLimit;
    forall key ensures Spent(t, key) == Sum(t.ledger, key) {
      assert key != i.key ==> Spent(t, key) == Spent(s, key);
    }
  }

  lemma CommitUsesOnce(s: State, i: Input)
    requires SingleUse(s) && Commit(s, i).1 == Consumed
    ensures SingleUse(Commit(s, i).0)
  {
    hide Spent;
    var t := Commit(s, i).0;
    var id := i.consumption.decisionId;
    assert forall k :: 0 <= k < |s.ledger| ==> t.ledger[k] == s.ledger[k] && s.ledger[k].decisionId != id;
    assert forall a :: a in s.rows ==> s.rows[a].nonce != i.consumption.nonce;
  }

  lemma CommitConserves(s: State, i: Input)
    requires Conserved(s)
    ensures var (t, status) := Commit(s, i);
            && Conserved(t)
            && (status == Consumed <==> t != s)
            && (status == Consumed ==> t.ledger == s.ledger + [Entry(i.consumption.decisionId, i.key, i.amount, i.dailyLimit,
                                                                     i.consumption.consumedAt)])
  {
    if Commit(s, i).1 == Consumed {
      CommitBalances(s, i);
      CommitUsesOnce(s, i);
      hide Sum, Held, Spent, SingleUse;
    }
  }

  /** What a transaction answers and stores. A row of this decision decides before a shared nonce, a nonce before the
      limit, and the limit is held against what the ledger sums to. */
  lemma CommitAnswersExactly(s: State, i: Input)
    requires Conserved(s)
    ensures var (t, status) := Commit(s, i);
            var c := i.consumption;
            var live, known := c.consumedAt < c.expiresAt, c.decisionId in s.rows;
            var same := known && var row := s.rows[c.decisionId];
                                 (row.nonce, row.actionHash, row.executionRef) == (c.nonce, c.actionHash, c.executionRef);
            var shared := exists id :: id in s.rows && s.rows[id].nonce == c.nonce;
            var within := Sum(s.ledger, i.key) + i.amount <= i.dailyLimit;
            && (status == Expired <==> !live)
            && (status == Idempotent <==> live && same)
            && (status == NonceConflict <==> live && !same && (known || shared))
            && (status == LimitExceeded <==> live && !known && !shared && !within)
            && (status == Consumed <==> live && !known && !shared && within)
            && (status == Consumed ==>
                  && t.rows == s.rows[c.decisionId := c]
                  && t.ledger == s.ledger + [Entry(c.decisionId, i.key, i.amount, i.dailyLimit, c.consumedAt)])
            && (status != Consumed ==> t == s)
  {
    hide Sum;
    assert Spent(s, i.key) == Sum(s.ledger, i.key);
  }

  function Play(s: State, inputs: seq<Input>): State
    decreases |inputs|
  {
    if inputs == [] then s else Play(Commit(s, inputs[0]).0, inputs[1..])
  }

  lemma {:induction false} PlayConserves(s: State, inputs: seq<Input>)
    requires Conserved(s)
    ensures Conserved(Play(s, inputs)) && s.ledger <= Play(s, inputs).ledger
    decreases |inputs|
  {
    if inputs != [] {
      CommitConserves(s, inputs[0]);
      PlayConserves(Commit(s, inputs[0]).0, inputs[1..]);
    }
  }

  lemma {:induction false} LedgerLimits(s: State, inputs: seq<Input>, limit: nat)
    requires Conserved(s) && forall i :: 0 <= i < |s.ledger| ==> s.ledger[i].limit == limit
    requires forall i :: 0 <= i < |inputs| ==> inputs[i].dailyLimit == limit
    ensures forall i :: 0 <= i < |Play(s, inputs).ledger| ==> Play(s, inputs).ledger[i].limit == limit
    decreases |inputs|
  {
    hide Commit, Conserved;
    if inputs != [] {
      CommitConserves(s, inputs[0]);
      LedgerLimits(Commit(s, inputs[0]).0, inputs[1..], limit);
    }
  }

  lemma {:induction false} CappedSum(ledger: seq<Entry>, key: SpendKey, limit: nat)
    requires Held(ledger) && forall i :: 0 <= i < |ledger| ==> ledger[i].limit == limit
    ensures Sum(ledger, key) <= limit
  {
    if ledger != [] {
      CappedSum(ledger[..|ledger| - 1], key, limit);
    }
  }

  /** From an empty database, whatever is asked in whatever order and however many decisions were issued at once:
      every day's total is the sum of its committed amounts, each decision is in it once, and with one daily limit no
      total ever exceeds it. */
  lemma SpendIsConservedAndCapped(inputs: seq<Input>, limit: nat, key: SpendKey)
    requires forall i :: 0 <= i < |inputs| ==> inputs[i].dailyLimit == limit
    ensures var s := Play(EMPTY, inputs);
            && Spent(s, key) == Sum(s.ledger, key) <= limit
            && (forall i, j :: 0 <= i < j < |s.ledger| ==> s.ledger[i].decisionId != s.ledger[j].decisionId)
            && |s.ledger| == |s.rows|
  {
    PlayConserves(EMPTY, inputs);
    LedgerLimits(EMPTY, inputs, limit);
    CappedSum(Play(EMPTY, inputs).ledger, key, limit);
  }

  /** A consumed decision answers a repetition under its own reference as idempotent exactly until it expires, and
      any other reference or action as a conflict; neither changes anything. */
  lemma RetriesAreIdempotentUntilExpiry(s: State, first: Input, later: seq<Input>, again: Input)
    requires Conserved(s) && Commit(s, first).1 == Consumed
    requires again.consumption.decisionId == first.consumption.decisionId
    ensures var t := Play(Commit(s, first).0, later);
            && Commit(t, again).0 == t
            && (Commit(t, again).1 == Idempotent
                <==> again.consumption.consumedAt < again.consumption.expiresAt
                     && SameConsumption(first.consumption, again.consumption))
            && Commit(t, again).1 in {Idempotent, NonceConflict, Expired}
  {
    CommitConserves(s, first);
    RowsPersist(Commit(s, first).0, later, first.consumption.decisionId);
  }

  /** The same call again, from the empty store: idempotent to the last millisecond, refused from expiry on. */
  lemma LateRetriesAreRefused(first: Input, late: int)
    requires first.amount <= first.dailyLimit && first.consumption.consumedAt < first.consumption.expiresAt
    ensures var (s, status) := Commit(EMPTY, first);
            var again := first.(consumption := first.consumption.(consumedAt := late));
            && status == Consumed
            && Commit(s, again) == (s, if late < first.consumption.expiresAt then Idempotent else Expired)
  {
    assert !NonceTaken(EMPTY.rows, first.consumption.nonce);
  }

  lemma {:induction false} RowsPersist(s: State, inputs: seq<Input>, id: string)
    requires id in s.rows
    ensures id in Play(s, inputs).rows && Play(s, inputs).rows[id] == s.rows[id]
    decreases |inputs|
  {
    if inputs != [] {
      RowsPersist(Commit(s, inputs[0]).0, inputs[1..], id);
    }
  }

  // ---- through the local provider ---------------------------------------------------------------------

  datatype Ask = Ask(decisionId: string, actionHash: Digest, executionRef: string, now: int)

  /** An issued decision as the store keeps it, with its amount in units. */
  datatype Issued = Issued(body: Body, units: nat)

  function InputOf(d: Issued, a: Ask, dayOf: int -> string, limit: nat): Input {
    Input(Consumption(d.body.decisionId, d.body.nonce, d.body.actionHash, a.executionRef, d.body.expiresAt, a.now),
          SpendKey(d.body.principalId, dayOf(a.now)), d.units, limit)
  }

  /** The local provider over the atomic store: the checks on the issued decision come first. */
  function Consume(s: State, issued: map<string, Issued>, dayOf: int -> string, limit: nat, a: Ask): (State, Status) {
    if a.decisionId !in issued || issued[a.decisionId].body.verdict != Allow then (s, NotAllow)
    else
      var d := issued[a.decisionId];
      if d.body.actionHash != a.actionHash then (s, HashMismatch)
      else if a.now >= d.body.expiresAt then (s, Expired)
      else Commit(s, InputOf(d, a, dayOf, limit))
  }

  /** The provider refuses, in this order, what was not issued as an ALLOW, what is asked under another action's hash,
      and what has expired; anything else is one transaction under the decision's own nonce, hash, amount and day. */
  lemma ConsumeAnswersExactly(s: State, issued: map<string, Issued>, dayOf: int -> string, limit: nat, a: Ask)
    ensures var (t, status) := Consume(s, issued, dayOf, limit, a);
            var allowed := a.decisionId in issued && issued[a.decisionId].body.verdict == Allow;
            var fits := allowed && issued[a.decisionId].body.actionHash == a.actionHash;
            && (status == NotAllow <==> !allowed)
            && (status == HashMismatch <==> allowed && !fits)
            && (fits && a.now >= issued[a.decisionId].body.expiresAt ==> status == Expired && t == s)
            && (fits && a.now < issued[a.decisionId].body.expiresAt ==>
                  var b := issued[a.decisionId].body;
                  (t, status) == Commit(s, Input(Consumption(b.decisionId, b.nonce, a.actionHash, a.executionRef,
                                                             b.expiresAt, a.now),
                                                 SpendKey(b.principalId, dayOf(a.now)), issued[a.decisionId].units, limit)))
            && (!fits ==> t == s)
  {
    hide Spent, NonceTaken, SameConsumption;
  }

  function Serve(s: State, issued: map<string, Issued>, dayOf: int -> string, limit: nat, asks: seq<Ask>): State
    decreases |asks|
  {
    if asks == [] then s else Serve(Consume(s, issued, dayOf, limit, asks[0]).0, issued, dayOf, limit, asks[1..])
  }

  /** The entry is of an issued ALLOW, for that decision's amount, principal and day, before its expiry. */
  predicate Faithful(e: Entry, issued: map<string, Issued>, dayOf: int -> string) {
    && e.decisionId in issued
    && issued[e.decisionId].body.verdict == Allow
    && e.amount == issued[e.decisionId].units
    && e.key == SpendKey(issued[e.decisionId].body.principalId, dayOf(e.at))
    && e.at < issued[e.decisionId].body.expiresAt
  }

  ghost predicate Serving(s: State, issued: map<string, Issued>, dayOf: int -> string, limit: nat) {
    && Conserved(s)
    && forall i :: 0 <= i < |s.ledger| ==> s.ledger[i].limit == limit && Faithful(s.ledger[i], issued, dayOf)
  }

  lemma ConsumeServes(s: State, issued: map<string, Issued>, dayOf: int -> string, limit: nat, a: Ask)
    requires Serving(s, issued, dayOf, limit)
    requires forall id :: id in issued ==> issued[id].body.decisionId == id
    ensures Serving(Consume(s, issued, dayOf, limit, a).0, issued, dayOf, limit)
  {
    hide Commit, Conserved;
    if a.decisionId in issued {
      CommitConserves(s, InputOf(issued[a.decisionId], a, dayOf, limit));
    }
  }

  lemma {:induction false} ServeConserves(s: State, issued: map<string, Issued>, dayOf: int -> string, limit: nat,
                                          asks: seq<Ask>)
    requires Serving(s, issued, dayOf, limit)
    requires forall id :: id in issued ==> issued[id].body.decisionId == id
    ensures Serving(Serve(s, issued, dayOf, limit, asks), issued, dayOf, limit)
    decreases |asks|
  {
    hide Serving, Consume;
    if asks != [] {
      ConsumeServes(s, issued, dayOf, limit, asks[0]);
      ServeConserves(Consume(s, issued, dayOf, limit, asks[0]).0, issued, dayOf, limit, asks[1..]);
    }
  }

  /** However consumptions arrive at the provider, what a principal spends on a day is the sum of the amounts of the
      distinct ALLOW decisions consumed that day, and stays within the policy's daily limit. */
  lemma ProviderSpendIsConservedAndCapped(issued: map<string, Issued>, dayOf: int -> string, limit: nat, asks: seq<Ask>,
                                          key: SpendKey)
    requires forall id :: id in issued ==> issued[id].body.decisionId == id
    ensures var s := Serve(EMPTY, issued, dayOf, limit, asks);
            && Spent(s, key) == Sum(s.ledger, key) <= limit
            && (forall i :: 0 <= i < |s.ledger| ==> Faithful(s.ledger[i], issued, dayOf))
            && (forall i, j :: 0 <= i < j < |s.ledger| ==> s.ledger[i].decisionId != s.ledger[j].decisionId)
  {
    ServeConserves(EMPTY, issued, dayOf, limit, asks);
    CappedSum(Serve(EMPTY, issued, dayOf, limit, asks).ledger, key, limit);
  }
}
