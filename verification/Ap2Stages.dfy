/** The bridge's side of a report: which stages are reached, and the expiry bounds it collects
    (packages/pulse-conformance-evaluator/python/verify_ap2_structured.py). */
module Ap2Stages {
  import opened Prelude
  import opened Evaluator

  datatype Claim = Absent | NotNumeric | Numeric(value: real)
  datatype Payload = Payload(iat: Claim, nbf: Claim, exp: Claim)

  /** What each authentication step finds; an absent payload is a step that raised. */
  datatype Request = Request(root: Option<Payload>, openClaims: Option<Payload>, hasHolderKey: bool,
                             leaf: Option<Payload>, closedClaims: Option<Payload>, bindingHolds: bool,
                             receiptHolds: bool, now: nat, skew: nat)

  datatype Status = Good | Bad | Skipped

  datatype Report = Report(open: Status, closed: Status, keyBinding: Status, time: Time, receipt: Status)

  predicate NotLater(claim: Claim, limit: nat) {
    match claim
    case Absent => true
    case NotNumeric => false
    case Numeric(v) => v <= limit as real
  }

  predicate NotExpired(claim: Claim, now: nat, skew: nat) {
    match claim
    case Absent => true
    case NotNumeric => false
    case Numeric(v) => now as real < v + skew as real
  }

  predicate Timely(p: Payload, now: nat, skew: nat) {
    NotLater(p.iat, now + skew) && NotLater(p.nbf, now + skew) && NotExpired(p.exp, now, skew)
  }

  /** The payloads that were authenticated, in order. */
  function Authenticated(q: Request): seq<(Source, Payload)> {
    if q.root.None? then []
    else if q.openClaims.None? then [(RootJwt, q.root.value)]
    else
      var root := [(RootJwt, q.root.value), (OpenMandate, q.openClaims.value)];
      if !q.hasHolderKey || q.leaf.None? then root
      else if q.closedClaims.None? then root + [(ClosedJwt, q.leaf.value)]
      else root + [(ClosedJwt, q.leaf.value), (ClosedMandate, q.closedClaims.value)]
  }

  function BoundsOf(payloads: seq<(Source, Payload)>): seq<Bound>
    decreases |payloads|
  {
    if payloads == [] then []
    else
      var n := |payloads| - 1;
      var (source, p) := payloads[n];
      BoundsOf(payloads[..n]) + if p.exp.Numeric? then [Bound(source, p.exp.value)] else []
  }

  predicate AllTimely(payloads: seq<(Source, Payload)>, now: nat, skew: nat) {
    forall i :: 0 <= i < |payloads| ==> Timely(payloads[i].1, now, skew)
  }

  /** What a report says of time: every numeric expiry of what was authenticated, the earliest of them, and whether all
      of it is timely. */
  predicate HonestTime(q: Request, time: Time) {
    && time.bounds == BoundsOf(Authenticated(q))
    && time.effective == (if time.bounds == [] then None else Some(Least(time.bounds)))
    && (time.stage.Invalid? <==> !AllTimely(Authenticated(q), q.now, q.skew))
    && (time.stage.Verified? <==> AllTimely(Authenticated(q), q.now, q.skew) && |Authenticated(q)| == 4)
  }

  /** The stages in the order of the source; each is reported fail closed. */
  method VerifyRequest(q: Request) returns (r: Report)
    ensures r.open == Good <==> q.root.Some? && q.openClaims.Some? && q.hasHolderKey
    ensures r.open != Skipped
    ensures r.closed == Skipped <==> r.open != Good
    ensures r.closed == Good <==> r.open == Good && q.leaf.Some? && q.closedClaims.Some?
    ensures r.keyBinding == Skipped <==> r.closed != Good
    ensures r.keyBinding == Good <==> r.closed == Good && q.bindingHolds
    ensures r.receipt == Good <==> q.receiptHolds
    ensures HonestTime(q, r.time)
  {
    var open, closed, keyBinding := Bad, Skipped, Skipped;
    var payloads: seq<(Source, Payload)> := [];
    if q.root.Some? {
      payloads := payloads + [(RootJwt, q.root.value)];
      if q.openClaims.Some? {
        payloads := payloads + [(OpenMandate, q.openClaims.value)];
        if q.hasHolderKey {
          open := Good;
        }
      }
    }
    if open == Good {
      closed := Bad;
      if q.leaf.Some? {
        payloads := payloads + [(ClosedJwt, q.leaf.value)];
        if q.closedClaims.Some? {
          payloads := payloads + [(ClosedMandate, q.closedClaims.value)];
          closed := Good;
          keyBinding := if q.bindingHolds then Good else Bad;
        }
      }
    }
    assert payloads == Authenticated(q);
    var bounds, invalidTime := CollectBounds(payloads, q.now, q.skew);
    hide BoundsOf, AllTimely;
    var stage := if invalidTime then Invalid else if |payloads| == 4 then Verified(()) else NotEvaluated;
    var effective := if bounds == [] then None else Some(Least(bounds));
    r := Report(open, closed, keyBinding, Time(stage, bounds, effective), if q.receiptHolds then Good else Bad);
  }

  method CollectBounds(payloads: seq<(Source, Payload)>, now: nat, skew: nat)
    returns (bounds: seq<Bound>, invalidTime: bool)
    ensures bounds == BoundsOf(payloads) && (invalidTime <==> !AllTimely(payloads, now, skew))
  {
    bounds, invalidTime := [], false;
    for i := 0 to |payloads|
      invariant bounds == BoundsOf(payloads[..i])
      invariant invalidTime <==> !AllTimely(payloads[..i], now, skew)
    {
      var (source, p) := payloads[i];
      var after := payloads[..i + 1];
      assert after[..i] == payloads[..i] && after[i] == payloads[i];
      hide Timely;
      assert AllTimely(after, now, skew) <==> AllTimely(payloads[..i], now, skew) && Timely(p, now, skew) by {
        assert forall j :: 0 <= j < i ==> after[j] == payloads[..i][j];
      }
      if !Timely(p, now, skew) {
        invalidTime := true;
      }
      if p.exp.Numeric? {
        bounds := bounds + [Bound(source, p.exp.value)];
      }
    }
    assert payloads[..|payloads|] == payloads;
  }

  predicate From(b: Bound, payloads: seq<(Source, Payload)>) {
    exists k :: 0 <= k < |payloads| && payloads[k].1.exp.Numeric? && b == Bound(payloads[k].0, payloads[k].1.exp.value)
  }

  lemma {:induction false} BoundsHaveSources(payloads: seq<(Source, Payload)>)
    ensures forall i :: 0 <= i < |BoundsOf(payloads)| ==> From(BoundsOf(payloads)[i], payloads)
    ensures forall k :: 0 <= k < |payloads| && payloads[k].1.exp.Numeric? ==> HasSource(BoundsOf(payloads), payloads[k].0)
    decreases |payloads|
  {
    if payloads != [] {
      var n := |payloads| - 1;
      var init := payloads[..n];
      BoundsHaveSources(init);
      var shorter, all := BoundsOf(init), BoundsOf(payloads);
      forall i | 0 <= i < |all| ensures From(all[i], payloads) {
        if i < |shorter| {
          assert From(shorter[i], init);
          var k :| 0 <= k < |init| && init[k].1.exp.Numeric? && shorter[i] == Bound(init[k].0, init[k].1.exp.value);
          assert payloads[k] == init[k] && all[i] == shorter[i];
        } else {
          assert all[i] == Bound(payloads[n].0, payloads[n].1.exp.value);
        }
      }
      forall k | 0 <= k < |payloads| && payloads[k].1.exp.Numeric? ensures HasSource(all, payloads[k].0) {
        if k < n {
          assert init[k] == payloads[k];
          var i :| 0 <= i < |shorter| && shorter[i].source == payloads[k].0;
          assert all[i] == shorter[i];
        } else {
          assert all[|shorter|].source == payloads[n].0;
        }
      }
    }
  }

  lemma {:induction false} BoundsAreDistinct(payloads: seq<(Source, Payload)>)
    requires forall i, j :: 0 <= i < j < |payloads| ==> payloads[i].0 != payloads[j].0
    ensures DistinctSources(BoundsOf(payloads))
    decreases |payloads|
  {
    if payloads != [] {
      var n := |payloads| - 1;
      BoundsAreDistinct(payloads[..n]);
      BoundsHaveSources(payloads[..n]);
    }
  }

  /** An honest report fails the evaluator's consistency check exactly when time was verified although a mandate
      carries no expiry. */
  lemma ConsistentExactlyWhen(q: Request, time: Time)
    requires HonestTime(q, time)
    ensures TimeConsistent(time)
       <==> (time.stage.Verified? ==> q.openClaims.value.exp.Numeric? && q.closedClaims.value.exp.Numeric?)
  {
    var payloads := Authenticated(q);
    BoundsAreDistinct(payloads);
    BoundsHaveSources(payloads);
    hide BoundsOf;
    if time.stage.Verified? {
      assert payloads[1] == (OpenMandate, q.openClaims.value) && payloads[3] == (ClosedMandate, q.closedClaims.value);
      Sourced(payloads, 1);
      Sourced(payloads, 3);
    }
  }

  lemma Sourced(payloads: seq<(Source, Payload)>, k: nat)
    requires k < |payloads| && forall i, j :: 0 <= i < j < |payloads| ==> payloads[i].0 != payloads[j].0
    ensures HasSource(BoundsOf(payloads), payloads[k].0) <==> payloads[k].1.exp.Numeric?
  {
    BoundsHaveSources(payloads);
    if HasSource(BoundsOf(payloads), payloads[k].0) {
      var i :| 0 <= i < |BoundsOf(payloads)| && BoundsOf(payloads)[i].source == payloads[k].0;
      assert From(BoundsOf(payloads)[i], payloads);
      var m :| 0 <= m < |payloads| && payloads[m].1.exp.Numeric?
               && BoundsOf(payloads)[i] == Bound(payloads[m].0, payloads[m].1.exp.value);
      assert m == k;
    }
  }

  const ENDING := Payload.Payload(Absent, Absent, Numeric(100.0))

  /** Everything authenticates and is timely; the open mandate names no expiry. */
  const UNENDING := Request(Some(ENDING), Some(Payload.Payload(Absent, Absent, Absent)), true, Some(ENDING),
                            Some(ENDING), true, true, 0, 60)

  /** Nothing is wrong with this request, and the evaluator's consistency check refuses its honest report. */
  lemma UnendingMandateIsRefused(time: Time)
    requires HonestTime(UNENDING, time)
    ensures AllTimely(Authenticated(UNENDING), UNENDING.now, UNENDING.skew) && time.stage.Verified?
    ensures !TimeConsistent(time)
  {
    ConsistentExactlyWhen(UNENDING, time);
  }
}
