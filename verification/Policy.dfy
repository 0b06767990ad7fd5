/** Policy evaluation: ordered rules, their declarative meaning, and time windows
    (packages/policy-engine/src/evaluate.ts). Amounts are units of 10^-18. */
module Policy {
  import opened Prelude
  import Amounts
  import opened Decisions

  datatype Weekday = Monday | Tuesday | Wednesday | Thursday | Friday | Saturday | Sunday

  datatype Merchant = Merchant(payees: seq<string>, purposes: seq<string>, resources: seq<string>, limit: nat)

  datatype Deny = Deny(networks: seq<string>, assets: seq<string>, payees: seq<string>, purposes: seq<string>,
                       resources: seq<string>)

  datatype RailPolicy = RailPolicy(networks: seq<string>, assets: seq<string>)

  datatype Rules = Rules(expiresAt: Option<int>, deny: Option<Deny>, rails: map<Rail, RailPolicy>,
                         perTransaction: nat, daily: nat, humanAbove: nat, merchants: seq<Merchant>,
                         weekdays: seq<Weekday>, start: string, end: string)

  /** What the rules read of an action. */
  datatype Request = Request(rail: Rail, network: string, asset: string, payee: string, purpose: string,
                             resource: string, amount: nat)

  /** The instant, and its weekday and time of day in the policy's time zone. */
  datatype Moment = Moment(now: int, weekday: Weekday, time: string)

  datatype Evaluation = Evaluation(verdict: Verdict, codes: seq<Reason>)

  // ----- time windows

  /** The host's string order. */
  predicate AtMost(a: string, b: string)
    decreases |a|
  {
    a == "" || (b != "" && (a[0] < b[0] || (a[0] == b[0] && AtMost(a[1..], b[1..]))))
  }

  predicate WithinTimeWindow(time: string, start: string, end: string) {
    if AtMost(start, end) then AtMost(start, time) && AtMost(time, end)
    else AtMost(start, time) || AtMost(time, end)
  }

  /** A 24-hour clock time, "HH:MM". */
  predicate IsTime(s: string) {
    && |s| == 5 && s[2] == ':'
    && '0' <= s[0] <= '2' && '0' <= s[1] <= '9' && (s[0] == '2' ==> s[1] <= '3')
    && '0' <= s[3] <= '5' && '0' <= s[4] <= '9'
  }

  function Digit(c: char): int { c as int - '0' as int }

  function Minutes(s: string): (m: int)
    requires IsTime(s)
    ensures 0 <= m < 1440
  {
    600 * Digit(s[0]) + 60 * Digit(s[1]) + 10 * Digit(s[3]) + Digit(s[4])
  }

  lemma StringOrderIsTimeOrder(a: string, b: string)
    requires IsTime(a) && IsTime(b)
    ensures AtMost(a, b) <==> Minutes(a) <= Minutes(b)
  {
    var a1, a2, a3, a4 := a[1..], a[1..][1..], a[1..][1..][1..], a[1..][1..][1..][1..];
    var b1, b2, b3, b4 := b[1..], b[1..][1..], b[1..][1..][1..], b[1..][1..][1..][1..];
    assert a1[0] == a[1] && a2[0] == a[2] && a3[0] == a[3] && a4[0] == a[4] && a4[1..] == "";
    assert b1[0] == b[1] && b2[0] == b[2] && b3[0] == b[3] && b4[0] == b[4];
    assert AtMost(a4, b4) <==> a[4] <= b[4];
    assert AtMost(a3, b3) <==> a[3] < b[3] || (a[3] == b[3] && AtMost(a4, b4));
    assert AtMost(a2, b2) <==> AtMost(a3, b3);
    assert AtMost(a1, b1) <==> a[1] < b[1] || (a[1] == b[1] && AtMost(a2, b2));
  }

  /** The window is the closed arc of the clock from its start to its end, over midnight or not. */
  lemma WindowIsCircular(time: string, start: string, end: string)
    requires IsTime(time) && IsTime(start) && IsTime(end)
    ensures WithinTimeWindow(time, start, end)
       <==> (Minutes(time) - Minutes(start)) % 1440 <= (Minutes(end) - Minutes(start)) % 1440
  {
    StringOrderIsTimeOrder(start, end);
    StringOrderIsTimeOrder(start, time);
    StringOrderIsTimeOrder(time, end);
    hide Minutes, AtMost;
    ArcOf(Minutes(time), Minutes(start), Minutes(end));
  }

  lemma ArcOf(t: int, s: int, e: int)
    requires 0 <= t < 1440 && 0 <= s < 1440 && 0 <= e < 1440
    ensures (t - s) % 1440 <= (e - s) % 1440 <==> if s <= e then s <= t <= e else s <= t || t <= e
  {
    assert (t - s) % 1440 == if s <= t then t - s else t - s + 1440;
    assert (e - s) % 1440 == if s <= e then e - s else e - s + 1440;
  }

  // ----- the rules, in the order of the source

  function Blocked(code: Reason): Evaluation { Evaluation(Block, [code]) }

  function DeniedByExplicitRule(request: Request, deny: Option<Deny>): Option<Reason> {
    match deny
    case None => None
    case Some(d) =>
      if request.network in d.networks then Some(NetworkNotAllowed)
      else if request.asset in d.assets then Some(AssetNotAllowed)
      else if request.payee in d.payees then Some(PayeeNotAllowed)
      else if request.resource in d.resources then Some(ResourceNotAllowed)
      else if request.purpose in d.purposes then Some(PurposeNotAllowed)
      else None
  }

  function Filter(merchants: seq<Merchant>, keep: Merchant -> bool): (kept: seq<Merchant>)
    decreases |merchants|
  {
    if merchants == [] then []
    else (if keep(merchants[0]) then [merchants[0]] else []) + Filter(merchants[1..], keep)
  }

  function Find(merchants: seq<Merchant>, wanted: Merchant -> bool): Option<Merchant>
    decreases |merchants|
  {
    if merchants == [] then None
    else if wanted(merchants[0]) then Some(merchants[0])
    else Find(merchants[1..], wanted)
  }

  function Min(a: nat, b: nat): nat { if a < b then a else b }

  function EvaluatePolicy(rules: Rules, request: Request, moment: Moment, spent: nat): Evaluation {
    if rules.expiresAt.Some? && moment.now >= rules.expiresAt.value then Blocked(PolicyExpired)
    else if DeniedByExplicitRule(request, rules.deny).Some? then Blocked(DeniedByExplicitRule(request, rules.deny).value)
    else if request.rail !in rules.rails then Blocked(DefaultDeny)
    else if request.network !in rules.rails[request.rail].networks then Blocked(NetworkNotAllowed)
    else if request.asset !in rules.rails[request.rail].assets then Blocked(AssetNotAllowed)
    else
      var payeeMerchants := Filter(rules.merchants, (m: Merchant) => request.payee in m.payees);
      if payeeMerchants == [] then Blocked(PayeeNotAllowed)
      else
        var resourceMerchants := Filter(payeeMerchants, (m: Merchant) => request.resource in m.resources);
        if resourceMerchants == [] then Blocked(ResourceNotAllowed)
        else match Find(resourceMerchants, (m: Merchant) => request.purpose in m.purposes)
          case None => Blocked(PurposeNotAllowed)
          case Some(merchant) =>
            if request.amount > Min(rules.perTransaction, merchant.limit) then Blocked(AmountExceedsTransactionLimit)
            else if Amounts.Round20(spent + request.amount) > rules.daily then Blocked(DailyLimitExceeded)
            else if moment.weekday !in rules.weekdays || !WithinTimeWindow(moment.time, rules.start, rules.end)
              then Blocked(OutsideAllowedTime)
            else
              var positive := [MerchantAllowed, WithinTransactionLimit, WithinDailyLimit];
              if request.amount > rules.humanAbove
              then Evaluation(RequireApproval, positive + [HumanApprovalRequired])
              else Evaluation(Allow, positive)
  }

  // ----- what they mean together

  predicate Serves(m: Merchant, request: Request) {
    request.payee in m.payees && request.resource in m.resources && request.purpose in m.purposes
  }

  /** The first merchant that serves the request sets its limit. */
  predicate ServedWithin(merchants: seq<Merchant>, request: Request) {
    exists i :: && 0 <= i < |merchants| && Serves(merchants[i], request)
                && (forall j :: 0 <= j < i ==> !Serves(merchants[j], request))
                && request.amount <= merchants[i].limit
  }

  predicate NotDenied(request: Request, d: Deny) {
    && request.network !in d.networks && request.asset !in d.assets && request.payee !in d.payees
    && request.resource !in d.resources && request.purpose !in d.purposes
  }

  predicate Permitted(rules: Rules, request: Request, moment: Moment, spent: nat) {
    && (rules.expiresAt.Some? ==> moment.now < rules.expiresAt.value)
    && (rules.deny.Some? ==> NotDenied(request, rules.deny.value))
    && request.rail in rules.rails
    && request.network in rules.rails[request.rail].networks && request.asset in rules.rails[request.rail].assets
    && ServedWithin(rules.merchants, request) && request.amount <= rules.perTransaction
    && Amounts.Round20(spent + request.amount) <= rules.daily
    && moment.weekday in rules.weekdays && WithinTimeWindow(moment.time, rules.start, rules.end)
  }

  function Chosen(merchants: seq<Merchant>, request: Request): Option<Merchant> {
    Find(Filter(Filter(merchants, (m: Merchant) => request.payee in m.payees),
                (m: Merchant) => request.resource in m.resources),
         (m: Merchant) => request.purpose in m.purposes)
  }

  lemma {:induction false} FilterSplits(merchants: seq<Merchant>, keep: Merchant -> bool)
    requires merchants != []
    ensures Filter(merchants, keep) == (if keep(merchants[0]) then [merchants[0]] else []) + Filter(merchants[1..], keep)
    ensures keep(merchants[0]) ==> Filter(merchants, keep)[1..] == Filter(merchants[1..], keep)
    ensures !keep(merchants[0]) ==> Filter(merchants, keep) == Filter(merchants[1..], keep)
  {
  }

  /** Filtering by payee, then by resource, then searching by purpose finds the first merchant that serves. */
  lemma {:induction false} ChosenIsFirst(merchants: seq<Merchant>, request: Request)
    ensures Chosen(merchants, request).Some? <==> exists i :: 0 <= i < |merchants| && Serves(merchants[i], request)
    ensures Chosen(merchants, request).Some? ==>
              exists i :: && 0 <= i < |merchants| && merchants[i] == Chosen(merchants, request).value
                          && Serves(merchants[i], request) && forall j :: 0 <= j < i ==> !Serves(merchants[j], request)
    decreases |merchants|
  {
    if merchants != [] {
      var m, rest := merchants[0], merchants[1..];
      ChosenSteps(merchants, request);
      ChosenIsFirst(rest, request);
      hide Filter, Find, Chosen;
      assert forall j :: 0 < j < |merchants| ==> merchants[j] == rest[j - 1];
      if Serves(m, request) {
        assert merchants[0] == Chosen(merchants, request).value;
      } else if Chosen(rest, request).Some? {
        var i :| && 0 <= i < |rest| && rest[i] == Chosen(rest, request).value
                 && Serves(rest[i], request) && forall j :: 0 <= j < i ==> !Serves(rest[j], request);
        assert merchants[i + 1] == rest[i];
        forall j | 0 <= j < i + 1 ensures !Serves(merchants[j], request) {
          if j > 0 { assert merchants[j] == rest[j - 1]; }
        }
      }
    }
  }

  lemma {:induction false} ChosenSteps(merchants: seq<Merchant>, request: Request)
    requires merchants != []
    ensures Chosen(merchants, request)
         == if Serves(merchants[0], request) then Some(merchants[0]) else Chosen(merchants[1..], request)
  {
    var m, rest := merchants[0], merchants[1..];
    var byPayee := (m: Merchant) => request.payee in m.payees;
    var byResource := (m: Merchant) => request.resource in m.resources;
    var byPurpose := (m: Merchant) => request.purpose in m.purposes;
    var a, b := Filter(merchants, byPayee), Filter(rest, byPayee);
    FilterSplits(merchants, byPayee);
    if byPayee(m) {
      assert a[0] == m && a[1..] == b;
      FilterSplits(a, byResource);
      if byResource(m) {
        var c := Filter(a, byResource);
        assert c[0] == m && c[1..] == Filter(b, byResource);
      }
    }
  }

  lemma ServedWithinIsChosen(merchants: seq<Merchant>, request: Request)
    ensures ServedWithin(merchants, request)
       <==> Chosen(merchants, request).Some? && request.amount <= Chosen(merchants, request).value.limit
  {
    ChosenIsFirst(merchants, request);
    hide Chosen;
    if ServedWithin(merchants, request) {
      var i :| && 0 <= i < |merchants| && Serves(merchants[i], request)
               && (forall j :: 0 <= j < i ==> !Serves(merchants[j], request)) && request.amount <= merchants[i].limit;
      var k :| && 0 <= k < |merchants| && merchants[k] == Chosen(merchants, request).value
               && Serves(merchants[k], request) && forall j :: 0 <= j < k ==> !Serves(merchants[j], request);
      assert i == k;
    }
  }

  lemma NothingChosen(merchants: seq<Merchant>, request: Request)
    requires Filter(merchants, (m: Merchant) => request.payee in m.payees) == []
          || Filter(Filter(merchants, (m: Merchant) => request.payee in m.payees),
                    (m: Merchant) => request.resource in m.resources) == []
    ensures Chosen(merchants, request).None?
  {
  }

  /** A request is not blocked exactly when every rule lets it pass, and then an approval is asked for exactly above
      the threshold. */
  lemma NotBlockedExactlyWhen(rules: Rules, request: Request, moment: Moment, spent: nat)
    ensures var verdict := EvaluatePolicy(rules, request, moment, spent).verdict;
            && (verdict != Block <==> Permitted(rules, request, moment, spent))
            && (verdict == RequireApproval <==>
                  Permitted(rules, request, moment, spent) && request.amount > rules.humanAbove)
  {
    ServedWithinIsChosen(rules.merchants, request);
    hide WithinTimeWindow, Amounts.Round20, ServedWithin;
    var a := Filter(rules.merchants, (m: Merchant) => request.payee in m.payees);
    if a == [] || Filter(a, (m: Merchant) => request.resource in m.resources) == [] {
      NothingChosen(rules.merchants, request);
    }
    hide Filter, Find;
  }

  function Rank(v: Verdict): nat {
    match v
    case Allow => 0
    case RequireApproval => 1
    case Block => 2
  }

  /** A smaller amount on top of smaller spending never fares worse. */
  lemma VerdictIsMonotone(rules: Rules, request: Request, moment: Moment, amount: nat, spent: nat, more: nat)
    requires amount <= request.amount && spent <= more
    ensures Rank(EvaluatePolicy(rules, request.(amount := amount), moment, spent).verdict)
         <= Rank(EvaluatePolicy(rules, request, moment, more).verdict)
  {
    var smaller := request.(amount := amount);
    NotBlockedExactlyWhen(rules, smaller, moment, spent);
    NotBlockedExactlyWhen(rules, request, moment, more);
    hide EvaluatePolicy, WithinTimeWindow;
    Amounts.RoundIsMonotone(spent + amount, more + request.amount);
    hide Amounts.Round20;
    if ServedWithin(rules.merchants, request) {
      var i :| && 0 <= i < |rules.merchants| && Serves(rules.merchants[i], request)
               && (forall j :: 0 <= j < i ==> !Serves(rules.merchants[j], request))
               && request.amount <= rules.merchants[i].limit;
      assert Serves(rules.merchants[i], smaller);
      assert forall j :: 0 <= j < i ==> Serves(rules.merchants[j], smaller) == Serves(rules.merchants[j], request);
      assert ServedWithin(rules.merchants, smaller);
    }
  }

  // ----- precedence

  /** The rules as a list: what must hold, and the code when it is the first that does not. */
  function Checks(rules: Rules, request: Request, moment: Moment, spent: nat): seq<(bool, Reason)> {
    var d := if rules.deny.Some? then rules.deny.value else Deny([], [], [], [], []);
    var rail := if request.rail in rules.rails then rules.rails[request.rail] else RailPolicy([], []);
    var chosen := Chosen(rules.merchants, request);
    [ (rules.expiresAt.Some? ==> moment.now < rules.expiresAt.value, PolicyExpired),
      (request.network !in d.networks, NetworkNotAllowed),
      (request.asset !in d.assets, AssetNotAllowed),
      (request.payee !in d.payees, PayeeNotAllowed),
      (request.resource !in d.resources, ResourceNotAllowed),
      (request.purpose !in d.purposes, PurposeNotAllowed),
      (request.rail in rules.rails, DefaultDeny),
      (request.network in rail.networks, NetworkNotAllowed),
      (request.asset in rail.assets, AssetNotAllowed),
      (exists m :: m in rules.merchants && request.payee in m.payees, PayeeNotAllowed),
      (exists m :: m in rules.merchants && request.payee in m.payees && request.resource in m.resources,
       ResourceNotAllowed),
      (exists m :: m in rules.merchants && Serves(m, request), PurposeNotAllowed),
      (chosen.Some? ==> request.amount <= rules.perTransaction && request.amount <= chosen.value.limit,
       AmountExceedsTransactionLimit),
      (Amounts.Round20(spent + request.amount) <= rules.daily, DailyLimitExceeded),
      (moment.weekday in rules.weekdays && WithinTimeWindow(moment.time, rules.start, rules.end), OutsideAllowedTime)
    ]
  }

  lemma {:induction false} FilterKeeps(merchants: seq<Merchant>, keep: Merchant -> bool)
    ensures forall m :: m in Filter(merchants, keep) <==> m in merchants && keep(m)
    decreases |merchants|
  {
    if merchants != [] {
      FilterKeeps(merchants[1..], keep);
      assert merchants == [merchants[0]] + merchants[1..];
    }
  }

  lemma {:induction false} FindFinds(merchants: seq<Merchant>, wanted: Merchant -> bool)
    ensures Find(merchants, wanted).Some? <==> exists m :: m in merchants && wanted(m)
    decreases |merchants|
  {
    if merchants != [] {
      FindFinds(merchants[1..], wanted);
      assert merchants == [merchants[0]] + merchants[1..];
    }
  }

  lemma MerchantSteps(rules: Rules, request: Request)
    ensures var a := Filter(rules.merchants, (m: Merchant) => request.payee in m.payees);
            var b := Filter(a, (m: Merchant) => request.resource in m.resources);
            && (a != [] <==> exists m :: m in rules.merchants && request.payee in m.payees)
            && (b != [] <==> exists m :: m in rules.merchants && request.payee in m.payees && request.resource in m.resources)
            && (Chosen(rules.merchants, request).Some? <==> exists m :: m in rules.merchants && Serves(m, request))
  {
    var byPayee := (m: Merchant) => request.payee in m.payees;
    var byResource := (m: Merchant) => request.resource in m.resources;
    var byPurpose := (m: Merchant) => request.purpose in m.purposes;
    var a := Filter(rules.merchants, byPayee);
    var b := Filter(a, byResource);
    FilterKeeps(rules.merchants, byPayee);
    FilterKeeps(a, byResource);
    FindFinds(b, byPurpose);
    hide Filter, Find;
    assert a != [] ==> a[0] in a;
    assert b != [] ==> b[0] in b;
    assert Chosen(rules.merchants, request) == Find(b, byPurpose);
    assert forall m :: m in b <==> m in rules.merchants && request.payee in m.payees && request.resource in m.resources;
    assert forall m :: m in b && byPurpose(m) <==> m in rules.merchants && Serves(m, request);
  }

  /** A blocked request carries the code of the first rule that fails, and only that. */
  lemma BlockedByTheFirstFailure(rules: Rules, request: Request, moment: Moment, spent: nat, i: nat)
    requires var checks := Checks(rules, request, moment, spent);
             i < |checks| && !checks[i].0 && forall j :: 0 <= j < i ==> checks[j].0
    ensures EvaluatePolicy(rules, request, moment, spent) == Blocked(Checks(rules, request, moment, spent)[i].1)
  {
    MerchantSteps(rules, request);
    hide Filter, Find, WithinTimeWindow, Amounts.Round20, Serves;
    var checks := Checks(rules, request, moment, spent);
    assert forall j :: 0 <= j < i ==> checks[j].0;
    assert (i > 0 ==> checks[0].0) && (i > 1 ==> checks[1].0) && (i > 2 ==> checks[2].0) && (i > 3 ==> checks[3].0);
    assert (i > 4 ==> checks[4].0) && (i > 5 ==> checks[5].0) && (i > 6 ==> checks[6].0) && (i > 7 ==> checks[7].0);
    assert (i > 8 ==> checks[8].0) && (i > 9 ==> checks[9].0) && (i > 10 ==> checks[10].0);
    assert (i > 11 ==> checks[11].0) && (i > 12 ==> checks[12].0) && (i > 13 ==> checks[13].0);
  }
}
