/** The older pair of separate stores (packages/policy-engine/src/local-provider.ts): policy reads the recorded spend when
    it evaluates a decision, the nonce store consumes the decision, and a later call records its amount. Nothing rechecks
    the daily limit in between. Sums are rounded to twenty digits, as in the in-memory store.

    `amountOf` gives every decision its amount in units of 10^-18; `permits` is whatever else policy asks of a decision at
    an instant. A crash after a consumption is its `Record` never coming. */
module SplitSpend {
  import opened Prelude
  import opened Amounts

  datatype Config = Config(limit: nat, principalOf: string -> string, dayOf: int -> string, amountOf: string -> nat,
                           permits: (string, int) -> bool)

  /** An evaluated decision: whether it is an ALLOW, the total it was evaluated against, and when. */
  datatype Issue = Issue(allowed: bool, key: SpendKey, at: nat, expiresAt: int)

  datatype Recorded = Recorded(key: SpendKey, at: nat)

  /** `step` counts the calls made, `log` lists the consumed decisions, both as history. */
  datatype State = State(step: nat, issued: map<string, Issue>, consumed: map<string, SpendKey>, log: seq<string>,
                         recorded: map<string, Recorded>, spend: map<SpendKey, nat>)

  datatype Label =
    | Evaluate(decisionId: string, now: int, expiresAt: int)
    | Consume(decisionId: string, now: int)
    | Record(decisionId: string)

  const EMPTY := State(0, map[], map[], [], map[], map[])

  /** Addition as the process does it. */
  function Plus(a: nat, b: nat): nat {
    Round20(a + b)
  }

  function KeyOf(cfg: Config, id: string, now: int): SpendKey {
    SpendKey(cfg.principalOf(id), cfg.dayOf(now))
  }

  function Spent(s: State, key: SpendKey): nat {
    if key in s.spend then s.spend[key] else 0
  }

  function Step(cfg: Config, s: State, l: Label): State {
    match l
    case Evaluate(id, now, expiresAt) =>
      if id in s.issued then Counted(s)
      else
        var key := KeyOf(cfg, id, now);
        var allowed := cfg.permits(id, now) && Plus(Spent(s, key), cfg.amountOf(id)) <= cfg.limit;
        Counted(s).(issued := s.issued[id := Issue(allowed, key, s.step, expiresAt)])
    case Consume(id, now) =>
      if id !in s.issued || !s.issued[id].allowed || now >= s.issued[id].expiresAt || id in s.consumed then Counted(s)
      else Counted(s).(consumed := s.consumed[id := KeyOf(cfg, id, now)], log := s.log + [id])
    case Record(id) =>
      if id !in s.consumed || id in s.recorded then Counted(s)
      else
        var key := s.consumed[id];
        Counted(s).(recorded := s.recorded[id := Recorded(key, s.step)],
                    spend := s.spend[key := Plus(Spent(s, key), cfg.amountOf(id))])
  }

  function Counted(s: State): State {
    s.(step := s.step + 1)
  }

  function Run(cfg: Config, s: State, labels: seq<Label>): State
    decreases |labels|
  {
    if labels == [] then s else Run(cfg, Step(cfg, s, labels[0]), labels[1..])
  }

  // ----- what is recorded and what is owed

  /** The amounts of the listed decisions that were consumed on `key` and are in `counted`. */
  function Total(cfg: Config, log: seq<string>, consumed: map<string, SpendKey>, key: SpendKey, counted: set<string>): nat {
    if log == [] then 0
    else
      var id := log[|log| - 1];
      Total(cfg, log[..|log| - 1], consumed, key, counted)
      + if id in counted && id in consumed && consumed[id] == key then cfg.amountOf(id) else 0
  }

  function Consumed(cfg: Config, s: State, key: SpendKey): nat {
    Total(cfg, s.log, s.consumed, key, s.consumed.Keys)
  }

  /** Consumed, but not recorded: the call is still under way or crashed. */
  function Owed(cfg: Config, s: State, key: SpendKey): nat {
    Total(cfg, s.log, s.consumed, key, s.consumed.Keys - s.recorded.Keys)
  }

  function InRecords(cfg: Config, s: State, key: SpendKey): nat {
    Total(cfg, s.log, s.consumed, key, s.recorded.Keys)
  }

  ghost predicate Books(cfg: Config, s: State) {
    && (forall i, j :: 0 <= i < j < |s.log| ==> s.log[i] != s.log[j])
    && (forall id :: id in s.consumed <==> id in s.log)
    && s.recorded.Keys <= s.consumed.Keys
    && (forall key :: InRecords(cfg, s, key) < TWENTY_DIGITS ==> Spent(s, key) == InRecords(cfg, s, key))
  }

  lemma {:induction false} TotalSplits(cfg: Config, log: seq<string>, consumed: map<string, SpendKey>, key: SpendKey,
                                       a: set<string>, b: set<string>)
    requires a !! b
    ensures Total(cfg, log, consumed, key, a + b)
         == Total(cfg, log, consumed, key, a) + Total(cfg, log, consumed, key, b)
    decreases |log|
  {
    if log != [] { TotalSplits(cfg, log[..|log| - 1], consumed, key, a, b); }
  }

  lemma {:induction false} TotalOfOthers(cfg: Config, log: seq<string>, before: map<string, SpendKey>,
                                         after: map<string, SpendKey>, key: SpendKey, a: set<string>, b: set<string>)
    requires forall id :: id in log ==> (id in before <==> id in after) && (id in a <==> id in b)
    requires forall id :: id in log && id in before ==> before[id] == after[id]
    ensures Total(cfg, log, before, key, a) == Total(cfg, log, after, key, b)
    decreases |log|
  {
    if log != [] {
      assert forall id :: id in log[..|log| - 1] ==> id in log;
      assert log[|log| - 1] in log;
      TotalOfOthers(cfg, log[..|log| - 1], before, after, key, a, b);
    }
  }

  lemma {:induction false} TotalWith(cfg: Config, log: seq<string>, consumed: map<string, SpendKey>, key: SpendKey,
                                     a: set<string>, id: string)
    requires id in log && id in consumed && id !in a && forall i, j :: 0 <= i < j < |log| ==> log[i] != log[j]
    ensures Total(cfg, log, consumed, key, a + {id})
         == Total(cfg, log, consumed, key, a) + if consumed[id] == key then cfg.amountOf(id) else 0
    decreases |log|
  {
    var init := log[..|log| - 1];
    if log[|log| - 1] == id {
      TotalOfOthers(cfg, init, consumed, consumed, key, a, a + {id});
    } else {
      TotalWith(cfg, init, consumed, key, a, id);
    }
  }

  lemma RecordKeepsBooks(cfg: Config, s: State, id: string)
    requires Books(cfg, s) && id in s.consumed && id !in s.recorded
    ensures Books(cfg, Step(cfg, s, Record(id)))
  {
    hide Plus, Total;
    var t := Step(cfg, s, Record(id));
    assert t.recorded.Keys == s.recorded.Keys + {id};
    forall key | InRecords(cfg, t, key) < TWENTY_DIGITS ensures Spent(t, key) == InRecords(cfg, t, key) {
      TotalWith(cfg, s.log, s.consumed, key, s.recorded.Keys, id);
      assert InRecords(cfg, s, key) < TWENTY_DIGITS;
      PlusIsExact(Spent(s, key), cfg.amountOf(id));
    }
  }

  lemma PlusIsExact(a: nat, b: nat)
    ensures a + b < TWENTY_DIGITS ==> Plus(a, b) == a + b
  {
    if a + b < TWENTY_DIGITS { SmallSumsAreExact(a + b); }
  }

  lemma ConsumeKeepsBooks(cfg: Config, s: State, id: string, now: int)
    requires Books(cfg, s) && id !in s.consumed
    ensures var t := s.(step := s.step + 1, consumed := s.consumed[id := KeyOf(cfg, id, now)], log := s.log + [id]);
            Books(cfg, t)
  {
    hide Plus, Total;
    var t := s.(step := s.step + 1, consumed := s.consumed[id := KeyOf(cfg, id, now)], log := s.log + [id]);
    forall key | InRecords(cfg, t, key) < TWENTY_DIGITS ensures Spent(t, key) == InRecords(cfg, t, key) {
      assert InRecords(cfg, t, key) == InRecords(cfg, s, key) by {
        TotalAppend(cfg, s, id, KeyOf(cfg, id, now), key);
      }
      assert Spent(t, key) == Spent(s, key);
    }
  }

  lemma TotalAppend(cfg: Config, s: State, id: string, on: SpendKey, key: SpendKey)
    requires Books(cfg, s) && id !in s.consumed
    ensures Total(cfg, s.log + [id], s.consumed[id := on], key, s.recorded.Keys)
         == Total(cfg, s.log, s.consumed, key, s.recorded.Keys)
  {
    assert (s.log + [id])[..|s.log|] == s.log;
    TotalOfOthers(cfg, s.log, s.consumed, s.consumed[id := on], key, s.recorded.Keys, s.recorded.Keys);
  }

  /** The books do not look at evaluations. */
  lemma BooksCarry(cfg: Config, s: State, t: State)
    requires Books(cfg, s) && t == s.(step := t.step, issued := t.issued)
    ensures Books(cfg, t)
  {
    hide Total;
    forall key | InRecords(cfg, t, key) < TWENTY_DIGITS ensures Spent(t, key) == InRecords(cfg, t, key) {
      assert InRecords(cfg, s, key) == InRecords(cfg, t, key) && Spent(s, key) == Spent(t, key);
    }
  }

  lemma StepKeepsBooks(cfg: Config, s: State, l: Label)
    requires Books(cfg, s)
    ensures Books(cfg, Step(cfg, s, l))
  {
    hide Books, Plus;
    var t := Step(cfg, s, l);
    if l.Record? && l.decisionId in s.consumed && l.decisionId !in s.recorded {
      RecordKeepsBooks(cfg, s, l.decisionId);
    } else if l.Consume? && t.log != s.log {
      ConsumeKeepsBooks(cfg, s, l.decisionId, l.now);
    } else {
      BooksCarry(cfg, s, t);
    }
  }

  lemma {:induction false} RunKeepsBooks(cfg: Config, s: State, labels: seq<Label>)
    requires Books(cfg, s)
    ensures Books(cfg, Run(cfg, s, labels))
    decreases |labels|
  {
    hide Books, Step;
    if labels != [] {
      StepKeepsBooks(cfg, s, labels[0]);
      RunKeepsBooks(cfg, Step(cfg, s, labels[0]), labels[1..]);
    }
  }

  /** In every run each decision is consumed at most once, and what is recorded and what crashes or pending calls still
      owe together make up what was consumed, as long as the sum fits twenty digits. */
  lemma SplitSpendLags(cfg: Config, labels: seq<Label>, key: SpendKey)
    ensures var s := Run(cfg, EMPTY, labels);
            && (forall i, j :: 0 <= i < j < |s.log| ==> s.log[i] != s.log[j])
            && (forall id :: id in s.consumed <==> id in s.log)
            && (Consumed(cfg, s, key) < TWENTY_DIGITS ==>
                  Spent(s, key) + Owed(cfg, s, key) == Consumed(cfg, s, key))
  {
    RunKeepsBooks(cfg, EMPTY, labels);
    var s := Run(cfg, EMPTY, labels);
    TotalSplits(cfg, s.log, s.consumed, key, s.recorded.Keys, s.consumed.Keys - s.recorded.Keys);
    assert s.recorded.Keys + (s.consumed.Keys - s.recorded.Keys) == s.consumed.Keys;
  }

  // ----- when the limit holds

  ghost predicate Within(cfg: Config, s: State) {
    forall key :: Spent(s, key) <= cfg.limit
  }

  /** Every recorded decision was evaluated on the very total it was recorded on, after all that was recorded there
      before it. */
  ghost predicate Sees(s: State) {
    forall a, b :: a in s.recorded && b in s.recorded && Later(s, a, b) ==> SawBefore(s, a, b)
  }

  /** `a` was recorded on the total of `b`, after it. */
  predicate Later(s: State, a: string, b: string)
    requires a in s.recorded && b in s.recorded
  {
    s.recorded[a].key == s.recorded[b].key && s.recorded[b].at < s.recorded[a].at
  }

  predicate SawBefore(s: State, a: string, b: string)
    requires a in s.recorded && b in s.recorded
  {
    a in s.issued && s.issued[a].key == s.recorded[a].key && s.recorded[b].at < s.issued[a].at
  }

  ghost predicate History(s: State) {
    && (forall id :: Ordered(s, id))
    && (forall key :: key in s.spend ==> exists id :: id in s.recorded && s.recorded[id].key == key)
  }

  /** An ALLOW on whose total nothing was recorded since still fits there. */
  ghost predicate Fits(cfg: Config, s: State) {
    forall id :: id in s.issued && s.issued[id].allowed ==> FitsAlone(cfg, s, id)
  }

  ghost predicate FitsAlone(cfg: Config, s: State, id: string)
    requires id in s.issued
  {
    && Plus(0, cfg.amountOf(id)) <= cfg.limit
    && (Untouched(s, id) ==> Plus(Spent(s, s.issued[id].key), cfg.amountOf(id)) <= cfg.limit)
  }

  ghost predicate Untouched(s: State, id: string)
    requires id in s.issued
  {
    forall b :: b in s.recorded && s.recorded[b].key == s.issued[id].key ==> s.recorded[b].at < s.issued[id].at
  }

  lemma SpendHasRecords(cfg: Config, s: State, id: string, key: SpendKey)
    requires History(s) && id in s.consumed && id !in s.recorded && key in Step(cfg, s, Record(id)).spend
    ensures var t := Step(cfg, s, Record(id)); exists b :: b in t.recorded && t.recorded[b].key == key
  {
    hide Plus;
    var t := Step(cfg, s, Record(id));
    if key == s.consumed[id] {
      assert t.recorded[id].key == key;
    } else {
      var b :| b in s.recorded && s.recorded[b].key == key;
      assert t.recorded[b].key == key;
    }
  }

  /** The stamps and the order of evaluation, consumption and record, of one decision. */
  predicate Ordered(s: State, id: string) {
    && (id in s.issued ==> s.issued[id].at < s.step)
    && (id in s.consumed ==> id in s.issued && s.issued[id].allowed)
    && (id in s.recorded ==>
          && id in s.consumed && s.recorded[id].key == s.consumed[id]
          && id in s.issued && s.issued[id].at < s.recorded[id].at < s.step)
  }

  lemma StepKeepsOrder(cfg: Config, s: State, l: Label, id: string)
    requires Ordered(s, id)
    ensures Ordered(Step(cfg, s, l), id)
  {
    hide Plus, Spent, KeyOf;
  }

  lemma StepKeepsHistory(cfg: Config, s: State, l: Label)
    requires History(s)
    ensures History(Step(cfg, s, l))
  {
    var t := Step(cfg, s, l);
    forall id ensures Ordered(t, id) {
      StepKeepsOrder(cfg, s, l, id);
    }
    hide Ordered, Plus, Spent, KeyOf;
    forall key | key in t.spend ensures exists b :: b in t.recorded && t.recorded[b].key == key {
      if l.Record? && l.decisionId in s.consumed && l.decisionId !in s.recorded {
        SpendHasRecords(cfg, s, l.decisionId, key);
      }
    }
  }

  /** Nothing is taken back, and what comes in later carries a later stamp. */
  ghost predicate Grows(s: State, t: State) {
    && s.step <= t.step
    && (forall id :: id in s.issued ==> id in t.issued && t.issued[id] == s.issued[id])
    && (forall id :: id in t.issued && id !in s.issued ==> t.issued[id].at >= s.step)
    && (forall id :: id in s.recorded ==> id in t.recorded && t.recorded[id] == s.recorded[id])
    && (forall id :: id in t.recorded && id !in s.recorded ==> t.recorded[id].at >= s.step)
  }

  lemma StepGrows(cfg: Config, s: State, l: Label)
    ensures Grows(s, Step(cfg, s, l))
  {
    hide Plus, Spent, KeyOf;
  }

  lemma GrowsFurther(s: State, t: State, u: State)
    requires Grows(s, t) && Grows(t, u)
    ensures Grows(s, u)
  {
  }

  lemma {:induction false} RunGrows(cfg: Config, s: State, labels: seq<Label>)
    ensures Grows(s, Run(cfg, s, labels))
    decreases |labels|
  {
    hide Step, Grows;
    if labels != [] {
      var t := Step(cfg, s, labels[0]);
      StepGrows(cfg, s, labels[0]);
      RunGrows(cfg, t, labels[1..]);
      GrowsFurther(s, t, Run(cfg, t, labels[1..]));
    } else {
      GrowsAlways(s);
    }
  }

  lemma GrowsAlways(s: State)
    ensures Grows(s, s)
  {
  }

  lemma SeesBefore(s: State, t: State)
    requires History(s) && Grows(s, t) && Sees(t)
    ensures Sees(s)
  {
    forall a, b | a in s.recorded && b in s.recorded && Later(s, a, b) ensures SawBefore(s, a, b) {
      assert Ordered(s, a);
      assert Later(t, a, b);
      assert SawBefore(t, a, b);
    }
  }

  lemma PlusInOrder(a: nat, b: nat, c: nat)
    requires a <= b
    ensures Plus(a, c) <= Plus(b, c)
  {
    RoundIsMonotone(a + c, b + c);
  }

  lemma EvaluateStaysWithin(cfg: Config, s: State, id: string, now: int, expiresAt: int)
    requires Fits(cfg, s) && Within(cfg, s) && id !in s.issued
    ensures Fits(cfg, Step(cfg, s, Evaluate(id, now, expiresAt))) && Within(cfg, Step(cfg, s, Evaluate(id, now, expiresAt)))
  {
    hide Plus, KeyOf;
    var t := Step(cfg, s, Evaluate(id, now, expiresAt));
    PlusInOrder(0, Spent(s, t.issued[id].key), cfg.amountOf(id));
    assert forall key :: Spent(t, key) == Spent(s, key);
    forall a | a in t.issued && t.issued[a].allowed ensures FitsAlone(cfg, t, a) {
      if a != id {
        assert FitsAlone(cfg, s, a);
        assert Untouched(t, a) ==> Untouched(s, a);
      }
    }
  }

  /** What is recorded now was evaluated on this total as it stands, or is the first here. */
  lemma RecordFits(cfg: Config, s: State, id: string)
    requires History(s) && Fits(cfg, s) && id in s.consumed && id !in s.recorded
    requires Sees(Step(cfg, s, Record(id)))
    ensures Plus(Spent(s, s.consumed[id]), cfg.amountOf(id)) <= cfg.limit
  {
    hide Plus, KeyOf;
    var t := Step(cfg, s, Record(id));
    var key := s.consumed[id];
    assert Ordered(s, id);
    assert FitsAlone(cfg, s, id);
    if b :| b in s.recorded && s.recorded[b].key == key {
      forall c | c in s.recorded && s.recorded[c].key == key
        ensures s.issued[id].key == key && s.recorded[c].at < s.issued[id].at
      {
        assert Ordered(s, c);
        assert Later(t, id, c);
        assert SawBefore(t, id, c);
      }
      assert Untouched(s, id);
    } else {
      assert key !in s.spend;
    }
  }

  lemma RecordStaysWithin(cfg: Config, s: State, id: string)
    requires History(s) && Fits(cfg, s) && Within(cfg, s) && id in s.consumed && id !in s.recorded
    requires Sees(Step(cfg, s, Record(id)))
    ensures Fits(cfg, Step(cfg, s, Record(id))) && Within(cfg, Step(cfg, s, Record(id)))
  {
    RecordFits(cfg, s, id);
    assert forall a :: Ordered(s, a);
    hide Plus, Sees;
    var t := Step(cfg, s, Record(id));
    var key := s.consumed[id];
    assert forall k :: k != key ==> Spent(t, k) == Spent(s, k);
    forall a | a in t.issued && t.issued[a].allowed ensures FitsAlone(cfg, t, a) {
      assert FitsAlone(cfg, s, a);
      if Untouched(t, a) {
        assert t.issued[a].key != key by {
          assert Ordered(s, a);
          assert t.recorded[id].key == key && t.recorded[id].at == s.step;
        }
        RecordTouches(cfg, s, id, a);
      }
    }
  }

  lemma RecordTouches(cfg: Config, s: State, id: string, a: string)
    requires History(s) && id in s.consumed && id !in s.recorded && a in s.issued
    requires Untouched(Step(cfg, s, Record(id)), a)
    ensures Untouched(s, a)
  {
    hide Plus, Spent;
    var t := Step(cfg, s, Record(id));
    assert forall b :: b in s.recorded ==> b in t.recorded && t.recorded[b] == s.recorded[b];
  }

  lemma Idles(cfg: Config, s: State, t: State)
    requires Fits(cfg, s) && Within(cfg, s) && t.issued == s.issued && t.recorded == s.recorded && t.spend == s.spend
    ensures Fits(cfg, t) && Within(cfg, t)
  {
    hide Plus;
    assert forall key :: Spent(t, key) == Spent(s, key);
    forall a | a in t.issued && t.issued[a].allowed ensures FitsAlone(cfg, t, a) {
      assert FitsAlone(cfg, s, a);
      assert Untouched(t, a) <==> Untouched(s, a);
    }
  }

  lemma StepStaysWithin(cfg: Config, s: State, l: Label)
    requires History(s) && Fits(cfg, s) && Within(cfg, s) && Sees(Step(cfg, s, l))
    ensures Fits(cfg, Step(cfg, s, l)) && Within(cfg, Step(cfg, s, l))
  {
    hide History, Fits, Within, Sees, Plus, KeyOf, Spent;
    if l.Record? && l.decisionId in s.consumed && l.decisionId !in s.recorded {
      RecordStaysWithin(cfg, s, l.decisionId);
    } else if l.Evaluate? && l.decisionId !in s.issued {
      EvaluateStaysWithin(cfg, s, l.decisionId, l.now, l.expiresAt);
    } else {
      Idles(cfg, s, Step(cfg, s, l));
    }
  }

  lemma {:induction false} RunStaysWithin(cfg: Config, s: State, labels: seq<Label>)
    requires History(s) && Fits(cfg, s) && Within(cfg, s) && Sees(Run(cfg, s, labels))
    ensures Within(cfg, Run(cfg, s, labels))
    decreases |labels|
  {
    hide Fits, Within, Sees, Grows, History, Step;
    if labels != [] {
      var t := Step(cfg, s, labels[0]);
      StepKeepsHistory(cfg, s, labels[0]);
      RunGrows(cfg, t, labels[1..]);
      SeesBefore(t, Run(cfg, t, labels[1..]));
      StepStaysWithin(cfg, s, labels[0]);
      RunStaysWithin(cfg, t, labels[1..]);
    }
  }

  /** A run stays within the limit when every recorded decision was evaluated on its total after all earlier records
      there. */
  lemma StaysWithinWhenSeen(cfg: Config, labels: seq<Label>)
    requires Sees(Run(cfg, EMPTY, labels))
    ensures Within(cfg, Run(cfg, EMPTY, labels))
  {
    RunStaysWithin(cfg, EMPTY, labels);
  }

  // ----- the order of calls decides, whatever the amounts

  function Free(id: string): nat { 0 }

  /** One decision's way through the stores. */
  datatype View = View(issued: Option<Issue>, consumed: Option<SpendKey>, recorded: Option<Recorded>)

  function ViewOf(s: State, id: string): View {
    View(if id in s.issued then Some(s.issued[id]) else None,
         if id in s.consumed then Some(s.consumed[id]) else None,
         if id in s.recorded then Some(s.recorded[id]) else None)
  }

  /** A call moves one decision, and the amount matters in the verdict only. */
  function Move(cfg: Config, v: View, step: nat, l: Label, verdict: bool): View {
    match l
    case Evaluate(id, now, expiresAt) =>
      if v.issued.Some? then v else v.(issued := Some(Issue(verdict, KeyOf(cfg, id, now), step, expiresAt)))
    case Consume(id, now) =>
      if v.issued.None? || !v.issued.value.allowed || now >= v.issued.value.expiresAt || v.consumed.Some? then v
      else v.(consumed := Some(KeyOf(cfg, id, now)))
    case Record(id) =>
      if v.consumed.None? || v.recorded.Some? then v else v.(recorded := Some(Recorded(v.consumed.value, step)))
  }

  function Verdict(cfg: Config, s: State, l: Label): bool {
    l.Evaluate? && cfg.permits(l.decisionId, l.now)
    && Plus(Spent(s, KeyOf(cfg, l.decisionId, l.now)), cfg.amountOf(l.decisionId)) <= cfg.limit
  }

  lemma StepMoves(cfg: Config, s: State, l: Label, id: string)
    ensures ViewOf(Step(cfg, s, l), id)
         == if id == l.decisionId then Move(cfg, ViewOf(s, id), s.step, l, Verdict(cfg, s, l)) else ViewOf(s, id)
  {
    hide Plus, Spent, KeyOf;
  }

  /** Both runs are at the same point with this decision. */
  ghost predicate Same(s: State, t: State, id: string) {
    ViewOf(s, id) == ViewOf(t, id)
  }

  ghost predicate SameRules(cfg: Config, free: Config) {
    free == cfg.(amountOf := Free)
  }

  lemma StepSame(cfg: Config, free: Config, s: State, t: State, l: Label, id: string)
    requires SameRules(cfg, free) && s.step == t.step && Same(s, t, id)
    requires l.Evaluate? && l.decisionId == id && id !in s.issued ==> Verdict(cfg, s, l) == Verdict(free, t, l)
    ensures Same(Step(cfg, s, l), Step(free, t, l), id)
  {
    StepMoves(cfg, s, l, id);
    StepMoves(free, t, l, id);
    assert id in s.issued <==> ViewOf(s, id).issued.Some?;
    hide Step, ViewOf, Verdict;
  }

  /** A run where every amount is zero. */
  ghost predicate Unspent(t: State) {
    forall key :: Spent(t, key) == 0
  }

  lemma FreeStays(free: Config, t: State, l: Label)
    requires free.amountOf == Free && Unspent(t)
    ensures Unspent(Step(free, t, l))
  {
    hide Plus, KeyOf;
    PlusIsExact(0, 0);
    var u := Step(free, t, l);
    forall key ensures Spent(u, key) == 0 {
      assert Spent(t, key) == 0;
      if l.Record? && l.decisionId in t.consumed { assert Spent(t, t.consumed[l.decisionId]) == 0; }
    }
  }

  predicate Blocked(v: View) {
    v.issued.Some? && !v.issued.value.allowed && v.consumed.None? && v.recorded.None?
  }

  /** The decision is where it is without amounts, or was blocked for its amount. */
  ghost predicate Under(s: State, t: State, id: string) {
    Same(s, t, id) || (Blocked(ViewOf(s, id)) && ViewOf(t, id).issued.Some?)
  }

  lemma VerdictUnder(cfg: Config, free: Config, s: State, t: State, l: Label)
    requires SameRules(cfg, free) && Unspent(t)
    ensures Verdict(cfg, s, l) ==> Verdict(free, t, l)
  {
    PlusIsExact(0, 0);
    hide Plus;
    if l.Evaluate? { assert Spent(t, KeyOf(free, l.decisionId, l.now)) == 0; }
  }

  lemma StepUnder(cfg: Config, free: Config, s: State, t: State, l: Label, id: string)
    requires SameRules(cfg, free) && s.step == t.step && Under(s, t, id) && Unspent(t) && Ordered(s, id)
    ensures Under(Step(cfg, s, l), Step(free, t, l), id)
  {
    StepMoves(cfg, s, l, id);
    StepMoves(free, t, l, id);
    VerdictUnder(cfg, free, s, t, l);
    assert ViewOf(s, id).issued.None? ==> ViewOf(s, id).consumed.None? && ViewOf(s, id).recorded.None?;
    hide Step, ViewOf, Verdict, Ordered, KeyOf, Unspent;
  }

  lemma RulesFree(cfg: Config, free: Config)
    requires SameRules(cfg, free)
    ensures free.amountOf == Free
  {
  }

  lemma StepCounts(cfg: Config, s: State, l: Label)
    ensures Step(cfg, s, l).step == s.step + 1
  {
    hide Plus, Spent, KeyOf;
  }

  lemma {:induction false} RunUnder(cfg: Config, free: Config, s: State, t: State, labels: seq<Label>)
    requires SameRules(cfg, free) && s.step == t.step && Unspent(t) && History(s) && forall id :: Under(s, t, id)
    ensures forall id :: Under(Run(cfg, s, labels), Run(free, t, labels), id)
    decreases |labels|
  {
    hide Step, Under, Unspent, Ordered, SameRules;
    if labels != [] {
      var u, v := Step(cfg, s, labels[0]), Step(free, t, labels[0]);
      forall id ensures Under(u, v, id) {
        assert Ordered(s, id);
        StepUnder(cfg, free, s, t, labels[0], id);
      }
      assert free.amountOf == Free by { RulesFree(cfg, free); }
      FreeStays(free, t, labels[0]);
      StepKeepsHistory(cfg, s, labels[0]);
      StepCounts(cfg, s, labels[0]);
      StepCounts(free, t, labels[0]);
      hide History;
      RunUnder(cfg, free, u, v, labels[1..]);
    }
  }

  lemma SeenWithoutAmounts(s: State, t: State)
    requires (forall id :: Under(s, t, id)) && Sees(t)
    ensures Sees(s)
  {
    forall a, b | a in s.recorded && b in s.recorded && Later(s, a, b) ensures SawBefore(s, a, b) {
      assert Under(s, t, a) && Under(s, t, b);
      assert ViewOf(s, a).recorded.Some? && ViewOf(s, b).recorded.Some?;
      assert Later(t, a, b);
      assert SawBefore(t, a, b);
    }
  }

  // ----- a violated order overspends

  /** The largest amount of one significant digit within the limit. */
  function Leading(limit: nat): nat {
    if limit < 10 then limit else 10 * Leading(limit / 10)
  }

  lemma {:induction false} LeadingIs(limit: nat) returns (d: nat, m: nat)
    requires limit > 0
    ensures Leading(limit) == Times(d, Pow10(m)) && d < 10
    ensures 0 < Leading(limit) <= limit < 2 * Leading(limit)
    decreases limit
  {
    if limit < 10 {
      d, m := limit, 0;
      TimesLaws(d, 0, 0);
    } else {
      d, m := LeadingIs(limit / 10);
      TimesLaws(d, Pow10(m), 0);
      m := m + 1;
    }
  }

  /** Such an amount and its double are added exactly. */
  lemma LeadingAdds(limit: nat)
    requires limit > 0
    ensures var top := Leading(limit);
            && Plus(0, top) == top == Plus(top, 0) && Plus(top, top) == 2 * top == Plus(2 * top, 0)
            && 0 < top <= limit < 2 * top
  {
    hide Round20, Times, Pow10, Leading;
    var d, m := LeadingIs(limit);
    ShortSumsAreExact(d, m);
    ShortSumsAreExact(2 * d, m);
    TimesLaws(d, d, Pow10(m));
    assert 2 * d == d + d;
  }

  /** The two decisions carry the largest such amount, all others nothing. */
  function Pair(cfg: Config, a: string, b: string): Config {
    cfg.(amountOf := id => if id == a || id == b then Leading(cfg.limit) else 0)
  }

  function Part(cfg: Config, s: State, key: SpendKey, id: string): nat {
    if id in s.recorded && s.recorded[id].key == key then Leading(cfg.limit) else 0
  }

  ghost predicate Hoards(cfg: Config, s: State, a: string, b: string) {
    forall key :: Spent(s, key) == Part(cfg, s, key, a) + Part(cfg, s, key, b)
  }

  /** `a` was recorded after `b` on one total, unseen: evaluated on another one, or before. */
  ghost predicate Unseen(f: State, a: string, b: string) {
    a in f.recorded && b in f.recorded && Later(f, a, b) && !SawBefore(f, a, b)
  }

  /** Where the pair stands in both runs, on the way to `f`. */
  ghost predicate Paired(cfg: Config, s: State, t: State, f: State, a: string, b: string) {
    && s.step == t.step && Same(s, t, a) && Same(s, t, b) && Hoards(cfg, s, a, b)
    && Ordered(t, a) && Ordered(t, b) && Unspent(t) && Grows(t, f)
  }

  lemma NothingThere(cfg: Config, s: State, t: State, f: State, a: string, b: string, id: string, now: int, expiresAt: int)
    requires Paired(cfg, s, t, f, a, b) && Unseen(f, a, b) && Ordered(f, a) && Ordered(f, b)
    requires (id == a || id == b) && id !in s.issued
    requires Grows(Step(cfg.(amountOf := Free), t, Evaluate(id, now, expiresAt)), f)
    ensures Spent(s, KeyOf(cfg, id, now)) == 0
  {
    hide Plus;
    var u := Step(cfg.(amountOf := Free), t, Evaluate(id, now, expiresAt));
    assert f.issued[id] == u.issued[id];
    assert u.issued[id].key == KeyOf(cfg, id, now) && u.issued[id].at == t.step;
    assert Spent(s, KeyOf(cfg, id, now)) == Part(cfg, s, KeyOf(cfg, id, now), a) + Part(cfg, s, KeyOf(cfg, id, now), b);
    assert id !in s.recorded;
    if id == b {
      assert f.recorded[b].at >= t.step;
      assert a !in s.recorded;
    } else if b in s.recorded {
      assert f.recorded[b] == t.recorded[b] && f.recorded[b].at < t.step;
    }
  }

  lemma EvaluatePaired(cfg: Config, s: State, t: State, f: State, a: string, b: string, id: string, now: int, expiresAt: int)
    requires Paired(cfg, s, t, f, a, b) && Unseen(f, a, b) && Ordered(f, a) && Ordered(f, b) && cfg.limit > 0
    requires (id == a || id == b) && id !in s.issued
    requires Grows(Step(cfg.(amountOf := Free), t, Evaluate(id, now, expiresAt)), f)
    ensures var l := Evaluate(id, now, expiresAt);
            Verdict(Pair(cfg, a, b), s, l) == Verdict(cfg.(amountOf := Free), t, l)
  {
    hide Plus, Leading, Unseen, Ordered, Grows, Step, Spent;
    NothingThere(cfg, s, t, f, a, b, id, now, expiresAt);
    assert Spent(t, KeyOf(cfg, id, now)) == 0;
    LeadingAdds(cfg.limit);
    PlusIsExact(0, 0);
  }

  lemma PartIs(cfg: Config, s: State, key: SpendKey, id: string)
    ensures Part(cfg, s, key, id) == 0 || Part(cfg, s, key, id) == Leading(cfg.limit)
  {
    hide Leading;
  }

  lemma NoPart(cfg: Config, s: State, key: SpendKey, id: string)
    requires id !in s.recorded
    ensures Part(cfg, s, key, id) == 0
  {
    hide Leading;
  }

  /** Recording adds the decision's part and nothing else. */
  lemma RecordAddsPart(cfg: Config, pair: Config, s: State, id: string, key: SpendKey, a: string)
    requires id in s.consumed && id !in s.recorded
    ensures Part(cfg, Step(pair, s, Record(id)), key, a)
         == Part(cfg, s, key, a) + if a == id && s.consumed[id] == key then Leading(cfg.limit) else 0
  {
    hide Plus, Leading, KeyOf, Spent;
  }

  lemma RecordSpends(cfg: Config, s: State, id: string, key: SpendKey)
    requires id in s.consumed && id !in s.recorded
    ensures Spent(Step(cfg, s, Record(id)), key)
         == if s.consumed[id] == key then Plus(Spent(s, key), cfg.amountOf(id)) else Spent(s, key)
  {
    hide Plus, KeyOf;
  }

  lemma RecordHoards(cfg: Config, s: State, a: string, b: string, id: string)
    requires Hoards(cfg, s, a, b) && a != b && cfg.limit > 0 && id in s.consumed && id !in s.recorded
    ensures Hoards(cfg, Step(Pair(cfg, a, b), s, Record(id)), a, b)
  {
    hide Plus, Leading, Spent, Step, Part;
    LeadingAdds(cfg.limit);
    PlusIsExact(0, 0);
    var pair := Pair(cfg, a, b);
    var u := Step(pair, s, Record(id));
    PartIs(cfg, s, s.consumed[id], a);
    PartIs(cfg, s, s.consumed[id], b);
    assert id == a || id == b ==> Part(cfg, s, s.consumed[id], id) == 0 by { NoPart(cfg, s, s.consumed[id], id); }
    forall key ensures Spent(u, key) == Part(cfg, u, key, a) + Part(cfg, u, key, b) {
      assert Spent(s, key) == Part(cfg, s, key, a) + Part(cfg, s, key, b);
      RecordAddsPart(cfg, pair, s, id, key, a);
      RecordAddsPart(cfg, pair, s, id, key, b);
      RecordSpends(pair, s, id, key);
    }
  }

  lemma StepHoards(cfg: Config, s: State, a: string, b: string, l: Label)
    requires Hoards(cfg, s, a, b) && a != b && cfg.limit > 0
    ensures Hoards(cfg, Step(Pair(cfg, a, b), s, l), a, b)
  {
    if l.Record? && l.decisionId in s.consumed && l.decisionId !in s.recorded {
      RecordHoards(cfg, s, a, b, l.decisionId);
    } else {
      hide Plus, Leading, KeyOf;
      var u := Step(Pair(cfg, a, b), s, l);
      assert u.spend == s.spend && u.recorded == s.recorded;
      forall key ensures Spent(u, key) == Part(cfg, u, key, a) + Part(cfg, u, key, b) {
        assert Spent(s, key) == Part(cfg, s, key, a) + Part(cfg, s, key, b);
      }
    }
  }

  lemma StepPaired(cfg: Config, s: State, t: State, f: State, a: string, b: string, l: Label)
    requires Paired(cfg, s, t, f, a, b) && Unseen(f, a, b) && Ordered(f, a) && Ordered(f, b) && cfg.limit > 0
    requires Grows(Step(cfg.(amountOf := Free), t, l), f)
    ensures Paired(cfg, Step(Pair(cfg, a, b), s, l), Step(cfg.(amountOf := Free), t, l), f, a, b)
  {
    var free := cfg.(amountOf := Free);
    if l.Evaluate? && (l.decisionId == a || l.decisionId == b) && l.decisionId !in s.issued {
      EvaluatePaired(cfg, s, t, f, a, b, l.decisionId, l.now, l.expiresAt);
    }
    assert a != b;
    hide Step, Same, Ordered, Hoards, Unspent, Unseen, Grows, Verdict, Leading;
    assert SameRules(Pair(cfg, a, b), free);
    StepSame(Pair(cfg, a, b), free, s, t, l, a);
    StepSame(Pair(cfg, a, b), free, s, t, l, b);
    StepKeepsOrder(free, t, l, a);
    StepKeepsOrder(free, t, l, b);
    FreeStays(free, t, l);
    StepHoards(cfg, s, a, b, l);
    StepCounts(Pair(cfg, a, b), s, l);
    StepCounts(free, t, l);
  }

  lemma {:induction false} RunPaired(cfg: Config, s: State, t: State, a: string, b: string, labels: seq<Label>)
    requires cfg.limit > 0
    requires var f := Run(cfg.(amountOf := Free), t, labels);
             Paired(cfg, s, t, f, a, b) && Unseen(f, a, b) && Ordered(f, a) && Ordered(f, b)
    ensures var f := Run(cfg.(amountOf := Free), t, labels);
            Paired(cfg, Run(Pair(cfg, a, b), s, labels), f, f, a, b)
    decreases |labels|
  {
    hide Step, Paired, Unseen, Ordered, Grows;
    if labels != [] {
      var free := cfg.(amountOf := Free);
      var v := Step(free, t, labels[0]);
      RunGrows(free, v, labels[1..]);
      StepPaired(cfg, s, t, Run(free, t, labels), a, b, labels[0]);
      RunPaired(cfg, Step(Pair(cfg, a, b), s, labels[0]), v, a, b, labels[1..]);
    }
  }

  /** Two decisions in a violated order overspend, each within the limit when evaluated. */
  lemma UnseenOverspends(cfg: Config, labels: seq<Label>, a: string, b: string)
    requires cfg.limit > 0 && Unseen(Run(cfg.(amountOf := Free), EMPTY, labels), a, b)
    ensures !Within(cfg, Run(Pair(cfg, a, b), EMPTY, labels))
  {
    var free := cfg.(amountOf := Free);
    var f := Run(free, EMPTY, labels);
    RunGrows(free, EMPTY, labels);
    RunKeepsHistory(free, EMPTY, labels);
    assert Ordered(f, a) && Ordered(f, b);
    RunPaired(cfg, EMPTY, EMPTY, a, b, labels);
    LeadingAdds(cfg.limit);
    hide Leading, Plus, Ordered, Grows;
    var s := Run(Pair(cfg, a, b), EMPTY, labels);
    var key := f.recorded[a].key;
    assert Spent(s, key) == Part(cfg, s, key, a) + Part(cfg, s, key, b);
  }

  lemma {:induction false} RunKeepsHistory(cfg: Config, s: State, labels: seq<Label>)
    requires History(s)
    ensures History(Run(cfg, s, labels))
    decreases |labels|
  {
    hide History, Step;
    if labels != [] {
      StepKeepsHistory(cfg, s, labels[0]);
      RunKeepsHistory(cfg, Step(cfg, s, labels[0]), labels[1..]);
    }
  }

  /** The exact condition: a sequence of calls keeps every total within the limit, whatever the amounts, if and only if
      each recorded decision was evaluated on its own total after all that was recorded there before it. The order is
      read off the run without amounts. */
  lemma SplitStaysWithinExactlyWhen(cfg: Config, labels: seq<Label>)
    ensures (forall amounts: string -> nat :: Within(cfg, Run(cfg.(amountOf := amounts), EMPTY, labels)))
       <==> cfg.limit == 0 || Sees(Run(cfg.(amountOf := Free), EMPTY, labels))
  {
    var free := cfg.(amountOf := Free);
    if Sees(Run(free, EMPTY, labels)) {
      forall amounts: string -> nat ensures Within(cfg, Run(cfg.(amountOf := amounts), EMPTY, labels)) {
        SeenRunsStayWithin(cfg, labels, amounts);
      }
    } else if cfg.limit == 0 {
      forall amounts: string -> nat ensures Within(cfg, Run(cfg.(amountOf := amounts), EMPTY, labels)) {
        RunStaysAtZero(cfg.(amountOf := amounts), EMPTY, labels);
      }
    } else {
      var a, b := SomethingUnseen(Run(free, EMPTY, labels));
      UnseenOverspends(cfg, labels, a, b);
    }
  }

  lemma SomethingUnseen(f: State) returns (a: string, b: string)
    requires !Sees(f)
    ensures Unseen(f, a, b)
  {
    a, b :| a in f.recorded && b in f.recorded && Later(f, a, b) && !SawBefore(f, a, b);
  }

  lemma SeenRunsStayWithin(cfg: Config, labels: seq<Label>, amounts: string -> nat)
    requires Sees(Run(cfg.(amountOf := Free), EMPTY, labels))
    ensures Within(cfg, Run(cfg.(amountOf := amounts), EMPTY, labels))
  {
    hide Sees;
    var c, free := cfg.(amountOf := amounts), cfg.(amountOf := Free);
    RunUnder(c, free, EMPTY, EMPTY, labels);
    SeenWithoutAmounts(Run(c, EMPTY, labels), Run(free, EMPTY, labels));
    StaysWithinWhenSeen(c, labels);
  }

  lemma {:induction false} RunStaysAtZero(cfg: Config, s: State, labels: seq<Label>)
    requires cfg.limit == 0 && History(s) && Unspent(s)
    requires forall id :: id in s.issued && s.issued[id].allowed ==> Plus(0, cfg.amountOf(id)) == 0
    ensures Within(cfg, Run(cfg, s, labels))
    decreases |labels|
  {
    if labels != [] {
      StepKeepsHistory(cfg, s, labels[0]);
      StepStaysAtZero(cfg, s, labels[0]);
      hide Step, History, Unspent;
      RunStaysAtZero(cfg, Step(cfg, s, labels[0]), labels[1..]);
    }
  }

  lemma StepStaysAtZero(cfg: Config, s: State, l: Label)
    requires cfg.limit == 0 && History(s) && Unspent(s)
    requires forall id :: id in s.issued && s.issued[id].allowed ==> Plus(0, cfg.amountOf(id)) == 0
    ensures var t := Step(cfg, s, l);
            Unspent(t) && forall id :: id in t.issued && t.issued[id].allowed ==> Plus(0, cfg.amountOf(id)) == 0
  {
    hide Plus;
    var t := Step(cfg, s, l);
    assert Ordered(s, l.decisionId);
    if l.Evaluate? { assert Spent(s, KeyOf(cfg, l.decisionId, l.now)) == 0; }
    forall key ensures Spent(t, key) == 0 {
      assert Spent(s, key) == 0;
      if l.Record? && l.decisionId in s.consumed { assert Spent(s, s.consumed[l.decisionId]) == 0; }
    }
  }

  /** The run that shows it, from the empty state: two decisions of one principal, each within the limit when it was
      evaluated, are consumed and recorded, and the total is above the limit. */
  lemma SplitStoresExceedTheLimit(limit: nat)
    requires limit > 0
    ensures var cfg := Config(limit, id => "principal", now => "day", id => Leading(limit), (id, now) => true);
            var s := Run(cfg, EMPTY, [Evaluate("a", 0, 1), Evaluate("b", 0, 1), Consume("a", 0), Consume("b", 0),
                                      Record("a"), Record("b")]);
            && "a" in s.issued && s.issued["a"].allowed && "b" in s.issued && s.issued["b"].allowed
            && Leading(limit) <= limit < Spent(s, SpendKey("principal", "day"))
  {
    hide Leading, Plus;
    LeadingAdds(limit);
    var cfg := Config(limit, id => "principal", now => "day", id => Leading(limit), (id, now) => true);
    assert "a" != "b" by { assert "a"[0] != "b"[0]; }
    var l6: seq<Label> := [];
    var l5 := [Record("b")];
    var l4 := [Record("a"), Record("b")];
    var l3 := [Consume("b", 0), Record("a"), Record("b")];
    var l2 := [Consume("a", 0), Consume("b", 0), Record("a"), Record("b")];
    var l1 := [Evaluate("b", 0, 1), Consume("a", 0), Consume("b", 0), Record("a"), Record("b")];
    var l0 := [Evaluate("a", 0, 1), Evaluate("b", 0, 1), Consume("a", 0), Consume("b", 0), Record("a"), Record("b")];
    assert l0[1..] == l1 && l1[1..] == l2 && l2[1..] == l3 && l3[1..] == l4 && l4[1..] == l5 && l5[1..] == l6;
    var s1 := Step(cfg, EMPTY, l0[0]);
    var s2 := Step(cfg, s1, l1[0]);
    var s3 := Step(cfg, s2, l2[0]);
    var s4 := Step(cfg, s3, l3[0]);
    var s5 := Step(cfg, s4, l4[0]);
    var s6 := Step(cfg, s5, l5[0]);
    assert s6.issued["a"].allowed && s6.issued["b"].allowed && Spent(s6, SpendKey("principal", "day")) == 2 * Leading(limit);
    hide Step, Spent;
    assert Run(cfg, s6, l6) == s6;
    assert Run(cfg, s4, l4) == Run(cfg, s6, l6);
    assert Run(cfg, s2, l2) == Run(cfg, s4, l4);
    assert Run(cfg, EMPTY, l0) == Run(cfg, s2, l2);
  }
}
