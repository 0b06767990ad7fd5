/** The two unresolved queues compared (packages/execution-reconciliation/src/store.ts and
    packages/postgres-store/src/reconciliation-store.ts). Memory compares the texts of update times, copies what it lists
    and without a cutoff lists everything; SQL compares the times, parses what it lists and always has a cutoff. */
module JournalQueues {
  import opened Prelude
  import opened Decisions
  import opened Journal
  import opened JournalAgreement
  import opened JournalStores
  import Queue

  // ---- sorted lists -----------------------------------------------------------------------------------

  /** `part` leaves out nothing smaller than what it holds. */
  ghost predicate LeavesOutLater<T(!new)>(all: seq<T>, part: seq<T>, key: T -> int) {
    forall l, r :: l in part && multiset(part)[r] < multiset(all)[r] ==> key(l) <= key(r)
  }

  lemma HeadsMeet<T(!new)>(all: seq<T>, part: seq<T>, key: T -> int)
    requires part != [] && Queue.Sorted(all, key) && Queue.Sorted(part, key) && multiset(part) <= multiset(all)
    requires Queue.KeysIdentify(multiset(all), key) && LeavesOutLater(all, part, key)
    ensures all != [] && all[0] == part[0]
  {
    assert part[0] in multiset(part) && part[0] in multiset(all) && part[0] in all;
    assert all[0] in multiset(all);
    assert all == [all[0]] + all[1..] && part == [part[0]] + part[1..];
    assert all[0] in part || multiset(part)[all[0]] < multiset(all)[all[0]];
  }

  /** A sorted list that leaves out nothing smaller begins the sorted list of everything. */
  lemma {:induction false} BeginsWith<T(!new)>(all: seq<T>, part: seq<T>, key: T -> int)
    requires Queue.Sorted(all, key) && Queue.Sorted(part, key) && multiset(part) <= multiset(all)
    requires Queue.KeysIdentify(multiset(all), key) && LeavesOutLater(all, part, key)
    ensures |part| <= |all| && all[..|part|] == part
    decreases |part|
  {
    hide Queue.Sorted, Queue.KeysIdentify, LeavesOutLater;
    if part != [] {
      HeadsMeet(all, part, key);
      TailsFit(all, part, key);
      BeginsWith(all[1..], part[1..], key);
      OneLonger(all, part);
    }
  }

  lemma OneLonger<T>(all: seq<T>, part: seq<T>)
    requires all != [] && part != [] && all[0] == part[0]
    requires |part| <= |all| && all[1..][..|part| - 1] == part[1..]
    ensures all[..|part|] == part
  {
    assert part == [part[0]] + part[1..];
  }

  lemma TailsFit<T(!new)>(all: seq<T>, part: seq<T>, key: T -> int)
    requires all != [] && part != [] && all[0] == part[0] && LeavesOutLater(all, part, key)
    requires Queue.Sorted(all, key) && Queue.Sorted(part, key) && multiset(part) <= multiset(all)
    requires Queue.KeysIdentify(multiset(all), key)
    ensures Queue.Sorted(all[1..], key) && Queue.Sorted(part[1..], key) && multiset(part[1..]) <= multiset(all[1..])
    ensures Queue.KeysIdentify(multiset(all[1..]), key) && LeavesOutLater(all[1..], part[1..], key)
  {
    Queue.TailRemoves(all);
    Queue.TailRemoves(part);
    forall l, r | l in part[1..] && multiset(part[1..])[r] < multiset(all[1..])[r] ensures key(l) <= key(r) {
      assert l in part && multiset(part)[r] < multiset(all)[r];
    }
  }

  // ---- the two queues ---------------------------------------------------------------------------------

  /** Comparing texts is comparing times within the years 0 to 9999, and tells all instants apart. */
  ghost predicate OrdersPlainTexts(text: TextOrder) {
    && (forall a, b :: text(a) == text(b) ==> a == b)
    && (forall a, b :: Representable(a) && Representable(b) && a < b ==> text(a) < text(b))
  }

  /** Every row that SQL lists passes the record schema. */
  predicate RowsParse(found: seq<Record>) {
    forall k :: 0 <= k < |found| ==> RecordTimes(found[k])
  }

  /** No unresolved record is younger than the cutoff SQL puts in, or the queue is full without. */
  predicate CutoffHarmless(memory: seq<Record>, updatedBefore: Option<Instant>, limit: nat) {
    || updatedBefore.Some?
    || limit <= |Queue.Matching(memory, Unresolved(Some(NEVER)))|
    || forall k :: 0 <= k < |memory| && Unresolved(None)(memory[k]) ==> memory[k].updatedAt < NEVER
  }

  predicate OutOfYears(r: Record, updatedBefore: Option<Instant>) {
    Unresolved(updatedBefore)(r) && !Representable(r.updatedAt)
  }

  /** No unresolved record outside the years 0 to 9999 has a text that goes before a listed one's. */
  predicate TextsInPlace(memory: seq<Record>, updatedBefore: Option<Instant>, found: seq<Record>, text: TextOrder) {
    forall k, l :: 0 <= k < |memory| && 0 <= l < |found| && OutOfYears(memory[k], updatedBefore) ==>
      text(found[l].updatedAt) < text(memory[k].updatedAt)
  }

  /** The rows that SQL selects are unresolved records of memory, and all of them but those at or after the cutoff that
      SQL puts in. */
  lemma Selected(memory: seq<Record>, table: seq<Record>, updatedBefore: Option<Instant>, r: Record)
    requires multiset(memory) == multiset(table)
    ensures var m := multiset(Queue.Matching(memory, Unresolved(updatedBefore)));
            var t := multiset(Queue.Matching(table, Unresolved(Before(updatedBefore))));
            t[r] == if updatedBefore.None? && r.updatedAt >= NEVER then 0 else m[r]
  {
    Queue.MatchingCounts(memory, Unresolved(updatedBefore), r);
    Queue.MatchingCounts(table, Unresolved(Before(updatedBefore)), r);
  }

  lemma SelectedAreFewer(memory: seq<Record>, table: seq<Record>, updatedBefore: Option<Instant>)
    requires multiset(memory) == multiset(table)
    ensures var m := Queue.Matching(memory, Unresolved(updatedBefore));
            var t := Queue.Matching(table, Unresolved(Before(updatedBefore)));
            && multiset(t) <= multiset(m) && |t| <= |m|
            && (updatedBefore.None? ==> |t| == |Queue.Matching(memory, Unresolved(Some(NEVER)))|)
            && (|t| < |m| ==> updatedBefore.None? && exists k :: 0 <= k < |memory| && Unresolved(None)(memory[k])
                                                               && memory[k].updatedAt >= NEVER)
  {
    var m := Queue.Matching(memory, Unresolved(updatedBefore));
    var t := Queue.Matching(table, Unresolved(Before(updatedBefore)));
    forall r ensures multiset(t)[r] <= multiset(m)[r] { Selected(memory, table, updatedBefore, r); }
    Sizes(t, m);
    if updatedBefore.None? {
      var n := Queue.Matching(memory, Unresolved(Some(NEVER)));
      forall r ensures multiset(t)[r] == multiset(n)[r] {
        Queue.MatchingCounts(memory, Unresolved(Some(NEVER)), r);
        Queue.MatchingCounts(table, Unresolved(Before(None)), r);
      }
      Sizes(t, n);
      Sizes(n, t);
    }
    if |t| < |m| {
      var r := LeftOut(t, m);
      Selected(memory, table, updatedBefore, r);
      Queue.MatchingCounts(memory, Unresolved(updatedBefore), r);
      assert r in multiset(memory);
    }
  }

  lemma Sizes<T>(a: seq<T>, b: seq<T>)
    requires multiset(a) <= multiset(b)
    ensures |a| <= |b|
  {
    assert multiset(b) == multiset(a) + (multiset(b) - multiset(a));
    assert |multiset(b)| == |multiset(a)| + |multiset(b) - multiset(a)|;
  }

  lemma LeftOut<T(!new)>(a: seq<T>, b: seq<T>) returns (r: T)
    requires |a| < |b|
    ensures multiset(a)[r] < multiset(b)[r]
  {
    if forall r :: multiset(b)[r] <= multiset(a)[r] {
      Sizes(b, a);
    }
    r :| multiset(a)[r] < multiset(b)[r];
  }

  lemma PlainBeforeText(l: Record, r: Record, text: TextOrder)
    requires OrdersPlainTexts(text) && Representable(l.updatedAt) && Representable(r.updatedAt)
    requires l.updatedAt <= r.updatedAt
    ensures text(l.updatedAt) <= text(r.updatedAt)
  {
  }

  lemma TimeKey(r: Record)
    ensures UpdateKey(InTime)(r) == r.updatedAt
  {
    assert InTime(r.updatedAt) == r.updatedAt;
  }

  /** In plain years sorted by time is sorted by text. */
  lemma {:induction false} SortedByText(found: seq<Record>, text: TextOrder)
    requires RowsParse(found) && OrdersPlainTexts(text) && Queue.Sorted(found, UpdateKey(InTime))
    ensures Queue.Sorted(found, UpdateKey(text))
    decreases |found|
  {
    if found != [] {
      assert forall k :: 0 <= k < |found[1..]| ==> found[1..][k] == found[k + 1];
      SortedByText(found[1..], text);
      forall x | x in found[1..] ensures UpdateKey(text)(found[0]) <= UpdateKey(text)(x) {
        var k :| 0 <= k < |found[1..]| && found[1..][k] == x;
        assert UpdateKey(InTime)(found[0]) <= UpdateKey(InTime)(x);
        assert RecordTimes(found[0]) && RecordTimes(found[k + 1]) && found[k + 1] == x;
        TimeKey(found[0]);
        TimeKey(x);
        PlainBeforeText(found[0], x, text);
      }
    }
  }

  /** What SQL leaves out goes after what it lists, in the order of texts too. */
  lemma NothingBefore(memory: seq<Record>, table: seq<Record>, updatedBefore: Option<Instant>, limit: nat, text: TextOrder,
                      collation: (Record, Record) -> bool, l: Record, r: Record)
    requires multiset(memory) == multiset(table) && OrdersPlainTexts(text)
    requires var found := Listed(table, Before(updatedBefore), limit, InTime, collation);
             && RowsParse(found) && TextsInPlace(memory, updatedBefore, found, text) && l in found
             && multiset(found)[r] < multiset(Queue.Matching(memory, Unresolved(updatedBefore)))[r]
    ensures text(l.updatedAt) <= text(r.updatedAt)
  {
    var found := Listed(table, Before(updatedBefore), limit, InTime, collation);
    QueueListsTheOldest(table, Before(updatedBefore), limit, InTime, collation, r);
    QueueListsTheOldest(table, Before(updatedBefore), limit, InTime, collation, l);
    Selected(memory, table, updatedBefore, r);
    Queue.MatchingCounts(memory, Unresolved(updatedBefore), r);
    Queue.MatchingCounts(table, Unresolved(Before(updatedBefore)), r);
    hide Listed, Queue.Matching;
    var i :| 0 <= i < |found| && found[i] == l;
    assert RecordTimes(found[i]);
    assert r in multiset(memory);
    var k :| 0 <= k < |memory| && memory[k] == r;
    if Representable(r.updatedAt) {
      hide OrdersPlainTexts;
      PlainBeforeText(l, r, text);
    } else {
      assert OutOfYears(memory[k], updatedBefore);
    }
  }

  lemma KeysOf(all: seq<Record>, text: TextOrder)
    requires OrdersPlainTexts(text) && Queue.KeysIdentify(multiset(all), UpdateKey(InTime))
    ensures Queue.KeysIdentify(multiset(all), UpdateKey(text))
  {
    forall x, y | x in multiset(all) && y in multiset(all) && UpdateKey(text)(x) == UpdateKey(text)(y) ensures x == y {
      assert UpdateKey(InTime)(x) == x.updatedAt == y.updatedAt == UpdateKey(InTime)(y);
    }
  }

  /** The listing is the sorted selection, cut. */
  lemma ListedIs(all: seq<Record>, updatedBefore: Option<Instant>, limit: nat, text: TextOrder,
                 rank: (Record, Record) -> bool) returns (sorted: seq<Record>)
    ensures Queue.Sorted(sorted, UpdateKey(text))
    ensures var m := Queue.Matching(all, Unresolved(updatedBefore)); multiset(sorted) == multiset(m) && |sorted| == |m|
    ensures var listed := Listed(all, updatedBefore, limit, text, rank);
            && |listed| == Queue.Min(limit, |sorted|) && listed == sorted[..|listed|]
            && multiset(listed) <= multiset(sorted)
  {
    var m := Queue.Matching(all, Unresolved(updatedBefore));
    sorted := Queue.Sort(m, UpdateKey(text), rank);
    Queue.SortSorts(m, UpdateKey(text), rank);
    Sizes(m, sorted);
    Sizes(sorted, m);
    var n := Queue.Min(limit, |sorted|);
    assert sorted == sorted[..n] + sorted[n..];
  }

  lemma AgreeWhen(memory: seq<Record>, table: seq<Record>, updatedBefore: Option<Instant>, limit: nat, text: TextOrder,
                  collation: (Record, Record) -> bool)
    requires multiset(memory) == multiset(table) && OrdersPlainTexts(text)
    requires Queue.KeysIdentify(multiset(Queue.Matching(memory, Unresolved(updatedBefore))), UpdateKey(InTime))
    requires var found := Listed(table, Before(updatedBefore), limit, InTime, collation);
             && RowsParse(found) && CutoffHarmless(memory, updatedBefore, limit)
             && TextsInPlace(memory, updatedBefore, found, text)
    ensures Listed(memory, updatedBefore, limit, text, NoRank)
         == Listed(table, Before(updatedBefore), limit, InTime, collation)
  {
    var found := Listed(table, Before(updatedBefore), limit, InTime, collation);
    var a := ListedIs(memory, updatedBefore, limit, text, NoRank);
    var b := ListedIs(table, Before(updatedBefore), limit, InTime, collation);
    SelectedAreFewer(memory, table, updatedBefore);
    var m := Queue.Matching(memory, Unresolved(updatedBefore));
    KeysOf(m, text);
    assert Queue.Sorted(found, UpdateKey(InTime)) by {
      QueueListsTheOldest(table, Before(updatedBefore), limit, InTime, collation, Dummy());
    }
    SortedByText(found, text);
    forall l, r | l in found && multiset(found)[r] < multiset(a)[r] ensures UpdateKey(text)(l) <= UpdateKey(text)(r) {
      NothingBefore(memory, table, updatedBefore, limit, text, collation, l, r);
    }
    hide Listed, Queue.Matching, Queue.Sorted, Queue.KeysIdentify;
    assert LeavesOutLater(a, found, UpdateKey(text));
    BeginsWith(a, found, UpdateKey(text));
    assert |found| == Queue.Min(limit, |a|);
  }

  function Dummy(): Record {
    Fresh(Prepare(X402, X402Settlement, "d", Text("a"), "ref", Text("b"), 0))
  }

  lemma AgreeOnlyInPlace(memory: seq<Record>, updatedBefore: Option<Instant>, limit: nat, text: TextOrder)
    requires OrdersPlainTexts(text) && RowsParse(Listed(memory, updatedBefore, limit, text, NoRank))
    ensures TextsInPlace(memory, updatedBefore, Listed(memory, updatedBefore, limit, text, NoRank), text)
  {
    var found := Listed(memory, updatedBefore, limit, text, NoRank);
    hide Listed;
    forall k, l | 0 <= k < |memory| && 0 <= l < |found| && OutOfYears(memory[k], updatedBefore)
      ensures text(found[l].updatedAt) < text(memory[k].updatedAt)
    {
      var r := memory[k];
      assert r !in found;
      assert r in multiset(memory) && found[l] in found && r !in multiset(found);
      QueueListsTheOldest(memory, updatedBefore, limit, text, NoRank, r);
      assert RecordTimes(found[l]);
    }
  }

  lemma AgreeOnlyBelowCutoff(memory: seq<Record>, table: seq<Record>, updatedBefore: Option<Instant>, limit: nat,
                             text: TextOrder, collation: (Record, Record) -> bool)
    requires multiset(memory) == multiset(table)
    requires |Listed(memory, updatedBefore, limit, text, NoRank)|
          == |Listed(table, Before(updatedBefore), limit, InTime, collation)|
    ensures CutoffHarmless(memory, updatedBefore, limit)
  {
    var a := ListedIs(memory, updatedBefore, limit, text, NoRank);
    var b := ListedIs(table, Before(updatedBefore), limit, InTime, collation);
    SelectedAreFewer(memory, table, updatedBefore);
    var m := Queue.Matching(memory, Unresolved(updatedBefore));
    var t := Queue.Matching(table, Unresolved(Before(updatedBefore)));
    forall k | 0 <= k < |memory| && updatedBefore.None? && Unresolved(None)(memory[k]) && memory[k].updatedAt >= NEVER
      ensures |t| < |m|
    {
      Selected(memory, table, updatedBefore, memory[k]);
      Queue.MatchingCounts(memory, Unresolved(updatedBefore), memory[k]);
      assert memory[k] in multiset(memory);
      Fewer(t, m, memory[k]);
    }
  }

  lemma Fewer<T(!new)>(a: seq<T>, b: seq<T>, r: T)
    requires multiset(a) <= multiset(b) && multiset(a)[r] < multiset(b)[r]
    ensures |a| < |b|
  {
    Sizes(a, b);
    assert |multiset(b)| == |multiset(a)| + |multiset(b) - multiset(a)|;
    assert r in multiset(b) - multiset(a);
  }

  /** For distinct update times: the two queues give the same answer if and only if every row SQL lists passes the record
      schema, its cutoff takes nothing away, and no record outside the years 0 to 9999 goes before a listed one in the
      order of texts. */
  lemma QueuesAgreeExactlyWhen(memory: seq<Record>, table: seq<Record>, updatedBefore: Option<Instant>, limit: nat,
                               text: TextOrder, collation: (Record, Record) -> bool)
    requires multiset(memory) == multiset(table) && OrdersPlainTexts(text)
    requires Queue.KeysIdentify(multiset(Queue.Matching(memory, Unresolved(updatedBefore))), UpdateKey(InTime))
    ensures var found := Listed(table, Before(updatedBefore), limit, InTime, collation);
            Some(Listed(memory, updatedBefore, limit, text, NoRank)) == SqlListed(table, updatedBefore, limit, collation)
            <==> && RowsParse(found) && CutoffHarmless(memory, updatedBefore, limit)
                 && TextsInPlace(memory, updatedBefore, found, text)
  {
    var found := Listed(table, Before(updatedBefore), limit, InTime, collation);
    hide Listed, Queue.Matching, Queue.KeysIdentify, OrdersPlainTexts, CutoffHarmless, TextsInPlace;
    if RowsParse(found) {
      if CutoffHarmless(memory, updatedBefore, limit) && TextsInPlace(memory, updatedBefore, found, text) {
        AgreeWhen(memory, table, updatedBefore, limit, text, collation);
      } else if Listed(memory, updatedBefore, limit, text, NoRank) == found {
        AgreeOnlyInPlace(memory, updatedBefore, limit, text);
        AgreeOnlyBelowCutoff(memory, table, updatedBefore, limit, text, collation);
      }
    }
  }

  /** Were texts in the order of times, the cutoff and the parsing would be the only differences. */
  lemma QueuesAgreeInTimeOrder(memory: seq<Record>, table: seq<Record>, updatedBefore: Option<Instant>, limit: nat,
                               collation: (Record, Record) -> bool)
    requires multiset(memory) == multiset(table)
    requires Queue.KeysIdentify(multiset(Queue.Matching(memory, Unresolved(updatedBefore))), UpdateKey(InTime))
    ensures Some(Listed(memory, updatedBefore, limit, InTime, NoRank)) == SqlListed(table, updatedBefore, limit, collation)
       <==> && RowsParse(Listed(table, Before(updatedBefore), limit, InTime, collation))
            && CutoffHarmless(memory, updatedBefore, limit)
  {
    var found := Listed(table, Before(updatedBefore), limit, InTime, collation);
    QueuesAgreeExactlyWhen(memory, table, updatedBefore, limit, InTime, collation);
    if RowsParse(found) {
      hide Listed, CutoffHarmless, Queue.KeysIdentify;
      forall k, l | 0 <= k < |memory| && 0 <= l < |found| && OutOfYears(memory[k], updatedBefore)
        ensures InTime(found[l].updatedAt) < InTime(memory[k].updatedAt)
      {
        var r := memory[k];
        assert r !in found && RecordTimes(found[l]);
        assert r in multiset(memory) && found[l] in found && r !in multiset(found);
        QueueListsTheOldest(table, Before(updatedBefore), limit, InTime, collation, r);
      }
    }
  }

  // ---- the inputs that show it ------------------------------------------------------------------------

  function Opened(started: Instant): seq<Call> {
    var op := OperationId(X402, X402Settlement, "ref");
    [Prepare(X402, X402Settlement, "d", Text("a"), "ref", Text("b"), 0), Start(op, Text("b"), started)]
  }

  function Open(started: Instant): Record {
    Fresh(Opened(started)[0]).(status := InProgress, attemptCount := 1, startedAt := Some(started), updatedAt := started)
  }

  lemma OpenedIsOpen(b: Backend, started: Instant)
    ensures Play(b, map[], Opened(started)).0 == map[Target(Opened(started)[0]) := Open(started)]
  {
    var calls := Opened(started);
    var op := Target(calls[0]);
    assert Accepted(calls[0]);
    var r1, r2 := map[op := Fresh(calls[0])], map[op := Open(started)];
    assert r1[op := Open(started)] == r2;
    assert Step(b, map[], calls[0]).0 == r1 && Step(b, r1, calls[1]).0 == r2;
    hide Step;
    assert calls[1..][1..] == [];
    assert Play(b, r2, []).0 == r2;
    assert Play(b, r1, calls[1..]).0 == r2;
  }

  /** A list of one unresolved record. */
  lemma ListsOne(r: Record, updatedBefore: Option<Instant>, text: TextOrder, rank: (Record, Record) -> bool)
    ensures Listed([r], updatedBefore, 1, text, rank) == if Unresolved(updatedBefore)(r) then [r] else []
  {
    assert [r][1..] == [] && [r][..0] == [];
    assert Queue.Matching([r][1..], Unresolved(updatedBefore)) == [];
    assert Queue.Sort([r][..0], UpdateKey(text), rank) == [];
  }

  /** Started at the last instant of year 9999, a record is the same in both journals; without a cutoff memory lists it
      and SQL never does. */
  lemma LastInstantIsNeverListed(text: TextOrder, collation: (Record, Record) -> bool)
    ensures Play(Memory, map[], Opened(NEVER)).0 == Play(Database, map[], Opened(NEVER)).0
         == map[Target(Opened(NEVER)[0]) := Open(NEVER)]
    ensures Listed([Open(NEVER)], None, 1, text, NoRank) == [Open(NEVER)]
    ensures SqlListed([Open(NEVER)], None, 1, collation) == Some([])
  {
    OpenedIsOpen(Memory, NEVER);
    OpenedIsOpen(Database, NEVER);
    ListsOne(Open(NEVER), None, text, NoRank);
    ListsOne(Open(NEVER), Before(None), InTime, collation);
  }

  /** Started one millisecond later and marked in 1970, a record is again the same in both journals; memory lists it, and
      the whole SQL listing throws. */
  lemma UnparsedRowLosesTheListing(text: TextOrder, collation: (Record, Record) -> bool)
    ensures var calls := Opened(BEYOND) + [MarkOutcomeUnknown(Target(Opened(BEYOND)[0]), Text("b"), "code", 5)];
            var r := Open(BEYOND).(status := OutcomeUnknown, lastErrorCode := Some("code"), updatedAt := 5);
            && Play(Memory, map[], calls).0 == Play(Database, map[], calls).0 == map[r.operationId := r]
            && Listed([r], None, 1, text, NoRank) == [r]
            && SqlListed([r], None, 1, collation) == None
  {
    var mark := MarkOutcomeUnknown(Target(Opened(BEYOND)[0]), Text("b"), "code", 5);
    var r := Open(BEYOND).(status := OutcomeUnknown, lastErrorCode := Some("code"), updatedAt := 5);
    forall b: Backend ensures Play(b, map[], Opened(BEYOND) + [mark]).0 == map[r.operationId := r] {
      OpenedIsOpen(b, BEYOND);
      OneMore(b, map[], Opened(BEYOND), mark);
      assert map[r.operationId := Open(BEYOND)][r.operationId := r] == map[r.operationId := r];
    }
    ListsOne(r, None, text, NoRank);
    ListsOne(r, Before(None), InTime, collation);
    assert !RecordTimes([r][0]);
  }

  lemma {:induction false} OneMore(b: Backend, records: Records, calls: seq<Call>, c: Call)
    ensures Play(b, records, calls + [c]).0 == Step(b, Play(b, records, calls).0, c).0
    decreases |calls|
  {
    hide Step;
    if calls == [] {
      assert calls + [c] == [c] && [c][1..] == [];
    } else {
      assert (calls + [c])[1..] == calls[1..] + [c];
      OneMore(b, Step(b, records, calls[0]).0, calls[1..], c);
    }
  }

  /** Two unresolved records, put in order. */
  lemma ListsTwo(a: Record, b: Record, text: TextOrder, rank: (Record, Record) -> bool, limit: nat)
    requires Unresolved(None)(a) && Unresolved(None)(b) && limit <= 2
    ensures var first := text(b.updatedAt) < text(a.updatedAt) || (text(b.updatedAt) == text(a.updatedAt) && rank(b, a));
            Listed([a, b], None, limit, text, rank) == (if first then [b, a] else [a, b])[..limit]
  {
    var key, keep := UpdateKey(text), Unresolved(None);
    assert [a, b][1..] == [b] && [b][1..] == [];
    assert Queue.Matching([b], keep) == [b] + Queue.Matching([], keep);
    assert Queue.Matching([a, b], keep) == [a] + Queue.Matching([b], keep) == [a, b];
    assert [a, b][..1] == [a] && [a][..0] == [];
    assert Queue.Sort([a], key, rank) == Queue.Insert(Queue.Sort([], key, rank), a, key, rank) == [a];
    assert Queue.Sort([a, b], key, rank) == Queue.Insert([a], b, key, rank);
    assert Queue.Insert([], b, key, rank) == [b];
  }

  /** A record past year 9999 whose text goes first takes the place of one that SQL lists. */
  lemma FarTextGoesFirst(near: Record, far: Record, text: TextOrder, collation: (Record, Record) -> bool)
    requires Unresolved(Some(NEVER))(near) && RecordTimes(near)
    requires Unresolved(None)(far) && NEVER < far.updatedAt && text(far.updatedAt) < text(near.updatedAt)
    ensures Listed([near, far], None, 1, text, NoRank) == [far]
    ensures SqlListed([near, far], None, 1, collation) == Some([near])
  {
    ListsTwo(near, far, text, NoRank, 1);
    ListsOne(near, Before(None), InTime, collation);
    var keep := Unresolved(Before(None));
    assert [near, far][1..] == [far] && [far][1..] == [] && [near][1..] == [];
    assert Queue.Matching([far], keep) == Queue.Matching([], keep) == [];
    assert Queue.Matching([near, far], keep) == [near] + [] == Queue.Matching([near], keep);
  }

  /** Two records of one instant are listed as memory met them, and as SQL ranks their ids. */
  lemma TiesKeepTheirOrder(a: Record, b: Record, text: TextOrder)
    requires Unresolved(Some(NEVER))(a) && Unresolved(Some(NEVER))(b) && a.updatedAt == b.updatedAt && a != b
    requires RecordTimes(a) && RecordTimes(b)
    ensures Listed([a, b], None, 2, text, NoRank) == [a, b]
    ensures SqlListed([a, b], None, 2, (x, y) => x == b) == Some([b, a])
  {
    ListsTwo(a, b, text, NoRank, 2);
    ListsTwo(a, b, InTime, (x, y) => x == b, 2);
    var found := Listed([a, b], Before(None), 2, InTime, (x, y) => x == b);
    var keep := Unresolved(Before(None));
    assert [a, b][1..] == [b] && [b][1..] == [];
    assert Queue.Matching([b], keep) == [b] + Queue.Matching([], keep);
    assert Queue.Matching([a, b], keep) == [a, b];
    assert Queue.Matching([b], Unresolved(None)) == [b] + Queue.Matching([], Unresolved(None));
    assert Queue.Matching([a, b], Unresolved(None)) == [a, b];
    assert found == [b, a];
  }
}
