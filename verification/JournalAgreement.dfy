/** The in-memory and the SQL journal compared: one call on one record, then every sequence of calls. */
module JournalAgreement {
  import opened Prelude
  import opened Decisions
  import opened Journal

  // ---- one call ---------------------------------------------------------------------------------------

  /** The call is about to create a record or to claim one. */
  predicate Opens(r: Option<Record>, c: Call) {
    Accepted(c) && ((c.Prepare? && r.None?)
                    || (c.Start? && r.Some? && r.value.status == Prepared && r.value.bindingHash == c.bindingHash))
  }

  /** The in-memory store answers this call with the record as it is, or with what the record says. */
  predicate AnsweredFrom(r: Record, c: Call) {
    && Accepted(c)
    && match c
       case Prepare(_, _, _, _, _, _, _) => SameIdentity(r, c)
       case Start(_, _, _) => true
       case MarkSucceeded(_, binding, reference, _) =>
         r.bindingHash == binding && r.status == Succeeded && r.outcomeReference == Some(reference)
       case MarkFailedFinal(_, binding, code, _) =>
         r.bindingHash == binding && r.status == FailedFinal && r.lastErrorCode == Some(code)
       case MarkOutcomeUnknown(_, binding, _, _) => r.bindingHash == binding && r.status == OutcomeUnknown
       case Resolve(_, _, _, _, _, _, _, _) => false
  }

  /** The call opens a record at an instant the record schema cannot write down, or is answered from a record that
      already holds one. */
  predicate Parts(r: Option<Record>, c: Call) {
    if r.Some? && !RecordTimes(r.value) then AnsweredFrom(r.value, c) else Opens(r, c) && !Representable(c.at)
  }

  /** On one record the stores differ exactly then. Memory refuses a preparation that SQL keeps, grants a claim whose
      answer SQL loses, and copies out a record that SQL parses and refuses. */
  lemma StoresAgreeExactlyWhen(r: Option<Record>, c: Call)
    requires r.Some? ==> RecordInv(r.value) && r.value.operationId == Target(c)
    ensures InMemory(r, c) == Sql(r, c) <==> !Parts(r, c)
  {
  }

  lemma StepsAgreeExactlyWhen(records: Records, c: Call)
    requires RecordsInv(records)
    ensures Step(Memory, records, c) == Step(Database, records, c) <==> !Parts(Find(records, c), c)
  {
    var r := Find(records, c);
    StoresAgreeExactlyWhen(r, c);
    MemoryCallsAdvance(r, c);
    SqlCallsAdvance(r, c);
    hide InMemory, Sql, Parts, RecordInv;
    var (m, d) := (InMemory(r, c).0, Sql(r, c).0);
    if m != d {
      assert Find(Step(Memory, records, c).0, c) == m && Find(Step(Database, records, c).0, c) == d;
    }
  }

  // ---- every sequence of calls ------------------------------------------------------------------------

  /** Some call of the sequence, played in memory, is one on which the stores differ. */
  predicate PartsSomewhere(records: Records, calls: seq<Call>)
    decreases |calls|
  {
    calls != [] && (Parts(Find(records, calls[0]), calls[0])
                    || PartsSomewhere(Step(Memory, records, calls[0]).0, calls[1..]))
  }

  /** Memory never holds a record that was prepared at any other instant. */
  predicate PreparedPlain(records: Records) {
    forall id :: id in records ==> Representable(records[id].preparedAt)
  }

  lemma StepKeepsPrepared(records: Records, c: Call)
    requires RecordsInv(records) && PreparedPlain(records)
    ensures PreparedPlain(Step(Memory, records, c).0)
  {
    MemoryCallsAdvance(Find(records, c), c);
    if Find(records, c).Some? { hide InMemory; }
  }

  lemma {:induction false} PlayKeepsPrepared(records: Records, calls: seq<Call>)
    requires RecordsInv(records) && PreparedPlain(records)
    ensures PreparedPlain(Play(Memory, records, calls).0)
    decreases |calls|
  {
    if calls != [] {
      hide RecordsInv, PreparedPlain, Step;
      StepKeepsPrepared(records, calls[0]);
      StepKeepsRecords(Memory, records, calls[0]);
      PlayKeepsPrepared(Step(Memory, records, calls[0]).0, calls[1..]);
    }
  }

  /** Where the stores part, either the answers differ, or SQL keeps a preparation that memory refused. */
  lemma WhereTheyPart(records: Records, c: Call)
    requires RecordsInv(records) && Parts(Find(records, c), c)
    ensures var next := Step(Database, records, c).0;
            || Step(Memory, records, c).1 != Step(Database, records, c).1
            || (Target(c) in next && !Representable(next[Target(c)].preparedAt))
  {
    StoresAgreeExactlyWhen(Find(records, c), c);
  }

  /** That preparation stays, and memory never has its like. */
  lemma NeverRejoin(records: Records, calls: seq<Call>)
    requires calls != [] && RecordsInv(records) && PreparedPlain(records) && Parts(Find(records, calls[0]), calls[0])
    ensures Play(Memory, records, calls) != Play(Database, records, calls)
  {
    hide Parts, RecordsInv, PreparedPlain, Step;
    var c := calls[0];
    var m, d := Step(Memory, records, c), Step(Database, records, c);
    WhereTheyPart(records, c);
    if m.1 == d.1 {
      StepKeepsRecords(Database, records, c);
      RecordsPersist(Database, d.0, calls[1..], Target(c));
      PlayKeepsPrepared(records, calls);
      assert Play(Database, records, calls).0 == Play(Database, d.0, calls[1..]).0;
      SomeUnplain(Play(Database, records, calls).0, Target(c));
    } else {
      assert Play(Memory, records, calls).1[0] == m.1 && Play(Database, records, calls).1[0] == d.1;
    }
  }

  lemma SomeUnplain(records: Records, id: OperationId)
    requires id in records && !Representable(records[id].preparedAt)
    ensures !PreparedPlain(records)
  {
  }

  lemma {:induction false} PlaysAgreeExactlyWhen(records: Records, calls: seq<Call>)
    requires RecordsInv(records) && PreparedPlain(records)
    ensures Play(Memory, records, calls) == Play(Database, records, calls) <==> !PartsSomewhere(records, calls)
    decreases |calls|
  {
    hide Parts, RecordsInv, PreparedPlain, Step;
    if calls != [] {
      StepsAgreeExactlyWhen(records, calls[0]);
      if Parts(Find(records, calls[0]), calls[0]) {
        NeverRejoin(records, calls);
      } else {
        var (next, answer) := Step(Memory, records, calls[0]);
        StepKeepsRecords(Memory, records, calls[0]);
        StepKeepsPrepared(records, calls[0]);
        PlaysAgreeExactlyWhen(next, calls[1..]);
        var m, d := Play(Memory, next, calls[1..]), Play(Database, next, calls[1..]);
        assert ([answer] + m.1)[1..] == m.1 && ([answer] + d.1)[1..] == d.1;
      }
    }
  }

  /** For every sequence of calls at whatever instants: from the empty journal the two stores give the same answers and
      end with the same records if and only if no call opens a record at an instant outside the years 0 to 9999 and none
      is answered from a record that holds one. */
  lemma JournalsAgreeExactlyWhen(calls: seq<Call>)
    ensures Play(Memory, map[], calls) == Play(Database, map[], calls) <==> !PartsSomewhere(map[], calls)
  {
    PlaysAgreeExactlyWhen(map[], calls);
  }

  lemma StepKeepsPlain(records: Records, c: Call)
    requires RecordsInv(records) && Plain(records) && Representable(c.at)
    ensures Plain(Step(Memory, records, c).0)
  {
  }

  lemma {:induction false} PlainNeverParts(records: Records, calls: seq<Call>)
    requires RecordsInv(records) && Plain(records)
    requires forall i :: 0 <= i < |calls| ==> Representable(calls[i].at)
    ensures !PartsSomewhere(records, calls)
    decreases |calls|
  {
    if calls != [] {
      StepKeepsRecords(Memory, records, calls[0]);
      StepKeepsPlain(records, calls[0]);
      PlainNeverParts(Step(Memory, records, calls[0]).0, calls[1..]);
    }
  }

  /** For every sequence of calls at plain instants the two stores give the same answers and hold the same
      records, and every record keeps its invariant. */
  lemma StoresBisimilar(records: Records, calls: seq<Call>)
    requires RecordsInv(records) && Plain(records)
    requires forall i :: 0 <= i < |calls| ==> Representable(calls[i].at)
    ensures Play(Memory, records, calls) == Play(Database, records, calls)
    ensures RecordsInv(Play(Memory, records, calls).0)
  {
    PlainNeverParts(records, calls);
    PlaysAgreeExactlyWhen(records, calls);
    PlayKeepsRecords(Memory, records, calls);
  }

  lemma {:induction false} PlayKeepsRecords(store: Backend, records: Records, calls: seq<Call>)
    requires RecordsInv(records)
    ensures RecordsInv(Play(store, records, calls).0)
    decreases |calls|
  {
    if calls != [] {
      StepKeepsRecords(store, records, calls[0]);
      PlayKeepsRecords(store, Step(store, records, calls[0]).0, calls[1..]);
    }
  }

  // ---- the inputs that show it ------------------------------------------------------------------------

  /** One millisecond past year 9999. */
  const BEYOND: Instant := 253_402_300_800_000

  /** A preparation at that instant tells the stores apart. */
  lemma StoresDifferBeyondYear9999()
    ensures var c := Prepare(X402, X402Settlement, "d", Text("a"), "ref", Text("b"), BEYOND);
            Step(Memory, map[], c) == (map[], Threw)
            && Step(Database, map[], c) == (map[Target(c) := Fresh(c)], Threw)
  {
    var c := Prepare(X402, X402Settlement, "d", Text("a"), "ref", Text("b"), BEYOND);
    assert Bounded(c.decisionId, 128) && Bounded(c.executionRef, 512);
  }

  function MarkedTwice(): seq<Call> {
    var op := OperationId(X402, X402Settlement, "ref");
    var mark := MarkSucceeded(op, Text("b"), "out", BEYOND);
    [Prepare(X402, X402Settlement, "d", Text("a"), "ref", Text("b"), 0), Start(op, Text("b"), 0), mark, mark]
  }

  /** So does a success marked at that instant, twice, of a record opened in 1970: both stores keep it and lose the first
      answer; the second answer memory gives and SQL does not. */
  lemma StoresDifferOnASecondMark()
    ensures var (m, d) := (Play(Memory, map[], MarkedTwice()), Play(Database, map[], MarkedTwice()));
            && m.0 == d.0 && |m.1| == |d.1| == 4 && m.1[..3] == d.1[..3]
            && m.1[2] == Threw && m.1[3].Operation? && d.1[3] == Threw
  {
    MarkedTwiceAnswers(Memory);
    MarkedTwiceAnswers(Database);
  }

  lemma MarkedTwiceAnswers(b: Backend)
    ensures var marked := Marked();
            Play(b, map[], MarkedTwice()) == (map[marked.operationId := marked],
                                              [Operation(Fresh(MarkedTwice()[0])), Claimed(Started()), Threw,
                                               if b.Memory? then Operation(marked) else Threw])
  {
    var calls := MarkedTwice();
    var op := Target(calls[0]);
    var r1, r2, r3 := map[op := Fresh(calls[0])], map[op := Started()], map[op := Marked()];
    assert Accepted(calls[0]) && Accepted(calls[2]);
    assert r1[op := Started()] == r2 && r2[op := Marked()] == r3;
    FourAnswers(b, calls, r1, r2, r3, r3);
  }

  function Started(): Record {
    Fresh(MarkedTwice()[0]).(status := InProgress, attemptCount := 1, startedAt := Some(0))
  }

  function Marked(): Record {
    Started().(status := Succeeded, outcomeReference := Some("out"), resolvedAt := Some(BEYOND), updatedAt := BEYOND)
  }

  lemma FourAnswers(b: Backend, calls: seq<Call>, r1: Records, r2: Records, r3: Records, r4: Records)
    requires |calls| == 4
    requires Step(b, map[], calls[0]).0 == r1 && Step(b, r1, calls[1]).0 == r2
    requires Step(b, r2, calls[2]).0 == r3 && Step(b, r3, calls[3]).0 == r4
    ensures Play(b, map[], calls) == (r4, [Step(b, map[], calls[0]).1, Step(b, r1, calls[1]).1, Step(b, r2, calls[2]).1,
                                           Step(b, r3, calls[3]).1])
  {
    hide Step;
    var l1, l2, l3, l4 := calls[1..], calls[2..], calls[3..], calls[4..];
    assert l1[1..] == l2 && l2[1..] == l3 && l3[1..] == l4 && l4 == [];
    assert calls[0..] == calls && l1[0] == calls[1] && l2[0] == calls[2] && l3[0] == calls[3];
    assert Play(b, r3, l3) == (Play(b, r4, l4).0, [Step(b, r3, calls[3]).1] + Play(b, r4, l4).1);
    assert Play(b, r2, l2) == (Play(b, r3, l3).0, [Step(b, r2, calls[2]).1] + Play(b, r3, l3).1);
    assert Play(b, r1, l1) == (Play(b, r2, l2).0, [Step(b, r1, calls[1]).1] + Play(b, r2, l2).1);
    assert Play(b, map[], calls) == (Play(b, r1, l1).0, [Step(b, map[], calls[0]).1] + Play(b, r1, l1).1);
    assert Play(b, r4, l4) == (r4, []);
    var a0, a1 := Step(b, map[], calls[0]).1, Step(b, r1, calls[1]).1;
    var a2, a3 := Step(b, r2, calls[2]).1, Step(b, r3, calls[3]).1;
    assert [a0] + ([a1] + ([a2] + ([a3] + []))) == [a0, a1, a2, a3];
  }
}
