/**
 * What the records of the journal tell of the calls that wrote them, in either store
 * (packages/execution-reconciliation/src/store.ts, packages/postgres-store/src/reconciliation-store.ts).
 */
module JournalHistory {
  import opened Prelude
  import opened Decisions
  import opened Journal

  // ----- what a call leaves in a record

  /** The identity of the record is that of the preparation. */
  predicate Opened(c: Call, r: Record) {
    && c.Prepare? && r.operationId == OperationId(c.rail, c.kind, c.executionRef)
    && r.rail == c.rail && r.kind == c.kind && r.executionRef == c.executionRef && r.decisionId == c.decisionId
    && r.actionHash == c.actionHash && r.bindingHash == c.bindingHash && r.preparedAt == c.at
  }

  predicate Taken(c: Call, r: Record) {
    c.Start? && c.id == r.operationId && c.bindingHash == r.bindingHash && r.startedAt == Some(c.at)
  }

  predicate Doubted(c: Call, r: Record) {
    && c.MarkOutcomeUnknown? && c.id == r.operationId && c.bindingHash == r.bindingHash
    && r.status == OutcomeUnknown && r.lastErrorCode == Some(c.errorCode) && r.updatedAt == c.at
  }

  /** The call gave the record its final state, and everything the record says of it. */
  predicate Closed(c: Call, r: Record) {
    && Target(c) == r.operationId && r.resolvedAt == Some(c.at) && r.updatedAt == c.at
    && match c
       case MarkSucceeded(_, binding, reference, _) =>
         && binding == r.bindingHash && r.status == Succeeded && r.outcomeReference == Some(reference)
         && r.lastErrorCode == None && r.resolvedBy == None && r.resolutionNote == None
       case MarkFailedFinal(_, binding, code, _) =>
         && binding == r.bindingHash && r.status == FailedFinal && r.lastErrorCode == Some(code)
         && r.outcomeReference == None && r.resolvedBy == None && r.resolutionNote == None
       case Resolve(_, binding, ResolvedSucceeded, reference, _, resolver, note, _) =>
         && binding == r.bindingHash && r.status == Succeeded && r.outcomeReference == Some(reference)
         && r.lastErrorCode == None && r.resolvedBy == Some(resolver) && r.resolutionNote == Some(note)
       case Resolve(_, binding, ResolvedFailedFinal, reference, code, resolver, note, _) =>
         && binding == r.bindingHash && r.status == FailedFinal && r.outcomeReference == Some(reference)
         && code.Some? && r.lastErrorCode == code && r.resolvedBy == Some(resolver) && r.resolutionNote == Some(note)
       case _ => false
  }

  predicate Open(s: Status) {
    s == InProgress || s == OutcomeUnknown
  }

  /** What a call that changes a record, or makes one, leaves there. */
  predicate Wrote(r: Option<Record>, c: Call, s: Record) {
    match c
    case Prepare(_, _, _, _, _, _, _) => r.None? && Opened(c, s) && s.status == Prepared
    case Start(_, _, _) =>
      && r.Some? && r.value.status == Prepared && Identical(r.value, s) && Taken(c, s) && s.status == InProgress
    case MarkOutcomeUnknown(_, _, _, _) =>
      && r.Some? && r.value.status == InProgress && Identical(r.value, s) && Doubted(c, s)
      && s.startedAt == r.value.startedAt
    case _ =>
      && r.Some? && Open(r.value.status) && Identical(r.value, s) && Closed(c, s)
      && s.startedAt == r.value.startedAt
  }

  /** When a call changes a record, or makes one. */
  predicate Writes(store: Backend, r: Option<Record>, c: Call) {
    match c
    case Prepare(_, _, decisionId, _, executionRef, _, at) =>
      && r.None? && 1 <= |decisionId| <= 128 && 1 <= |executionRef| <= 512
      && (store.Memory? ==> -62_167_219_200_000 <= at <= 253_402_300_799_999)
    case Start(_, binding, _) => r.Some? && r.value.status == Prepared && r.value.bindingHash == binding
    case MarkSucceeded(_, binding, reference, _) =>
      r.Some? && r.value.status == InProgress && r.value.bindingHash == binding && 1 <= |reference| <= 512
    case MarkFailedFinal(_, binding, code, _) =>
      r.Some? && r.value.status == InProgress && r.value.bindingHash == binding && 1 <= |code| <= 128
    case MarkOutcomeUnknown(_, binding, code, _) =>
      r.Some? && r.value.status == InProgress && r.value.bindingHash == binding && 1 <= |code| <= 128
    case Resolve(_, binding, outcome, reference, code, resolver, note, _) =>
      && r.Some? && Open(r.value.status) && r.value.bindingHash == binding
      && 1 <= |reference| <= 512 && 1 <= |resolver| <= 128 && 1 <= |note| <= 1024
      && (code.Some? ==> 1 <= |code.value| <= 128) && (outcome.ResolvedFailedFinal? ==> code.Some?)
  }

  lemma MemoryWrites(r: Option<Record>, c: Call)
    requires r.Some? ==> RecordInv(r.value) && r.value.operationId == Target(c)
    ensures InMemory(r, c).0 != r <==> Writes(Memory, r, c)
    ensures InMemory(r, c).0 != r ==> InMemory(r, c).0.Some? && Wrote(r, c, InMemory(r, c).0.value)
  {
  }

  lemma SqlWrites(r: Option<Record>, c: Call)
    requires r.Some? ==> RecordInv(r.value) && r.value.operationId == Target(c)
    ensures Sql(r, c).0 != r <==> Writes(Database, r, c)
    ensures Sql(r, c).0 != r ==> Sql(r, c).0.Some? && Wrote(r, c, Sql(r, c).0.value)
  {
  }

  /** A call changes its own record only, exactly when the record is in the state and under the binding that it asks for
      and its texts have the lengths the schema accepts; and then the record says what the call said. */
  lemma StepWrites(store: Backend, records: Records, c: Call)
    requires RecordsInv(records)
    ensures var next := Step(store, records, c).0;
            && (next != records <==> Writes(store, Find(records, c), c))
            && (next != records ==> Target(c) in next && Wrote(Find(records, c), c, next[Target(c)]))
  {
    MemoryWrites(Find(records, c), c);
    SqlWrites(Find(records, c), c);
    StepAdvances(store, records, c);
    hide InMemory, Sql, Writes, Wrote, Advanced, RecordsInv;
  }

  // ----- what an operation answers

  /** The answer of an operation on a record whose instants the schema accepts. */
  predicate Answers(r: Option<Record>, c: Call, answer: Answer) {
    match c
    case Prepare(rail, kind, decisionId, actionHash, executionRef, binding, at) =>
      && (answer.Operation? || answer.Threw?)
      && (answer.Operation? <==>
            && 1 <= |decisionId| <= 128 && 1 <= |executionRef| <= 512
            && (r.Some? ==> && r.value.decisionId == decisionId && r.value.actionHash == actionHash
                            && r.value.bindingHash == binding))
    case Start(_, binding, _) =>
      && (answer.Missing? <==> r.None?)
      && (answer.BindingConflict? <==> r.Some? && r.value.bindingHash != binding)
      && (answer.Claimed? <==> r.Some? && r.value.bindingHash == binding && r.value.status == Prepared)
      && (answer.Unclaimed? <==> r.Some? && r.value.bindingHash == binding && r.value.status != Prepared)
    case MarkSucceeded(_, binding, reference, _) =>
      && (answer.Operation? || answer.Threw?)
      && (answer.Operation? <==>
            && 1 <= |reference| <= 512 && r.Some? && r.value.bindingHash == binding
            && (r.value.status == InProgress || (r.value.status == Succeeded && r.value.outcomeReference == Some(reference))))
    case MarkFailedFinal(_, binding, code, _) =>
      && (answer.Operation? || answer.Threw?)
      && (answer.Operation? <==>
            && 1 <= |code| <= 128 && r.Some? && r.value.bindingHash == binding
            && (r.value.status == InProgress || (r.value.status == FailedFinal && r.value.lastErrorCode == Some(code))))
    case MarkOutcomeUnknown(_, binding, code, _) =>
      && (answer.Operation? || answer.Threw?)
      && (answer.Operation? <==> 1 <= |code| <= 128 && r.Some? && r.value.bindingHash == binding && Open(r.value.status))
    case Resolve(_, _, _, _, _, _, _, _) =>
      && (answer.Operation? || answer.Threw?)
      && (answer.Operation? <==> Writes(Memory, r, c))
  }

  lemma MemoryAnswers(r: Option<Record>, c: Call)
    requires r.Some? ==> RecordInv(r.value) && r.value.operationId == Target(c) && RecordTimes(r.value)
    requires Representable(c.at)
    ensures Answers(r, c, InMemory(r, c).1)
    ensures var (s, a) := InMemory(r, c);
            a.Operation? || a.Claimed? || a.Unclaimed? ==> s == Some(a.record)
  {
  }

  lemma SqlAnswers(r: Option<Record>, c: Call)
    requires r.Some? ==> RecordInv(r.value) && r.value.operationId == Target(c) && RecordTimes(r.value)
    requires Representable(c.at)
    ensures Answers(r, c, Sql(r, c).1)
    ensures var (s, a) := Sql(r, c);
            a.Operation? || a.Claimed? || a.Unclaimed? ==> s == Some(a.record)
  {
  }

  /** At plain instants each call answers by the record it finds, a repetition of the mark that closed the record like
      the mark itself, and hands out the record as it then stands. */
  lemma StepAnswers(store: Backend, records: Records, c: Call)
    requires RecordsInv(records) && Plain(records) && Representable(c.at)
    ensures var (next, answer) := Step(store, records, c);
            && Answers(Find(records, c), c, answer)
            && (answer.Operation? || answer.Claimed? || answer.Unclaimed? ==>
                  Target(c) in next && answer.record == next[Target(c)])
  {
    MemoryAnswers(Find(records, c), c);
    SqlAnswers(Find(records, c), c);
    hide InMemory, Sql, Answers;
  }

  lemma SqlThrows(r: Option<Record>, c: Call)
    ensures var (s, answer) := Sql(r, c);
            && (r.Some? ==> s.Some?)
            && (s.Some? && !RecordTimes(s.value) ==> answer == Threw)
  {
  }

  /** Over SQL a call that leaves a record with an instant the schema refuses, or finds one, answers nothing else. */
  lemma UnparsedRowsThrow(records: Records, c: Call)
    ensures var (next, answer) := Step(Database, records, c);
            Target(c) in next && !RecordTimes(next[Target(c)]) ==> answer == Threw
  {
    hide Sql, RecordTimes;
    SqlThrows(Find(records, c), c);
  }

  // ----- histories

  /** The records after the first `k` calls. */
  function After(store: Backend, calls: seq<Call>, k: nat): Records
    requires k <= |calls|
  {
    Play(store, map[], calls[..k]).0
  }

  lemma {:induction false} PlayLast(store: Backend, records: Records, calls: seq<Call>, c: Call)
    ensures Play(store, records, calls + [c]).0 == Step(store, Play(store, records, calls).0, c).0
    decreases |calls|
  {
    hide Step;
    if calls == [] {
      assert ([] + [c])[1..] == [];
    } else {
      assert (calls + [c])[1..] == calls[1..] + [c];
      PlayLast(store, Step(store, records, calls[0]).0, calls[1..], c);
    }
  }

  lemma {:induction false} AfterKeepsRecords(store: Backend, calls: seq<Call>, k: nat)
    requires k <= |calls|
    ensures RecordsInv(After(store, calls, k))
    ensures k > 0 ==> After(store, calls, k) == Step(store, After(store, calls, k - 1), calls[k - 1]).0
    decreases k
  {
    hide Step, RecordInv;
    if k > 0 {
      AfterKeepsRecords(store, calls, k - 1);
      assert calls[..k] == calls[..k - 1] + [calls[k - 1]];
      PlayLast(store, map[], calls[..k - 1], calls[k - 1]);
      StepKeepsRecords(store, After(store, calls, k - 1), calls[k - 1]);
    }
  }

  /** The call at `p` made the record of `id`. */
  predicate OpenedAt(store: Backend, calls: seq<Call>, p: nat, id: OperationId, r: Record) {
    p < |calls| && Opened(calls[p], r) && id == r.operationId && id !in After(store, calls, p)
  }

  predicate TakenAt(store: Backend, calls: seq<Call>, q: nat, id: OperationId, r: Record) {
    && q < |calls| && Taken(calls[q], r) && id == r.operationId
    && id in After(store, calls, q) && After(store, calls, q)[id].status == Prepared
  }

  predicate DoubtedAt(store: Backend, calls: seq<Call>, u: nat, id: OperationId, r: Record) {
    && u < |calls| && Doubted(calls[u], r) && id == r.operationId
    && id in After(store, calls, u) && After(store, calls, u)[id].status == InProgress
  }

  predicate ClosedAt(store: Backend, calls: seq<Call>, k: nat, id: OperationId, r: Record) {
    && k < |calls| && Closed(calls[k], r) && id == r.operationId
    && id in After(store, calls, k) && Open(After(store, calls, k)[id].status)
    && id in After(store, calls, k + 1) && After(store, calls, k + 1)[id] == r
  }

  ghost predicate Told(store: Backend, calls: seq<Call>, n: nat, id: OperationId, r: Record) {
    && (exists p :: 0 <= p < n && OpenedAt(store, calls, p, id, r))
    && (r.status != Prepared ==> exists q :: 0 <= q < n && TakenAt(store, calls, q, id, r))
    && (r.status == OutcomeUnknown ==> exists u :: 0 <= u < n && DoubtedAt(store, calls, u, id, r))
    && (Final(r.status) ==> exists k :: 0 <= k < n && ClosedAt(store, calls, k, id, r))
  }

  lemma ToldCarries(store: Backend, calls: seq<Call>, n: nat, id: OperationId, r: Record, s: Record)
    requires n < |calls| && Told(store, calls, n, id, r) && Identical(r, s)
    requires s.status != Prepared && r.status != Prepared ==> s.startedAt == r.startedAt
    requires s.status != Prepared && r.status == Prepared ==> TakenAt(store, calls, n, id, s)
    requires s.status == OutcomeUnknown ==> s == r || DoubtedAt(store, calls, n, id, s)
    requires Final(s.status) ==> s == r || ClosedAt(store, calls, n, id, s)
    ensures Told(store, calls, n + 1, id, s)
  {
    hide After;
    var p :| 0 <= p < n && OpenedAt(store, calls, p, id, r);
    assert OpenedAt(store, calls, p, id, s);
    if s.status != Prepared && r.status != Prepared {
      var q :| 0 <= q < n && TakenAt(store, calls, q, id, r);
      assert TakenAt(store, calls, q, id, s);
    }
  }

  lemma {:induction false} TellsItsCalls(store: Backend, calls: seq<Call>, n: nat, id: OperationId)
    requires n <= |calls| && id in After(store, calls, n)
    ensures Told(store, calls, n, id, After(store, calls, n)[id])
    decreases n
  {
    hide After, Told, RecordInv;
    AfterKeepsRecords(store, calls, n);
    if n == 0 {
      NothingAtFirst(store, calls);
    } else {
      AfterKeepsRecords(store, calls, n - 1);
      var before, c := After(store, calls, n - 1), calls[n - 1];
      StepAdvances(store, before, c);
      StepWrites(store, before, c);
      hide Step, RecordsInv;
      if id in before { TellsItsCalls(store, calls, n - 1, id); }
      NextTells(store, calls, n - 1, id);
    }
  }

  lemma NothingAtFirst(store: Backend, calls: seq<Call>)
    ensures After(store, calls, 0) == map[]
  {
    assert calls[..0] == [];
  }

  lemma NextTells(store: Backend, calls: seq<Call>, n: nat, id: OperationId)
    requires n < |calls| && id in After(store, calls, n + 1)
    requires id in After(store, calls, n) ==> Told(store, calls, n, id, After(store, calls, n)[id])
    ensures Told(store, calls, n + 1, id, After(store, calls, n + 1)[id])
  {
    AfterKeepsRecords(store, calls, n + 1);
    AfterKeepsRecords(store, calls, n);
    var before, next, c := After(store, calls, n), After(store, calls, n + 1), calls[n];
    StepAdvances(store, before, c);
    StepWrites(store, before, c);
    hide Step, After, RecordsInv, RecordInv, Writes;
    if id !in before {
      assert OpenedAt(store, calls, n, id, next[id]);
    } else if next[id] == before[id] {
      ToldCarries(store, calls, n, id, before[id], next[id]);
    } else {
      assert Find(before, c) == Some(before[id]);
      ToldCarries(store, calls, n, id, before[id], next[id]);
    }
  }

  /** From the empty journal, over every sequence of calls to either store: the identity of each record is that of the
      call that prepared it, its start that of the call that took it while it was prepared, its doubt that of the call
      that marked it in progress, and each final record was left so by one call, for its id and binding, that found it
      open. It is a success exactly when that call marked or resolved a success, and outcome reference, error code,
      resolver, note and times are that call's own. */
  lemma RecordsTellTheirCalls(store: Backend, calls: seq<Call>, id: OperationId)
    requires id in Play(store, map[], calls).0
    ensures Told(store, calls, |calls|, id, Play(store, map[], calls).0[id])
    ensures var r := Play(store, map[], calls).0[id];
            Final(r.status) ==>
              exists k :: && 0 <= k < |calls| && ClosedAt(store, calls, k, id, r)
                          && (r.status == Succeeded <==>
                                calls[k].MarkSucceeded? || (calls[k].Resolve? && calls[k].outcome == ResolvedSucceeded))
  {
    assert calls[..|calls|] == calls;
    TellsItsCalls(store, calls, |calls|, id);
    var r := Play(store, map[], calls).0[id];
    if Final(r.status) {
      var k :| 0 <= k < |calls| && ClosedAt(store, calls, k, id, r);
      hide After;
    }
  }
}
