/** The two journal stores in the form of the source, and their unresolved queue. */
module JournalStores {
  import opened Prelude
  import opened Decisions
  import opened Journal
  import Queue

  /** A `Map` from operation id to a record whose fields the methods assign. */
  class InMemoryExecutionReconciliationStore {
    var operations: Records
    /** The map's keys in insertion order, which is the order it iterates in. */
    var order: seq<OperationId>

    ghost predicate Valid()
      reads this
    {
      && RecordsInv(operations)
      && (forall i, j :: 0 <= i < j < |order| ==> order[i] != order[j])
      && (forall id :: id in order <==> id in operations)
    }

    constructor ()
      ensures Valid() && operations == map[]
    {
      operations, order := map[], [];
    }

    method Prepare(c: Call) returns (a: Answer)
      requires c.Prepare? && Valid()
      modifies this
      ensures Valid() && (operations, a) == Step(Memory, old(operations), c)
      ensures old(order) <= order && |order| <= |old(order)| + 1
    {
      ghost var before := operations;
      if !Accepted(c) {
        return Threw;
      }
      var operationId := Target(c);
      if operationId in operations {
        var existing := operations[operationId];
        if !SameIdentity(existing, c) {
          return Threw;
        }
        return Operation(existing);
      }
      var record := Record(operationId, c.rail, c.kind, c.decisionId, c.actionHash, c.executionRef, c.bindingHash,
                           Status.Prepared, 0, c.at, None, c.at, None, None, None, None, None);
      if !RecordTimes(record) {
        return Threw;
      }
      operations := operations[operationId := record];
      order := order + [operationId];
      a := Operation(record);
      StepKeepsRecords(Memory, before, c);
    }

    method Start(id: OperationId, bindingHash: Digest, at: Instant) returns (a: Answer)
      requires Valid()
      modifies `operations
      ensures Valid() && (operations, a) == Step(Memory, old(operations), Call.Start(id, bindingHash, at))
    {
      StepKeepsRecords(Memory, operations, Call.Start(id, bindingHash, at));
      if id !in operations {
        return Missing;
      }
      var record := operations[id];
      if record.bindingHash != bindingHash {
        return BindingConflict;
      }
      if record.status == Prepared {
        record := record.(status := InProgress);
        record := record.(attemptCount := record.attemptCount + 1);
        record := record.(startedAt := Some(at));
        record := record.(updatedAt := at);
        operations := operations[id := record];
        return Claimed(record);
      }
      return Unclaimed(record);
    }

    method MarkSucceeded(id: OperationId, bindingHash: Digest, outcomeReference: string, at: Instant)
      returns (a: Answer)
      requires Valid()
      modifies `operations
      ensures Valid()
      ensures (operations, a)
           == Step(Memory, old(operations), Call.MarkSucceeded(id, bindingHash, outcomeReference, at))
    {
      StepKeepsRecords(Memory, operations, Call.MarkSucceeded(id, bindingHash, outcomeReference, at));
      if !Bounded(outcomeReference, 512) || id !in operations || operations[id].bindingHash != bindingHash {
        return Threw;
      }
      var record := operations[id];
      if record.status == Succeeded && record.outcomeReference == Some(outcomeReference) {
        return Operation(record);
      }
      if record.status != InProgress {
        return Threw;
      }
      record := record.(status := Succeeded);
      record := record.(outcomeReference := Some(outcomeReference));
      record := record.(resolvedAt := Some(at));
      record := record.(updatedAt := at);
      operations := operations[id := record];
      return Validated(record);
    }

    method MarkFailedFinal(id: OperationId, bindingHash: Digest, errorCode: string, at: Instant) returns (a: Answer)
      requires Valid()
      modifies `operations
      ensures Valid()
      ensures (operations, a) == Step(Memory, old(operations), Call.MarkFailedFinal(id, bindingHash, errorCode, at))
    {
      StepKeepsRecords(Memory, operations, Call.MarkFailedFinal(id, bindingHash, errorCode, at));
      if !Bounded(errorCode, 128) || id !in operations || operations[id].bindingHash != bindingHash {
        return Threw;
      }
      var record := operations[id];
      if record.status == FailedFinal && record.lastErrorCode == Some(errorCode) {
        return Operation(record);
      }
      if record.status != InProgress {
        return Threw;
      }
      record := record.(status := FailedFinal);
      record := record.(lastErrorCode := Some(errorCode));
      record := record.(resolvedAt := Some(at));
      record := record.(updatedAt := at);
      operations := operations[id := record];
      return Validated(record);
    }

    method MarkOutcomeUnknown(id: OperationId, bindingHash: Digest, errorCode: string, at: Instant)
      returns (a: Answer)
      requires Valid()
      modifies `operations
      ensures Valid()
      ensures (operations, a)
           == Step(Memory, old(operations), Call.MarkOutcomeUnknown(id, bindingHash, errorCode, at))
    {
      StepKeepsRecords(Memory, operations, Call.MarkOutcomeUnknown(id, bindingHash, errorCode, at));
      if !Bounded(errorCode, 128) || id !in operations || operations[id].bindingHash != bindingHash {
        return Threw;
      }
      var record := operations[id];
      if record.status == OutcomeUnknown {
        return Operation(record);
      }
      if record.status != InProgress {
        return Threw;
      }
      record := record.(status := OutcomeUnknown);
      record := record.(lastErrorCode := Some(errorCode));
      record := record.(updatedAt := at);
      operations := operations[id := record];
      return Validated(record);
    }

    method Resolve(c: Call) returns (a: Answer)
      requires c.Resolve? && Valid()
      modifies `operations
      ensures Valid() && (operations, a) == Step(Memory, old(operations), c)
    {
      StepKeepsRecords(Memory, operations, c);
      if !Accepted(c) || c.id !in operations || operations[c.id].bindingHash != c.bindingHash {
        return Threw;
      }
      var record := operations[c.id];
      if record.status != OutcomeUnknown && record.status != InProgress {
        return Threw;
      }
      record := record.(status := if c.outcome == ResolvedSucceeded then Succeeded else FailedFinal);
      record := record.(outcomeReference := Some(c.outcomeRef));
      record := record.(lastErrorCode := if c.outcome == ResolvedFailedFinal then c.failureCode else None);
      record := record.(resolvedBy := Some(c.resolvedBy));
      record := record.(resolutionNote := Some(c.note));
      record := record.(resolvedAt := Some(c.at));
      record := record.(updatedAt := c.at);
      operations := operations[c.id := record];
      return Validated(record);
    }

    /** Filter in insertion order, sort stably by the text of the update time, cut to the limit. */
    method ListUnresolved(updatedBefore: Option<Instant>, limit: Option<int>, text: TextOrder)
      returns (r: Option<seq<Record>>)
      requires Valid()
      ensures r.None? <==> limit.Some? && (limit.value < 1 || limit.value > 500)
      ensures r.Some? ==> r.value == Listed(Ordered(operations, order), updatedBefore,
                                            if limit.None? then 100 else limit.value, text, NoRank)
    {
      if limit.Some? && !(1 <= limit.value <= 500) {
        return None;
      }
      var matching: seq<Record> := [];
      for i := 0 to |order|
        invariant matching == Queue.Matching(Ordered(operations, order[..i]), Unresolved(updatedBefore))
      {
        assert order[..i + 1] == order[..i] + [order[i]];
        OrderedAppend(operations, order[..i], order[i]);
        Queue.MatchingAppend(Ordered(operations, order[..i]), operations[order[i]], Unresolved(updatedBefore));
        if Unresolved(updatedBefore)(operations[order[i]]) {
          matching := matching + [operations[order[i]]];
        }
      }
      assert order[..|order|] == order;
      var sorted := Queue.Sort(matching, UpdateKey(text), NoRank);
      r := Some(sorted[..Queue.Min(LimitOf(limit), |sorted|)]);
    }
  }

  /** Rows of one table; each method is one guarded statement and the row it returns. */
  class PostgresExecutionReconciliationStore {
    var rows: Records

    ghost predicate Valid()
      reads this
    {
      RecordsInv(rows)
    }

    constructor ()
      ensures Valid() && rows == map[]
    {
      rows := map[];
    }

    method Prepare(c: Call) returns (a: Answer)
      requires c.Prepare? && Valid()
      modifies this
      ensures Valid() && (rows, a) == Step(Database, old(rows), c)
    {
      StepKeepsRecords(Database, rows, c);
      if !Accepted(c) {
        return Threw;
      }
      if Target(c) !in rows {
        rows := rows[Target(c) := Fresh(c)];
      } else if !SameIdentity(rows[Target(c)], c) {
        return Threw;
      }
      return Validated(rows[Target(c)]);
    }

    method Start(id: OperationId, bindingHash: Digest, at: Instant) returns (a: Answer)
      requires Valid()
      modifies this
      ensures Valid() && (rows, a) == Step(Database, old(rows), Call.Start(id, bindingHash, at))
    {
      StepKeepsRecords(Database, rows, Call.Start(id, bindingHash, at));
      if id in rows && rows[id].bindingHash == bindingHash && rows[id].status == Prepared {
        rows := rows[id := rows[id].(status := InProgress, attemptCount := rows[id].attemptCount + 1,
                                     startedAt := Some(at), updatedAt := at)];
        return if RecordTimes(rows[id]) then Claimed(rows[id]) else Threw;
      }
      if id !in rows {
        return Missing;
      }
      if !RecordTimes(rows[id]) {
        return Threw;
      }
      return if rows[id].bindingHash != bindingHash then BindingConflict else Unclaimed(rows[id]);
    }

    /** The three marking statements and the resolving one differ only in the row they write. */
    method Update(c: Call) returns (a: Answer)
      requires Valid() && (c.MarkSucceeded? || c.MarkFailedFinal? || c.MarkOutcomeUnknown? || c.Resolve?)
      modifies this
      ensures Valid() && (rows, a) == Step(Database, old(rows), c)
    {
      StepKeepsRecords(Database, rows, c);
      if !Accepted(c) || c.id !in rows || rows[c.id].bindingHash != c.bindingHash {
        return Threw;
      }
      var row := rows[c.id];
      var open := row.status == InProgress;
      match c {
        case MarkSucceeded(_, _, reference, at) =>
          if !open && !(row.status == Succeeded && row.outcomeReference == Some(reference)) {
            return Threw;
          }
          row := row.(status := Succeeded, outcomeReference := Some(reference),
                      resolvedAt := Coalesce(row.resolvedAt, at), updatedAt := if open then at else row.updatedAt);
        case MarkFailedFinal(_, _, code, at) =>
          if !open && !(row.status == FailedFinal && row.lastErrorCode == Some(code)) {
            return Threw;
          }
          row := row.(status := FailedFinal, lastErrorCode := Some(code),
                      resolvedAt := Coalesce(row.resolvedAt, at), updatedAt := if open then at else row.updatedAt);
        case MarkOutcomeUnknown(_, _, code, at) =>
          if !open && row.status != OutcomeUnknown {
            return Threw;
          }
          row := row.(status := OutcomeUnknown, lastErrorCode := Coalesce(row.lastErrorCode, code),
                      updatedAt := if open then at else row.updatedAt);
        case Resolve(_, _, _, _, _, _, _, _) =>
          if !open && row.status != OutcomeUnknown {
            return Threw;
          }
          row := Resolved(row, c);
      }
      assert row == rows[c.id] ==> rows[c.id := row] == rows;
      rows := rows[c.id := row];
      return Validated(row);
    }

    /** The query, then each row through the record schema, which may refuse it. `scan` is the order of the table and
        `collation` how it ranks operation ids. */
    method ListUnresolved(updatedBefore: Option<Instant>, limit: Option<int>, scan: seq<OperationId>,
                          collation: (Record, Record) -> bool)
      returns (r: Option<seq<Record>>)
      requires Valid() && forall id :: id in scan <==> id in rows
      ensures r == if limit.Some? && (limit.value < 1 || limit.value > 500) then None
                   else SqlListed(Ordered(rows, scan), updatedBefore, if limit.None? then 100 else limit.value, collation)
    {
      if limit.Some? && !(1 <= limit.value <= 500) {
        return None;
      }
      hide Listed, Ordered, RecordTimes;
      var found := Listed(Ordered(rows, scan), Before(updatedBefore), LimitOf(limit), InTime, collation);
      var operations: seq<Record> := [];
      for i := 0 to |found|
        invariant operations == found[..i] && forall k :: 0 <= k < i ==> RecordTimes(found[k])
      {
        if !RecordTimes(found[i]) {
          return None;
        }
        operations := operations + [found[i]];
      }
      assert found[..|found|] == found;
      r := Some(operations);
    }
  }

  // ---- the unresolved queue ---------------------------------------------------------------------------

  predicate LimitAccepted(limit: Option<int>) {
    limit.Some? ==> 1 <= limit.value <= 500
  }

  function LimitOf(limit: Option<int>): nat
    requires LimitAccepted(limit)
  {
    if limit.None? then 100 else limit.value
  }

  function Unresolved(updatedBefore: Option<Instant>): Record -> bool {
    (r: Record) => r.status in {InProgress, OutcomeUnknown}
                   && (updatedBefore.Some? ==> r.updatedAt < updatedBefore.value)
  }

  /** Where a comparison of ISO texts puts an instant. */
  type TextOrder = Instant -> int

  function UpdateKey(text: TextOrder): Record -> int {
    (r: Record) => text(r.updatedAt)
  }

  function InTime(t: Instant): int {
    t
  }

  /** The in-memory sort breaks no ties. */
  predicate NoRank(a: Record, b: Record) {
    false
  }

  function Ordered(records: Records, order: seq<OperationId>): seq<Record>
    requires forall id :: id in order ==> id in records
  {
    if order == [] then [] else [records[order[0]]] + Ordered(records, order[1..])
  }

  /** The queue over all records in map order, or all rows in table order and ranked by collation. */
  function Listed(all: seq<Record>, updatedBefore: Option<Instant>, limit: nat, text: TextOrder,
                  rank: (Record, Record) -> bool): seq<Record>
  {
    Queue.Oldest(all, Unresolved(updatedBefore), UpdateKey(text), rank, limit)
  }

  /** The cutoff SQL uses when the caller gives none. */
  const NEVER: Instant := 253_402_300_799_999

  function Before(updatedBefore: Option<Instant>): Option<Instant> {
    Some(if updatedBefore.None? then NEVER else updatedBefore.value)
  }

  /** What SQL lists: nothing at all when a listed row holds an instant the record schema refuses. */
  function SqlListed(table: seq<Record>, updatedBefore: Option<Instant>, limit: nat, collation: (Record, Record) -> bool)
    : Option<seq<Record>>
  {
    var found := Listed(table, Before(updatedBefore), limit, InTime, collation);
    if forall k :: 0 <= k < |found| ==> RecordTimes(found[k]) then Some(found) else None
  }

  lemma {:induction false} OrderedAppend(records: Records, order: seq<OperationId>, id: OperationId)
    requires id in records && forall x :: x in order ==> x in records
    ensures Ordered(records, order + [id]) == Ordered(records, order) + [records[id]]
  {
    if order != [] {
      assert (order + [id])[1..] == order[1..] + [id];
      OrderedAppend(records, order[1..], id);
    }
  }

  /** The queue lists unresolved records only, in order, up to the limit, and leaves out no unresolved record that goes
      before one it lists; below the limit it leaves out none at all. */
  lemma QueueListsTheOldest(all: seq<Record>, updatedBefore: Option<Instant>, limit: nat, text: TextOrder,
                            rank: (Record, Record) -> bool, r: Record)
    ensures var listed := Listed(all, updatedBefore, limit, text, rank);
            var open := (r.status == InProgress || r.status == OutcomeUnknown)
                        && (updatedBefore.Some? ==> r.updatedAt < updatedBefore.value);
            && Queue.Sorted(listed, UpdateKey(text)) && |listed| <= limit
            && multiset(listed)[r] <= multiset(all)[r]
            && (r in listed ==> open)
            && (open && multiset(listed)[r] < multiset(all)[r]
                ==> |listed| == limit && forall l :: l in listed ==> text(l.updatedAt) <= text(r.updatedAt))
  {
    Queue.OldestListsTheOldest(all, Unresolved(updatedBefore), UpdateKey(text), rank, limit, r);
    assert forall l: Record :: UpdateKey(text)(l) == text(l.updatedAt);
  }
}
