/** The execution reconciliation journal: one record per external effect, in memory and in SQL.

    Every operation touches the record of one operation id only, so each is specified as a function from that
    record (if any) to the new record and an answer. The two stores are proved against their own functions and
    the functions are compared. */
module Journal {
  import opened Prelude
  import opened Decisions

  datatype Kind = X402Settlement | A2aSettlement | A2aDelegate | Ap2Delegate | EvmBroadcast | MtpConsumption

  /** The digest of rail, kind and execution reference. */
  datatype OperationId = OperationId(rail: Rail, kind: Kind, executionRef: string)

  datatype Status = Prepared | InProgress | Succeeded | FailedFinal | OutcomeUnknown

  datatype Record = Record(operationId: OperationId, rail: Rail, kind: Kind, decisionId: string, actionHash: Digest,
                           executionRef: string, bindingHash: Digest, status: Status, attemptCount: nat,
                           preparedAt: Instant, startedAt: Option<Instant>, updatedAt: Instant,
                           resolvedAt: Option<Instant>, outcomeReference: Option<string>,
                           lastErrorCode: Option<string>, resolvedBy: Option<string>, resolutionNote: Option<string>)

  datatype Resolution = ResolvedSucceeded | ResolvedFailedFinal

  datatype Call =
    | Prepare(rail: Rail, kind: Kind, decisionId: string, actionHash: Digest, executionRef: string,
              bindingHash: Digest, at: Instant)
    | Start(id: OperationId, bindingHash: Digest, at: Instant)
    | MarkSucceeded(id: OperationId, bindingHash: Digest, outcomeReference: string, at: Instant)
    | MarkFailedFinal(id: OperationId, bindingHash: Digest, errorCode: string, at: Instant)
    | MarkOutcomeUnknown(id: OperationId, bindingHash: Digest, errorCode: string, at: Instant)
    | Resolve(id: OperationId, bindingHash: Digest, outcome: Resolution, outcomeRef: string,
              failureCode: Option<string>, resolvedBy: string, note: string, at: Instant)

  datatype Answer =
    | Threw
    | Operation(record: Record)
    | Claimed(record: Record)
    | Unclaimed(record: Record)
    | BindingConflict
    | Missing

  type Records = map<OperationId, Record>

  function Target(c: Call): OperationId {
    if c.Prepare? then OperationId(c.rail, c.kind, c.executionRef) else c.id
  }

  /** The input schemas, which run before any state is read. */
  predicate Accepted(c: Call) {
    match c
    case Prepare(_, _, decisionId, _, executionRef, _, _) => Bounded(decisionId, 128) && Bounded(executionRef, 512)
    case Start(_, _, _) => true
    case MarkSucceeded(_, _, reference, _) => Bounded(reference, 512)
    case MarkFailedFinal(_, _, code, _) => Bounded(code, 128)
    case MarkOutcomeUnknown(_, _, code, _) => Bounded(code, 128)
    case Resolve(_, _, outcome, reference, code, resolver, note, _) =>
      && Bounded(reference, 512) && Bounded(resolver, 128) && Bounded(note, 1024)
      && (code.Some? ==> Bounded(code.value, 128))
      && (outcome == ResolvedFailedFinal ==> code.Some?)
  }

  /** The instants whose ISO text has a plain four-digit year, which is what the record schema accepts. */
  predicate Representable(t: Instant) {
    -62_167_219_200_000 <= t <= 253_402_300_799_999
  }

  predicate RecordTimes(r: Record) {
    && Representable(r.preparedAt)
    && Representable(r.updatedAt)
    && (r.startedAt.Some? ==> Representable(r.startedAt.value))
    && (r.resolvedAt.Some? ==> Representable(r.resolvedAt.value))
  }

  function Fresh(c: Call): Record
    requires c.Prepare?
  {
    Record(Target(c), c.rail, c.kind, c.decisionId, c.actionHash, c.executionRef, c.bindingHash, Prepared, 0,
           c.at, None, c.at, None, None, None, None, None)
  }

  predicate SameIdentity(r: Record, c: Call)
    requires c.Prepare?
  {
    && r.rail == c.rail && r.kind == c.kind && r.decisionId == c.decisionId
    && r.actionHash == c.actionHash && r.executionRef == c.executionRef && r.bindingHash == c.bindingHash
  }

  /** A changed record is answered through the record schema, which may still refuse it. */
  function Validated(r: Record): Answer {
    if RecordTimes(r) then Operation(r) else Threw
  }

  function Resolved(r: Record, c: Call): Record
    requires c.Resolve?
  {
    r.(status := if c.outcome == ResolvedSucceeded then Succeeded else FailedFinal,
       outcomeReference := Some(c.outcomeRef),
       lastErrorCode := if c.outcome == ResolvedFailedFinal then c.failureCode else None,
       resolvedBy := Some(c.resolvedBy), resolutionNote := Some(c.note),
       resolvedAt := Some(c.at), updatedAt := c.at)
  }

  /** The in-memory store. */
  function InMemory(r: Option<Record>, c: Call): (Option<Record>, Answer) {
    if !Accepted(c) then (r, Threw) else
    match c
    case Prepare(_, _, _, _, _, _, _) =>
      if r.Some? then (r, if SameIdentity(r.value, c) then Operation(r.value) else Threw)
      else if RecordTimes(Fresh(c)) then (Some(Fresh(c)), Operation(Fresh(c)))
      else (None, Threw)
    case Start(_, binding, at) =>
      if r.None? then (r, Missing)
      else if r.value.bindingHash != binding then (r, BindingConflict)
      else if r.value.status != Prepared then (r, Unclaimed(r.value))
      else
        var s := r.value.(status := InProgress, attemptCount := r.value.attemptCount + 1, startedAt := Some(at),
                          updatedAt := at);
        (Some(s), Claimed(s))
    case MarkSucceeded(_, binding, reference, at) =>
      if r.None? || r.value.bindingHash != binding then (r, Threw)
      else if r.value.status == Succeeded && r.value.outcomeReference == Some(reference) then (r, Operation(r.value))
      else if r.value.status != InProgress then (r, Threw)
      else
        var s := r.value.(status := Succeeded, outcomeReference := Some(reference), resolvedAt := Some(at),
                          updatedAt := at);
        (Some(s), Validated(s))
    case MarkFailedFinal(_, binding, code, at) =>
      if r.None? || r.value.bindingHash != binding then (r, Threw)
      else if r.value.status == FailedFinal && r.value.lastErrorCode == Some(code) then (r, Operation(r.value))
      else if r.value.status != InProgress then (r, Threw)
      else
        var s := r.value.(status := FailedFinal, lastErrorCode := Some(code), resolvedAt := Some(at), updatedAt := at);
        (Some(s), Validated(s))
    case MarkOutcomeUnknown(_, binding, code, at) =>
      if r.None? || r.value.bindingHash != binding then (r, Threw)
      else if r.value.status == OutcomeUnknown then (r, Operation(r.value))
      else if r.value.status != InProgress then (r, Threw)
      else
        var s := r.value.(status := OutcomeUnknown, lastErrorCode := Some(code), updatedAt := at);
        (Some(s), Validated(s))
    case Resolve(_, binding, _, _, _, _, _, at) =>
      if r.None? || r.value.bindingHash != binding then (r, Threw)
      else if r.value.status != OutcomeUnknown && r.value.status != InProgress then (r, Threw)
      else (Some(Resolved(r.value, c)), Validated(Resolved(r.value, c)))
  }

  function Coalesce<T>(a: Option<T>, b: T): Option<T> {
    if a.Some? then a else Some(b)
  }

  /** The SQL store: each call is one guarded statement, whose returned row goes through the record schema. */
  function Sql(r: Option<Record>, c: Call): (Option<Record>, Answer) {
    if !Accepted(c) then (r, Threw) else
    match c
    case Prepare(_, _, _, _, _, _, _) =>
      var row := if r.None? then Some(Fresh(c)) else r;
      (row, if SameIdentity(row.value, c) then Validated(row.value) else Threw)
    case Start(_, binding, at) =>
      if r.Some? && r.value.bindingHash == binding && r.value.status == Prepared then
        var s := r.value.(status := InProgress, attemptCount := r.value.attemptCount + 1, startedAt := Some(at),
                          updatedAt := at);
        (Some(s), if RecordTimes(s) then Claimed(s) else Threw)
      else if r.None? then (r, Missing)
      else if !RecordTimes(r.value) then (r, Threw)
      else if r.value.bindingHash != binding then (r, BindingConflict)
      else (r, Unclaimed(r.value))
    case MarkSucceeded(_, binding, reference, at) =>
      if r.Some? && r.value.bindingHash == binding
         && (r.value.status == InProgress || (r.value.status == Succeeded && r.value.outcomeReference == Some(reference)))
      then
        var s := r.value.(status := Succeeded, outcomeReference := Some(reference),
                          resolvedAt := Coalesce(r.value.resolvedAt, at),
                          updatedAt := if r.value.status == InProgress then at else r.value.updatedAt);
        (Some(s), Validated(s))
      else (r, Threw)
    case MarkFailedFinal(_, binding, code, at) =>
      if r.Some? && r.value.bindingHash == binding
         && (r.value.status == InProgress || (r.value.status == FailedFinal && r.value.lastErrorCode == Some(code)))
      then
        var s := r.value.(status := FailedFinal, lastErrorCode := Some(code),
                          resolvedAt := Coalesce(r.value.resolvedAt, at),
                          updatedAt := if r.value.status == InProgress then at else r.value.updatedAt);
        (Some(s), Validated(s))
      else (r, Threw)
    case MarkOutcomeUnknown(_, binding, code, at) =>
      if r.Some? && r.value.bindingHash == binding && r.value.status in {InProgress, OutcomeUnknown} then
        var s := r.value.(status := OutcomeUnknown, lastErrorCode := Coalesce(r.value.lastErrorCode, code),
                          updatedAt := if r.value.status == InProgress then at else r.value.updatedAt);
        (Some(s), Validated(s))
      else (r, Threw)
    case Resolve(_, binding, _, _, _, _, _, _) =>
      if r.Some? && r.value.bindingHash == binding && r.value.status in {InProgress, OutcomeUnknown} then
        (Some(Resolved(r.value, c)), Validated(Resolved(r.value, c)))
      else (r, Threw)
  }

  datatype Backend = Memory | Database

  function Apply(store: Backend, r: Option<Record>, c: Call): (Option<Record>, Answer) {
    if store == Memory then InMemory(r, c) else Sql(r, c)
  }

  // ---- what every record satisfies --------------------------------------------------------------------

  predicate Final(s: Status) {
    s == Succeeded || s == FailedFinal
  }

  predicate Evidence(s: Option<string>, max: nat) {
    s.Some? ==> Bounded(s.value, max)
  }

  predicate RecordInv(r: Record) {
    && r.operationId == OperationId(r.rail, r.kind, r.executionRef)
    && Bounded(r.executionRef, 512) && Bounded(r.decisionId, 128)
    && Evidence(r.outcomeReference, 512) && Evidence(r.lastErrorCode, 128)
    && Evidence(r.resolvedBy, 128) && Evidence(r.resolutionNote, 1024)
    && r.attemptCount == (if r.status == Prepared then 0 else 1)
    && (r.startedAt.None? <==> r.status == Prepared)
    && (r.resolvedAt.Some? <==> Final(r.status))
    && (r.resolvedAt.Some? ==> r.resolvedAt.value == r.updatedAt)
    && (r.status == Prepared ==> r.updatedAt == r.preparedAt)
    && (r.status == InProgress ==> r.startedAt == Some(r.updatedAt))
    && (r.lastErrorCode.Some? <==> r.status in {FailedFinal, OutcomeUnknown})
    && (r.outcomeReference.Some? <==> r.status == Succeeded || (r.status == FailedFinal && r.resolvedBy.Some?))
    && (r.resolvedBy.Some? <==> r.resolutionNote.Some?)
    && (r.resolvedBy.Some? ==> Final(r.status))
  }

  predicate Identical(a: Record, b: Record) {
    && a.operationId == b.operationId && a.rail == b.rail && a.kind == b.kind && a.decisionId == b.decisionId
    && a.actionHash == b.actionHash && a.executionRef == b.executionRef && a.bindingHash == b.bindingHash
    && a.preparedAt == b.preparedAt
  }

  /** How far a record has come. */
  function Progress(s: Status): nat {
    match s
    case Prepared => 0
    case InProgress => 1
    case OutcomeUnknown => 2
    case Succeeded => 3
    case FailedFinal => 3
  }

  /** What one call may do to a record: keep its invariant and identity, move it only forward, leave a final record
      alone; only a preparation creates one. */
  predicate Advanced(r: Option<Record>, c: Call, s: Option<Record>) {
    && (r.Some? ==> s.Some?)
    && (s.Some? ==> RecordInv(s.value) && s.value.operationId == Target(c))
    && (r.Some? ==> Identical(r.value, s.value))
    && (r.Some? && s != r ==> Progress(r.value.status) < Progress(s.value.status))
    && (r.Some? && Final(r.value.status) ==> s == r)
    && (r.None? && s.Some? ==> c.Prepare? && s == Some(Fresh(c)))
  }

  lemma MemoryCallsAdvance(r: Option<Record>, c: Call)
    requires r.Some? ==> RecordInv(r.value) && r.value.operationId == Target(c)
    ensures Advanced(r, c, InMemory(r, c).0)
    ensures InMemory(r, c).1.Claimed? <==> c.Start? && r.Some? && r.value.status == Prepared && InMemory(r, c).0 != r
  {
  }

  lemma SqlCallsAdvance(r: Option<Record>, c: Call)
    requires r.Some? ==> RecordInv(r.value) && r.value.operationId == Target(c)
    ensures Advanced(r, c, Sql(r, c).0)
    ensures Sql(r, c).1.Claimed? ==> c.Start? && r.Some? && r.value.status == Prepared && Sql(r, c).0 != r
  {
  }

  // ---- all records together ----------------------------------------------------------------------------

  function Find(records: Records, c: Call): Option<Record> {
    if Target(c) in records then Some(records[Target(c)]) else None
  }

  function Step(store: Backend, records: Records, c: Call): (Records, Answer) {
    var (s, answer) := Apply(store, Find(records, c), c);
    (if s.Some? && s != Find(records, c) then records[Target(c) := s.value] else records, answer)
  }

  function Play(store: Backend, records: Records, calls: seq<Call>)
    : (Records, seq<Answer>)
    decreases |calls|
  {
    if calls == [] then (records, []) else
    var (next, answer) := Step(store, records, calls[0]);
    var (last, answers) := Play(store, next, calls[1..]);
    (last, [answer] + answers)
  }

  predicate RecordsInv(records: Records) {
    forall id :: id in records ==> RecordInv(records[id]) && records[id].operationId == id
  }

  predicate Plain(records: Records) {
    forall id :: id in records ==> RecordTimes(records[id])
  }

  /** A step of either store changes the target's record only, and advances it. */
  lemma StepAdvances(store: Backend, records: Records, c: Call)
    requires RecordsInv(records)
    ensures var next := Step(store, records, c).0;
            && Advanced(Find(records, c), c, Find(next, c))
            && (forall id :: id != Target(c) ==> (id in next <==> id in records))
            && (forall id :: id != Target(c) && id in records ==> next[id] == records[id])
            && (next != records ==> Find(next, c) != Find(records, c))
    ensures Step(store, records, c).1.Claimed? ==>
              c.Start? && c.id in records && records[c.id].status == Prepared && Step(store, records, c).0 != records
  {
    MemoryCallsAdvance(Find(records, c), c);
    SqlCallsAdvance(Find(records, c), c);
  }

  lemma StepKeepsRecords(store: Backend, records: Records, c: Call)
    requires RecordsInv(records)
    ensures RecordsInv(Step(store, records, c).0)
  {
    StepAdvances(store, records, c);
    var next := Step(store, records, c).0;
    forall id | id in next ensures RecordInv(next[id]) && next[id].operationId == id {
      assert id == Target(c) ==> Find(next, c) == Some(next[id]);
    }
  }

  predicate Later(a: Record, b: Record) {
    && Identical(a, b)
    && Progress(a.status) <= Progress(b.status)
    && (Final(a.status) ==> a == b)
  }

  lemma StepAdvancesRecord(store: Backend, records: Records, c: Call, id: OperationId)
    requires RecordsInv(records) && id in records
    ensures id in Step(store, records, c).0 && Later(records[id], Step(store, records, c).0[id])
  {
    StepAdvances(store, records, c);
    assert id == Target(c) ==> Find(records, c) == Some(records[id]);
  }

  /** Nothing is ever removed, identities never change and final states absorb every call, whoever calls. */
  lemma {:induction false} RecordsPersist(store: Backend, records: Records, calls: seq<Call>, id: OperationId)
    requires RecordsInv(records) && id in records
    ensures id in Play(store, records, calls).0 && Later(records[id], Play(store, records, calls).0[id])
    decreases |calls|
  {
    if calls != [] {
      StepAdvancesRecord(store, records, calls[0], id);
      StepKeepsRecords(store, records, calls[0]);
      RecordsPersist(store, Step(store, records, calls[0]).0, calls[1..], id);
    }
  }
}
