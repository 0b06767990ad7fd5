/**
 * Two-phase consumption through the MTP authority (packages/mtp-authority/src/provider.ts): claim the reference,
 * consume at MTP, checkpoint the receipt, consume the signed decision, complete.  Any number of calls interleave,
 * one step per `await`, against either authorisation store.
 */
module Mtp {
  import opened Prelude
  import opened Decisions
  import G = Guard

  datatype Backend = Memory | Database

  datatype ReceiptStatus = FirstUse | Repeat

  datatype Receipt = Receipt(executionRef: string, auditId: string, status: ReceiptStatus)

  /** What MTP approved; it never changes for a decision. */
  datatype Authorization = Authorization(agentId: string, actionHash: Digest, evidence: Digest)

  datatype Record = Record(authorization: Authorization, executionRef: Option<string>, auditId: Option<string>,
                           status: Option<ReceiptStatus>, completedAt: Option<int>)

  type Records = map<string, Record>

  /** `Claim` is all of the in-memory claim but only the first of the two SQL statements; `Examine` is the second. */
  datatype Call =
    | Save(decisionId: string, authorization: Authorization)
    | Get(decisionId: string)
    | Claim(decisionId: string, actionHash: Digest, executionRef: string)
    | Examine(decisionId: string, actionHash: Digest, executionRef: string)
    | MarkConsumed(decisionId: string, executionRef: string, receipt: Receipt)
    | MarkComplete(decisionId: string, executionRef: string, at: int)

  datatype Answer = Saved | Found(record: Option<Record>) | Claimed | Idempotent | Conflict | Missing | Unmatched | Threw

  predicate RefTaken(records: Records, decisionId: string, agentId: string, ref: string) {
    exists id :: id in records && id != decisionId && records[id].authorization.agentId == agentId
                 && records[id].executionRef == Some(ref)
  }

  function ClaimStep(b: Backend, records: Records, id: string, hash: Digest, ref: string): (Records, Answer) {
    if id !in records then (records, if b.Memory? then Missing else Unmatched)
    else
      var r := records[id];
      if r.authorization.actionHash != hash then (records, if b.Memory? then Conflict else Unmatched)
      else if r.executionRef.None? then
        if RefTaken(records, id, r.authorization.agentId, ref) then (records, Conflict)
        else (records[id := r.(executionRef := Some(ref))], Claimed)
      else (records, if b.Database? then Unmatched else if r.executionRef.value == ref then Idempotent else Conflict)
  }

  function MarkStep(b: Backend, records: Records, id: string, ref: string, receipt: Receipt): (Records, Answer) {
    if id !in records || records[id].executionRef != Some(ref) || receipt.executionRef != ref
       || (records[id].auditId.Some? && records[id].auditId.value != receipt.auditId)
       || (b.Database? && records[id].status.Some? && records[id].status.value != receipt.status)
    then (records, Threw)
    else (records[id := records[id].(auditId := Some(receipt.auditId), status := Some(receipt.status))], Saved)
  }

  function Apply(b: Backend, records: Records, call: Call): (Records, Answer) {
    match call
    case Save(id, authorization) =>
      if id !in records then (records[id := Record(authorization, None, None, None, None)], Saved)
      else (records, if records[id].authorization == authorization then Saved else Threw)
    case Get(id) => (records, Found(if id in records then Some(records[id]) else None))
    case Claim(id, hash, ref) => ClaimStep(b, records, id, hash, ref)
    case Examine(id, hash, ref) =>
      (records, if id !in records then Missing
                else if records[id].authorization.actionHash == hash && records[id].executionRef == Some(ref)
                then Idempotent else Conflict)
    case MarkConsumed(id, ref, receipt) => MarkStep(b, records, id, ref, receipt)
    case MarkComplete(id, ref, at) =>
      if id !in records || records[id].executionRef != Some(ref) || records[id].auditId.None? then (records, Threw)
      else (records[id := records[id].(completedAt :=
              if records[id].completedAt.Some? then records[id].completedAt else Some(at))], Saved)
  }

  // ----- what the stores keep

  /** Completion implies a receipt, a receipt implies a claim. */
  predicate RecordInv(r: Record) {
    && (r.completedAt.Some? ==> r.auditId.Some?)
    && (r.auditId.Some? ==> r.executionRef.Some?)
    && (r.auditId.Some? <==> r.status.Some?)
  }

  ghost predicate RecordsInv(records: Records) {
    && (forall id :: id in records ==> RecordInv(records[id]))
    && (forall a, b :: a in records && b in records && a != b && records[a].executionRef.Some?
          && records[a].executionRef == records[b].executionRef
          ==> records[a].authorization.agentId != records[b].authorization.agentId)
  }

  /** What was written stays as it was written. */
  predicate Advanced(b: Backend, r: Record, t: Record) {
    && t.authorization == r.authorization
    && (r.executionRef.Some? ==> t.executionRef == r.executionRef)
    && (r.auditId.Some? ==> t.auditId == r.auditId)
    && (r.completedAt.Some? ==> t.completedAt == r.completedAt)
    && (r.status.Some? ==> t.status.Some?)
    && (b.Database? && r.status.Some? ==> t.status == r.status)
  }

  ghost predicate RecordsAdvanced(b: Backend, a: Records, c: Records) {
    forall id :: id in a ==> id in c && Advanced(b, a[id], c[id])
  }

  /** Rewriting one record. */
  lemma OneRecordKept(b: Backend, records: Records, id: string, r: Record)
    requires RecordsInv(records) && id in records && RecordInv(r) && Advanced(b, records[id], r)
    requires r.executionRef == records[id].executionRef
          || (r.executionRef.Some? && !RefTaken(records, id, r.authorization.agentId, r.executionRef.value))
    ensures RecordsInv(records[id := r]) && RecordsAdvanced(b, records, records[id := r])
  {
    hide RecordInv, Advanced;
    assert forall a :: Advanced(b, a, a) by { EverythingAdvances(b); }
    var t := records[id := r];
    forall a, c | a in t && c in t && a != c && t[a].executionRef.Some? && t[a].executionRef == t[c].executionRef
      ensures t[a].authorization.agentId != t[c].authorization.agentId
    {
      SameOwner(b, records[id], r);
    }
  }

  lemma EverythingAdvances(b: Backend)
    ensures forall r :: Advanced(b, r, r)
  {
  }

  lemma SameOwner(b: Backend, r: Record, t: Record)
    requires Advanced(b, r, t)
    ensures t.authorization == r.authorization
  {
  }

  lemma ApplyKeepsRecords(b: Backend, records: Records, call: Call)
    requires RecordsInv(records)
    ensures RecordsInv(Apply(b, records, call).0)
    ensures RecordsAdvanced(b, records, Apply(b, records, call).0)
  {
    var after := Apply(b, records, call).0;
    if call.Save? {
      SaveKeepsRecords(b, records, call.decisionId, call.authorization);
    } else if call.Get? || call.Examine? || after == records {
      EverythingAdvances(b);
    } else {
      var id := call.decisionId;
      assert RecordInv(records[id]);
      assert after == records[id := after[id]];
      hide RecordsInv, RecordsAdvanced;
      OneRecordKept(b, records, id, after[id]);
    }
  }

  lemma SaveKeepsRecords(b: Backend, records: Records, id: string, authorization: Authorization)
    requires RecordsInv(records)
    ensures var after := Apply(b, records, Save(id, authorization)).0;
            RecordsInv(after) && RecordsAdvanced(b, records, after)
  {
    EverythingAdvances(b);
    hide Advanced;
  }

  // ----- the machine

  datatype Config = Config(store: Backend, idempotent: bool)

  datatype Args = Args(decisionId: string, actionHash: Digest, executionRef: string)

  datatype Outcome =
    | BadReference
    | Unavailable
    | HashMismatch
    | NonceConflict
    | NotAllow
    | Failed
    | InnerRejected
    | Succeeded
    | Crashed

  datatype Pc =
    | Entering
    | Looking
    | Claiming
    | Examining
    | Rereading
    | Calling
    | Marking(receipt: Receipt)
    | LookingUp
    | Consuming(issued: Option<Body>)
    | Completing
    | Done(outcome: Outcome)

  datatype Thread = Thread(args: Args, pc: Pc)

  /** The use MTP recorded of a decision's approval. */
  datatype Use = Use(executionRef: string, auditId: string)

  type Consumptions = map<(string, string), G.Consumption>

  datatype State = State(records: Records, mtp: map<string, Use>, decisions: map<string, Body>,
                         consumed: Consumptions, calls: map<nat, Thread>)

  /** MTP's mood, the audit id it would write, and whether the local provider refuses for reasons of its own. */
  datatype Weather = Weather(now: int, fault: Fault, denied: bool, auditId: string, refused: bool)

  datatype Label =
    | Begin(pid: nat, args: Args)
    | Go(pid: nat, w: Weather)
    | Crash(pid: nat)
    | Issue(body: Body)
    | OtherStore(call: Call)

  predicate IsBlank(c: char) {
    || '\U{9}' <= c <= '\U{D}' || c == ' ' || c == '\U{A0}' || c == '\U{1680}' || '\U{2000}' <= c <= '\U{200A}'
    || c in "\U{2028}\U{2029}\U{202F}\U{205F}\U{3000}\U{FEFF}"
  }

  predicate UsableRef(ref: string) {
    |ref| <= 512 && exists i :: 0 <= i < |ref| && !IsBlank(ref[i])
  }

  function At(s: State, pid: nat, pc: Pc): (t: State)
    requires pid in s.calls
    ensures pid in t.calls && t.calls[pid].args == s.calls[pid].args
  {
    s.(calls := s.calls[pid := s.calls[pid].(pc := pc)])
  }

  /** A store call that may be lost on the way there or back. */
  function Ask(cfg: Config, s: State, call: Call, fault: Fault): (State, Answer) {
    if fault == LostRequest then (s, Threw)
    else
      var (records, answer) := Apply(cfg.store, s.records, call);
      (s.(records := records), if fault == LostAnswer then Threw else answer)
  }

  /** MTP's answer to a use of the approval: first use, repeat of the same use if MTP is idempotent, or rejection. */
  function Present(cfg: Config, mtp: map<string, Use>, args: Args, w: Weather): (map<string, Use>, Option<Receipt>) {
    var id, ref := args.decisionId, args.executionRef;
    if w.denied then (mtp, None)
    else if id !in mtp then (mtp[id := Use(ref, w.auditId)], Some(Receipt(ref, w.auditId, FirstUse)))
    else if mtp[id].executionRef == ref && cfg.idempotent then (mtp, Some(Receipt(ref, mtp[id].auditId, Repeat)))
    else (mtp, None)
  }

  function ClaimPc(answer: Answer): Pc {
    match answer
    case Claimed => Rereading
    case Idempotent => Rereading
    case Unmatched => Examining
    case Missing => Done(Unavailable)
    case Conflict => Done(NonceConflict)
    case _ => Done(Failed)
  }

  function Look(cfg: Config, s: State, pid: nat, w: Weather): (t: State)
    requires pid in s.calls
    ensures pid in t.calls && t.calls[pid].args == s.calls[pid].args
  {
    var args := s.calls[pid].args;
    At(s, pid, match Ask(cfg, s, Get(args.decisionId), w.fault).1
               case Found(None) => Done(Unavailable)
               case Found(Some(r)) =>
                 if r.authorization.actionHash == args.actionHash then Claiming else Done(HashMismatch)
               case _ => Done(Failed))
  }

  function ClaimRef(cfg: Config, s: State, pid: nat, w: Weather): (t: State)
    requires pid in s.calls
    ensures pid in t.calls && t.calls[pid].args == s.calls[pid].args
  {
    var args := s.calls[pid].args;
    var (t, answer) := Ask(cfg, s, Claim(args.decisionId, args.actionHash, args.executionRef), w.fault);
    At(t, pid, ClaimPc(answer))
  }

  function ExamineRef(cfg: Config, s: State, pid: nat, w: Weather): (t: State)
    requires pid in s.calls
    ensures pid in t.calls && t.calls[pid].args == s.calls[pid].args
  {
    var args := s.calls[pid].args;
    At(s, pid, ClaimPc(Ask(cfg, s, Examine(args.decisionId, args.actionHash, args.executionRef), w.fault).1))
  }

  function Reread(cfg: Config, s: State, pid: nat, w: Weather): (t: State)
    requires pid in s.calls
    ensures pid in t.calls && t.calls[pid].args == s.calls[pid].args
  {
    At(s, pid, match Ask(cfg, s, Get(s.calls[pid].args.decisionId), w.fault).1
               case Found(None) => Done(Unavailable)
               case Found(Some(r)) => if r.auditId.None? then Calling else LookingUp
               case _ => Done(Failed))
  }

  function CallMtp(cfg: Config, s: State, pid: nat, w: Weather): (t: State)
    requires pid in s.calls
    ensures pid in t.calls && t.calls[pid].args == s.calls[pid].args
  {
    if w.fault == LostRequest then At(s, pid, Done(Failed))
    else
      var (mtp, receipt) := Present(cfg, s.mtp, s.calls[pid].args, w);
      At(s.(mtp := mtp), pid,
         if w.fault == LostAnswer then Done(Failed)
         else match receipt case None => Done(NotAllow) case Some(r) => Marking(r))
  }

  function Checkpoint(cfg: Config, s: State, pid: nat, w: Weather): (t: State)
    requires pid in s.calls && s.calls[pid].pc.Marking?
    ensures pid in t.calls && t.calls[pid].args == s.calls[pid].args
  {
    var args := s.calls[pid].args;
    var (t, answer) := Ask(cfg, s, MarkConsumed(args.decisionId, args.executionRef, s.calls[pid].pc.receipt), w.fault);
    At(t, pid, if answer.Saved? then LookingUp else Done(Failed))
  }

  function LookUp(cfg: Config, s: State, pid: nat, w: Weather): (t: State)
    requires pid in s.calls
    ensures pid in t.calls && t.calls[pid].args == s.calls[pid].args
  {
    var id := s.calls[pid].args.decisionId;
    At(s, pid, if w.fault != NoFault then Done(Failed)
               else Consuming(if id in s.decisions then Some(s.decisions[id]) else None))
  }

  function Consume(cfg: Config, s: State, pid: nat, w: Weather): (t: State)
    requires pid in s.calls && s.calls[pid].pc.Consuming?
    ensures pid in t.calls && t.calls[pid].args == s.calls[pid].args
  {
    var args := s.calls[pid].args;
    if w.fault == LostRequest then At(s, pid, Done(Failed))
    else
      var (consumed, success) := G.ConsumeIssued(s.consumed, s.calls[pid].pc.issued, args.actionHash,
                                                 args.executionRef, w.now, w.refused);
      At(s.(consumed := consumed), pid,
         if w.fault == LostAnswer then Done(Failed) else if success then Completing else Done(InnerRejected))
  }

  function Complete(cfg: Config, s: State, pid: nat, w: Weather): (t: State)
    requires pid in s.calls
    ensures pid in t.calls && t.calls[pid].args == s.calls[pid].args
  {
    var args := s.calls[pid].args;
    var (t, answer) := Ask(cfg, s, MarkComplete(args.decisionId, args.executionRef, w.now), w.fault);
    At(t, pid, Done(if answer.Saved? then Succeeded else Failed))
  }

  function Advance(cfg: Config, s: State, pid: nat, w: Weather): (t: State)
    requires pid in s.calls
    ensures pid in t.calls && t.calls[pid].args == s.calls[pid].args
  {
    match s.calls[pid].pc
    case Entering => At(s, pid, if UsableRef(s.calls[pid].args.executionRef) then Looking else Done(BadReference))
    case Looking => Look(cfg, s, pid, w)
    case Claiming => ClaimRef(cfg, s, pid, w)
    case Examining => ExamineRef(cfg, s, pid, w)
    case Rereading => Reread(cfg, s, pid, w)
    case Calling => CallMtp(cfg, s, pid, w)
    case Marking(_) => Checkpoint(cfg, s, pid, w)
    case LookingUp => LookUp(cfg, s, pid, w)
    case Consuming(_) => Consume(cfg, s, pid, w)
    case Completing => Complete(cfg, s, pid, w)
    case Done(_) => s
  }

  function Exec(cfg: Config, s: State, l: Label): State {
    match l
    case Begin(pid, args) => if pid in s.calls then s else s.(calls := s.calls[pid := Thread(args, Entering)])
    case Go(pid, w) => if pid in s.calls then Advance(cfg, s, pid, w) else s
    case Crash(pid) => if pid in s.calls && !s.calls[pid].pc.Done? then At(s, pid, Done(Crashed)) else s
    case Issue(body) =>
      if body.decisionId in s.decisions then s else s.(decisions := s.decisions[body.decisionId := body])
    case OtherStore(call) => s.(records := Apply(cfg.store, s.records, call).0)
  }

  function Run(cfg: Config, s: State, labels: seq<Label>): State
    decreases |labels|
  {
    if labels == [] then s else Run(cfg, Exec(cfg, s, labels[0]), labels[1..])
  }

  const INITIAL := State(map[], map[], map[], map[], map[])

  // ----- the invariant

  predicate ClaimedFor(records: Records, id: string, ref: string) {
    id in records && records[id].executionRef == Some(ref)
  }

  predicate CheckpointedFor(records: Records, id: string, ref: string) {
    ClaimedFor(records, id, ref) && records[id].auditId.Some?
  }

  predicate ThreadInv(s: State, t: Thread) {
    var id, ref := t.args.decisionId, t.args.executionRef;
    && (t.pc.Rereading? || t.pc.Calling? || t.pc.Marking? ==> ClaimedFor(s.records, id, ref))
    && (t.pc.LookingUp? || t.pc.Consuming? || t.pc.Completing? ==> CheckpointedFor(s.records, id, ref))
    && (t.pc.Consuming? && t.pc.issued.Some? ==> id in s.decisions && s.decisions[id] == t.pc.issued.value)
  }

  /** Uses at MTP and consumptions of decisions are under claimed references, the latter after the checkpoint. */
  ghost predicate Ordered(s: State) {
    && (forall id :: id in s.mtp ==> ClaimedFor(s.records, id, s.mtp[id].executionRef))
    && (forall key :: key in s.consumed ==> CheckpointedFor(s.records, key.0, s.consumed[key].executionRef))
    && (forall key :: key in s.consumed ==>
          key.0 in s.decisions && s.consumed[key].actionHash == s.decisions[key.0].actionHash)
    && (forall id :: id in s.decisions ==> s.decisions[id].decisionId == id)
  }

  ghost predicate Inv(s: State) {
    && RecordsInv(s.records) && Ordered(s)
    && (forall pid :: pid in s.calls ==> ThreadInv(s, s.calls[pid]))
  }

  lemma RecordsMove(cfg: Config, s: State, call: Call)
    requires Inv(s)
    ensures var t := s.(records := Apply(cfg.store, s.records, call).0);
            Inv(t) && RecordsAdvanced(cfg.store, s.records, t.records)
  {
    ApplyKeepsRecords(cfg.store, s.records, call);
    hide Apply, RecordsInv;
  }

  lemma ClaimLeads(cfg: Config, s: State, args: Args, call: Call)
    requires call == Claim(args.decisionId, args.actionHash, args.executionRef)
          || call == Examine(args.decisionId, args.actionHash, args.executionRef)
    ensures var (records, answer) := Apply(cfg.store, s.records, call);
            answer.Claimed? || answer.Idempotent? ==> ClaimedFor(records, args.decisionId, args.executionRef)
  {
  }

  lemma MarkLeads(cfg: Config, s: State, args: Args, receipt: Receipt)
    ensures var (records, answer) := Apply(cfg.store, s.records, MarkConsumed(args.decisionId, args.executionRef, receipt));
            answer.Saved? ==> CheckpointedFor(records, args.decisionId, args.executionRef)
  {
  }

  /** Moving one thread, with the shared state as it is. */
  lemma ThreadMoves(s: State, pid: nat, pc: Pc)
    requires Inv(s) && pid in s.calls && ThreadInv(s, s.calls[pid].(pc := pc))
    ensures Inv(At(s, pid, pc))
  {
    var t := At(s, pid, pc);
    forall p | p in t.calls ensures ThreadInv(t, t.calls[p]) {
      assert p != pid ==> t.calls[p] == s.calls[p];
    }
  }

  lemma AskKeepsInv(cfg: Config, s: State, call: Call, fault: Fault)
    requires Inv(s)
    ensures Inv(Ask(cfg, s, call, fault).0)
    ensures Ask(cfg, s, call, fault).0.calls == s.calls
    ensures RecordsAdvanced(cfg.store, s.records, Ask(cfg, s, call, fault).0.records)
  {
    RecordsMove(cfg, s, call);
    hide Apply;
  }

  lemma AdvanceKeepsInv(cfg: Config, s: State, pid: nat, w: Weather)
    requires Inv(s) && pid in s.calls
    ensures Inv(Advance(cfg, s, pid, w))
    ensures RecordsAdvanced(cfg.store, s.records, Advance(cfg, s, pid, w).records)
  {
    hide Inv, Advance;
    match s.calls[pid].pc
    case Claiming => ClaimingKeepsInv(cfg, s, pid, w);
    case Examining => ExaminingKeepsInv(cfg, s, pid, w);
    case Calling => CallingKeepsInv(cfg, s, pid, w);
    case Marking(_) => MarkingKeepsInv(cfg, s, pid, w);
    case Consuming(_) => ConsumingKeepsInv(cfg, s, pid, w);
    case Completing => CompletingKeepsInv(cfg, s, pid, w);
    case _ => ReadingKeepsInv(cfg, s, pid, w);
  }

  lemma ReadingKeepsInv(cfg: Config, s: State, pid: nat, w: Weather)
    requires Inv(s) && pid in s.calls
    requires var pc := s.calls[pid].pc; pc.Entering? || pc.Looking? || pc.Rereading? || pc.LookingUp? || pc.Done?
    ensures Inv(Advance(cfg, s, pid, w))
    ensures RecordsAdvanced(cfg.store, s.records, Advance(cfg, s, pid, w).records)
  {
    hide ClaimRef, ExamineRef, CallMtp, Checkpoint, Consume, Complete;
    hide Present, G.ConsumeIssued, ClaimStep, MarkStep, UsableRef, RecordsInv, Ordered;
    var pc := Advance(cfg, s, pid, w).calls[pid].pc;
    assert Advance(cfg, s, pid, w) == At(s, pid, pc);
    assert ThreadInv(s, s.calls[pid]);
    assert ThreadInv(s, s.calls[pid].(pc := pc));
    ThreadMoves(s, pid, pc);
  }

  lemma ClaimingKeepsInv(cfg: Config, s: State, pid: nat, w: Weather)
    requires Inv(s) && pid in s.calls && s.calls[pid].pc.Claiming?
    ensures Inv(Advance(cfg, s, pid, w))
    ensures RecordsAdvanced(cfg.store, s.records, Advance(cfg, s, pid, w).records)
  {
    hide Look, ExamineRef, Reread, CallMtp, Checkpoint, LookUp, Consume, Complete;
    var args := s.calls[pid].args;
    var call := Claim(args.decisionId, args.actionHash, args.executionRef);
    AskKeepsInv(cfg, s, call, w.fault);
    ClaimLeads(cfg, s, args, call);
    hide Apply, Inv;
    var (t, answer) := Ask(cfg, s, call, w.fault);
    ThreadMoves(t, pid, ClaimPc(answer));
  }

  lemma ExaminingKeepsInv(cfg: Config, s: State, pid: nat, w: Weather)
    requires Inv(s) && pid in s.calls && s.calls[pid].pc.Examining?
    ensures Inv(Advance(cfg, s, pid, w))
    ensures Advance(cfg, s, pid, w).records == s.records
  {
    hide Look, ClaimRef, Reread, CallMtp, Checkpoint, LookUp, Consume, Complete;
    var args := s.calls[pid].args;
    var call := Examine(args.decisionId, args.actionHash, args.executionRef);
    ClaimLeads(cfg, s, args, call);
    assert Apply(cfg.store, s.records, call).0 == s.records;
    hide Apply, Inv;
    ThreadMoves(s, pid, ClaimPc(Ask(cfg, s, call, w.fault).1));
  }

  /** A store call, then a step of the thread that made it. */
  lemma AskThenMoves(cfg: Config, s: State, pid: nat, call: Call, fault: Fault, pc: Pc)
    requires Inv(s) && pid in s.calls && ThreadInv(Ask(cfg, s, call, fault).0, s.calls[pid].(pc := pc))
    ensures Ask(cfg, s, call, fault).0.calls == s.calls
    ensures var t := At(Ask(cfg, s, call, fault).0, pid, pc);
            Inv(t) && RecordsAdvanced(cfg.store, s.records, t.records)
  {
    hide Apply, Inv, RecordsAdvanced;
    AskKeepsInv(cfg, s, call, fault);
    ThreadMoves(Ask(cfg, s, call, fault).0, pid, pc);
  }

  lemma MarkingKeepsInv(cfg: Config, s: State, pid: nat, w: Weather)
    requires Inv(s) && pid in s.calls && s.calls[pid].pc.Marking?
    ensures Inv(Advance(cfg, s, pid, w))
    ensures RecordsAdvanced(cfg.store, s.records, Advance(cfg, s, pid, w).records)
  {
    hide Inv, Look, ClaimRef, ExamineRef, Reread, CallMtp, LookUp, Consume, Complete, Apply, RecordsAdvanced;
    var args := s.calls[pid].args;
    var call := MarkConsumed(args.decisionId, args.executionRef, s.calls[pid].pc.receipt);
    MarkLeads(cfg, s, args, s.calls[pid].pc.receipt);
    var pc := if Ask(cfg, s, call, w.fault).1.Saved? then LookingUp else Done(Failed);
    AskThenMoves(cfg, s, pid, call, w.fault, pc);
  }

  lemma CompletingKeepsInv(cfg: Config, s: State, pid: nat, w: Weather)
    requires Inv(s) && pid in s.calls && s.calls[pid].pc.Completing?
    ensures Inv(Advance(cfg, s, pid, w))
    ensures RecordsAdvanced(cfg.store, s.records, Advance(cfg, s, pid, w).records)
  {
    hide Inv, Look, ClaimRef, ExamineRef, Reread, CallMtp, Checkpoint, LookUp, Consume, Apply, RecordsAdvanced;
    var args := s.calls[pid].args;
    var call := MarkComplete(args.decisionId, args.executionRef, w.now);
    var pc := Done(if Ask(cfg, s, call, w.fault).1.Saved? then Succeeded else Failed);
    AskThenMoves(cfg, s, pid, call, w.fault, pc);
  }

  lemma SharedMoves(s: State, t: State)
    requires Inv(s) && Ordered(t) && t.records == s.records && t.decisions == s.decisions && t.calls == s.calls
    ensures Inv(t)
  {
    hide RecordsInv, Ordered;
    forall p | p in t.calls ensures ThreadInv(t, t.calls[p]) {
      assert ThreadInv(s, s.calls[p]);
    }
  }

  lemma CallingKeepsInv(cfg: Config, s: State, pid: nat, w: Weather)
    requires Inv(s) && pid in s.calls && s.calls[pid].pc.Calling?
    ensures Inv(Advance(cfg, s, pid, w))
    ensures Advance(cfg, s, pid, w).records == s.records
  {
    hide Look, ClaimRef, ExamineRef, Reread, Checkpoint, LookUp, Consume, Complete, RecordsInv;
    var (mtp, receipt) := Present(cfg, s.mtp, s.calls[pid].args, w);
    var t := if w.fault == LostRequest then s else s.(mtp := mtp);
    assert ThreadInv(s, s.calls[pid]);
    SharedMoves(s, t);
    hide Inv, Ordered;
    ThreadMoves(t, pid, Advance(cfg, s, pid, w).calls[pid].pc);
  }

  lemma ConsumingKeepsInv(cfg: Config, s: State, pid: nat, w: Weather)
    requires Inv(s) && pid in s.calls && s.calls[pid].pc.Consuming?
    ensures Inv(Advance(cfg, s, pid, w))
    ensures Advance(cfg, s, pid, w).records == s.records
  {
    hide Look, ClaimRef, ExamineRef, Reread, CallMtp, Checkpoint, LookUp, Complete, RecordsInv;
    assert ThreadInv(s, s.calls[pid]);
    ConsumedIsOrdered(s, s.calls[pid], w);
    hide Inv, Ordered, G.ConsumeIssued;
    var args := s.calls[pid].args;
    var (consumed, success) := G.ConsumeIssued(s.consumed, s.calls[pid].pc.issued, args.actionHash,
                                               args.executionRef, w.now, w.refused);
    var t := if w.fault == LostRequest then s else s.(consumed := consumed);
    SharedMoves(s, t);
    ThreadMoves(t, pid, Advance(cfg, s, pid, w).calls[pid].pc);
  }

  lemma ConsumedIsOrdered(s: State, t: Thread, w: Weather)
    requires Ordered(s) && t.pc.Consuming? && ThreadInv(s, t)
    ensures Ordered(s)
    ensures Ordered(s.(consumed := G.ConsumeIssued(s.consumed, t.pc.issued, t.args.actionHash, t.args.executionRef,
                                                   w.now, w.refused).0))
  {
  }

  lemma ExecKeepsInv(cfg: Config, s: State, l: Label)
    requires Inv(s)
    ensures Inv(Exec(cfg, s, l)) && RecordsAdvanced(cfg.store, s.records, Exec(cfg, s, l).records)
  {
    match l
    case Go(pid, w) =>
      hide Inv, Advance, Advanced;
      if pid in s.calls { AdvanceKeepsInv(cfg, s, pid, w); }
    case Crash(pid) =>
      if pid in s.calls && !s.calls[pid].pc.Done? {
        assert ThreadInv(s, s.calls[pid].(pc := Done(Crashed)));
        ThreadMoves(s, pid, Done(Crashed));
      }
    case OtherStore(call) =>
      RecordsMove(cfg, s, call);
    case Begin(_, _) => BeginKeepsInv(cfg, s, l);
    case Issue(_) => IssueKeepsInv(cfg, s, l);
  }

  lemma BeginKeepsInv(cfg: Config, s: State, l: Label)
    requires Inv(s) && l.Begin?
    ensures Inv(Exec(cfg, s, l)) && Exec(cfg, s, l).records == s.records
  {
    var t := Exec(cfg, s, l);
    hide RecordsInv;
    forall p | p in t.calls ensures ThreadInv(t, t.calls[p]) {
      assert p in s.calls ==> ThreadInv(s, s.calls[p]);
    }
  }

  lemma IssueKeepsInv(cfg: Config, s: State, l: Label)
    requires Inv(s) && l.Issue?
    ensures Inv(Exec(cfg, s, l)) && Exec(cfg, s, l).records == s.records
  {
    hide RecordsInv;
  }

  lemma {:induction false} RunKeepsInv(cfg: Config, s: State, labels: seq<Label>)
    requires Inv(s)
    ensures Inv(Run(cfg, s, labels)) && RecordsAdvanced(cfg.store, s.records, Run(cfg, s, labels).records)
    decreases |labels|
  {
    hide Inv, Exec;
    if labels != [] {
      ExecKeepsInv(cfg, s, labels[0]);
      RunKeepsInv(cfg, Exec(cfg, s, labels[0]), labels[1..]);
    }
  }

  // ----- safety of every run

  /** In every run, a consumed decision was consumed under the reference its record claimed, with MTP's receipt
      already checkpointed; MTP only ever saw the claimed reference. */
  lemma ConsumedAfterCheckpoint(cfg: Config, labels: seq<Label>)
    ensures Ordered(Run(cfg, INITIAL, labels))
  {
    RunKeepsInv(cfg, INITIAL, labels);
  }

  /** Through every further step the reference, the audit id and the completion stay as first written, completion
      implies a receipt and a receipt implies a claim, and no two decisions of one agent share a reference. */
  lemma EvidenceIsWriteOnce(cfg: Config, labels: seq<Label>, more: seq<Label>)
    ensures var s := Run(cfg, INITIAL, labels);
            var t := Run(cfg, s, more);
            RecordsAdvanced(cfg.store, s.records, t.records) && RecordsInv(t.records)
  {
    RunKeepsInv(cfg, INITIAL, labels);
    RunKeepsInv(cfg, Run(cfg, INITIAL, labels), more);
  }

  // ----- a call that runs undisturbed

  /** Nothing is lost, and neither MTP nor the local provider refuses for reasons of its own. */
  function Fair(now: int, auditId: string): Weather {
    Weather(now, NoFault, false, auditId, false)
  }

  function Steps(cfg: Config, s: State, pid: nat, w: Weather, n: nat): State
    requires pid in s.calls
    decreases n
  {
    if n == 0 then s else Steps(cfg, Advance(cfg, s, pid, w), pid, w, n - 1)
  }

  /** The call ends with this outcome; after a success its record is complete under its reference. */
  predicate Ends(cfg: Config, s: State, pid: nat, w: Weather, n: nat, outcome: Outcome)
    requires pid in s.calls
  {
    var t := Steps(cfg, s, pid, w, n);
    && pid in t.calls && t.calls[pid].pc == Done(outcome)
    && (outcome == Succeeded ==>
          && CheckpointedFor(t.records, s.calls[pid].args.decisionId, s.calls[pid].args.executionRef)
          && t.records[s.calls[pid].args.decisionId].completedAt.Some?)
  }

  lemma {:induction false} DoneStays(cfg: Config, s: State, pid: nat, w: Weather, n: nat)
    requires pid in s.calls && s.calls[pid].pc.Done?
    ensures Steps(cfg, s, pid, w, n) == s
  {
    if n > 0 { DoneStays(cfg, s, pid, w, n - 1); }
  }

  /** One step back from the end. */
  lemma Earlier(cfg: Config, s: State, pid: nat, w: Weather, n: nat, outcome: Outcome)
    requires pid in s.calls && n >= 1 && Ends(cfg, Advance(cfg, s, pid, w), pid, w, n - 1, outcome)
    ensures Ends(cfg, s, pid, w, n, outcome)
  {
    hide Advance;
    assert Steps(cfg, s, pid, w, n) == Steps(cfg, Advance(cfg, s, pid, w), pid, w, n - 1);
  }

  lemma Stops(cfg: Config, s: State, pid: nat, w: Weather, n: nat, outcome: Outcome)
    requires pid in s.calls && n >= 1 && outcome != Succeeded
    requires Advance(cfg, s, pid, w).calls[pid].pc == Done(outcome)
    ensures Ends(cfg, s, pid, w, n, outcome)
  {
    DoneStays(cfg, Advance(cfg, s, pid, w), pid, w, n - 1);
  }

  /** The signed decision is an unexpired ALLOW of the action, consumed by nobody or under this reference. */
  predicate ConsumptionSucceeds(s: State, args: Args, w: Weather) {
    var id := args.decisionId;
    && id in s.decisions && s.decisions[id].verdict == Allow && s.decisions[id].actionHash == args.actionHash
    && w.now < s.decisions[id].expiresAt
    && var key := (s.decisions[id].decisionId, s.decisions[id].nonce);
       key in s.consumed ==> s.consumed[key] == G.Consumption(args.actionHash, args.executionRef)
  }

  lemma ConsumptionMeans(s: State, args: Args, w: Weather)
    ensures var issued := if args.decisionId in s.decisions then Some(s.decisions[args.decisionId]) else None;
            ConsumptionSucceeds(s, args, w)
            == G.ConsumeIssued(s.consumed, issued, args.actionHash, args.executionRef, w.now, false).1
  {
    hide G.ConsumeIssued;
    var issued := if args.decisionId in s.decisions then Some(s.decisions[args.decisionId]) else None;
    G.ConsumesExactly(s.consumed, issued, args.actionHash, args.executionRef, w.now, false);
  }

  /** How a call goes on whose receipt is on file. */
  function Consumed(s: State, args: Args, w: Weather): Outcome {
    if ConsumptionSucceeds(s, args, w) then Succeeded else InnerRejected
  }

  lemma FromCompleting(cfg: Config, s: State, pid: nat, w: Weather, n: nat)
    requires pid in s.calls && s.calls[pid].pc.Completing? && n >= 1 && w.fault == NoFault
    requires CheckpointedFor(s.records, s.calls[pid].args.decisionId, s.calls[pid].args.executionRef)
    ensures Ends(cfg, s, pid, w, n, Succeeded)
  {
    hide Look, ClaimRef, ExamineRef, Reread, CallMtp, Checkpoint, LookUp, Consume;
    DoneStays(cfg, Advance(cfg, s, pid, w), pid, w, n - 1);
  }

  lemma FromLookingUp(cfg: Config, s: State, pid: nat, w: Weather, n: nat)
    requires pid in s.calls && s.calls[pid].pc.LookingUp? && n >= 3 && w.fault == NoFault && !w.refused
    requires CheckpointedFor(s.records, s.calls[pid].args.decisionId, s.calls[pid].args.executionRef)
    ensures Ends(cfg, s, pid, w, n, Consumed(s, s.calls[pid].args, w))
  {
    hide Look, ClaimRef, ExamineRef, Reread, CallMtp, Checkpoint, Complete;
    hide G.ConsumeIssued, ConsumptionSucceeds;
    ConsumptionMeans(s, s.calls[pid].args, w);
    var t := Advance(cfg, s, pid, w);
    if ConsumptionSucceeds(s, s.calls[pid].args, w) {
      FromCompleting(cfg, Advance(cfg, t, pid, w), pid, w, n - 2);
      Earlier(cfg, t, pid, w, n - 1, Succeeded);
    } else {
      Stops(cfg, t, pid, w, n - 1, InnerRejected);
    }
    Earlier(cfg, s, pid, w, n, Consumed(s, s.calls[pid].args, w));
  }

  lemma FromMarking(cfg: Config, s: State, pid: nat, w: Weather, n: nat)
    requires pid in s.calls && s.calls[pid].pc.Marking? && n >= 4 && w.fault == NoFault && !w.refused
    requires var args := s.calls[pid].args;
             && ClaimedFor(s.records, args.decisionId, args.executionRef) && RecordInv(s.records[args.decisionId])
             && s.records[args.decisionId].auditId.None? && s.calls[pid].pc.receipt.executionRef == args.executionRef
    ensures Ends(cfg, s, pid, w, n, Consumed(s, s.calls[pid].args, w))
  {
    hide Look, ClaimRef, ExamineRef, Reread, CallMtp, LookUp, Consume, Complete;
    var t := Advance(cfg, s, pid, w);
    hide G.ConsumeIssued;
    FromLookingUp(cfg, t, pid, w, n - 1);
    Earlier(cfg, s, pid, w, n, Consumed(s, s.calls[pid].args, w));
  }

  /** MTP has not seen this decision, or saw it under this very reference and repeats its answer. */
  predicate MtpAccepts(cfg: Config, s: State, args: Args) {
    args.decisionId in s.mtp ==> s.mtp[args.decisionId].executionRef == args.executionRef && cfg.idempotent
  }

  predicate AuthorityMet(cfg: Config, s: State, args: Args)
    requires args.decisionId in s.records
  {
    s.records[args.decisionId].auditId.Some? || MtpAccepts(cfg, s, args)
  }

  /** How a call goes on that has claimed its reference. */
  function Authorised(cfg: Config, s: State, args: Args, w: Weather): Outcome
    requires args.decisionId in s.records
  {
    if AuthorityMet(cfg, s, args) then Consumed(s, args, w) else NotAllow
  }

  lemma FromRereading(cfg: Config, s: State, pid: nat, w: Weather, n: nat)
    requires pid in s.calls && s.calls[pid].pc.Rereading? && n >= 6 && w.fault == NoFault && !w.refused && !w.denied
    requires var args := s.calls[pid].args;
             ClaimedFor(s.records, args.decisionId, args.executionRef) && RecordInv(s.records[args.decisionId])
    ensures var args := s.calls[pid].args;
            Ends(cfg, s, pid, w, n, Authorised(cfg, s, args, w))
  {
    hide Look, ClaimRef, ExamineRef, Checkpoint, LookUp, Consume, Complete;
    hide G.ConsumeIssued;
    var args := s.calls[pid].args;
    var t := Advance(cfg, s, pid, w);
    if s.records[args.decisionId].auditId.Some? {
      FromLookingUp(cfg, t, pid, w, n - 1);
    } else if MtpAccepts(cfg, s, args) {
      var u := Advance(cfg, t, pid, w);
      FromMarking(cfg, u, pid, w, n - 2);
      Earlier(cfg, t, pid, w, n - 1, Consumed(s, args, w));
    } else {
      Stops(cfg, t, pid, w, n - 1, NotAllow);
    }
    Earlier(cfg, s, pid, w, n, Authorised(cfg, s, args, w));
  }

  predicate Claimable(records: Records, args: Args)
    requires args.decisionId in records
  {
    var r := records[args.decisionId];
    && r.authorization.actionHash == args.actionHash
    && (if r.executionRef.Some? then r.executionRef.value == args.executionRef
        else !RefTaken(records, args.decisionId, r.authorization.agentId, args.executionRef))
  }

  /** Where the claiming statement leads. */
  lemma ClaimGoes(cfg: Config, s: State, pid: nat, w: Weather)
    requires pid in s.calls && s.calls[pid].pc.Claiming? && w.fault == NoFault
    requires var id := s.calls[pid].args.decisionId; id in s.records && RecordInv(s.records[id])
    ensures var args := s.calls[pid].args;
            var t := ClaimRef(cfg, s, pid, w);
            && t.mtp == s.mtp && t.decisions == s.decisions && t.consumed == s.consumed
            && args.decisionId in t.records && RecordInv(t.records[args.decisionId])
            && t.records[args.decisionId].auditId == s.records[args.decisionId].auditId
            && match t.calls[pid].pc {
                 case Done(o) => o == NonceConflict && !Claimable(s.records, args)
                 case Rereading => Claimable(s.records, args) && ClaimedFor(t.records, args.decisionId, args.executionRef)
                 case Examining => t.records == s.records && (Claimable(s.records, args) <==>
                                     s.records[args.decisionId].authorization.actionHash == args.actionHash
                                     && ClaimedFor(s.records, args.decisionId, args.executionRef))
                 case _ => false
               }
  {
    hide RefTaken;
  }

  lemma FromExamining(cfg: Config, s: State, pid: nat, w: Weather, n: nat)
    requires pid in s.calls && s.calls[pid].pc.Examining? && n >= 7 && w.fault == NoFault && !w.refused && !w.denied
    requires var id := s.calls[pid].args.decisionId; id in s.records && RecordInv(s.records[id])
    ensures var args := s.calls[pid].args;
            Ends(cfg, s, pid, w, n,
                 if s.records[args.decisionId].authorization.actionHash == args.actionHash
                    && ClaimedFor(s.records, args.decisionId, args.executionRef)
                 then Authorised(cfg, s, args, w) else NonceConflict)
  {
    hide Look, ClaimRef, Reread, CallMtp, Checkpoint, LookUp, Consume, Complete, G.ConsumeIssued;
    var args := s.calls[pid].args;
    var t := Advance(cfg, s, pid, w);
    if t.calls[pid].pc.Done? {
      Stops(cfg, s, pid, w, n, NonceConflict);
    } else {
      FromRereading(cfg, t, pid, w, n - 1);
      Earlier(cfg, s, pid, w, n, Authorised(cfg, s, args, w));
    }
  }

  lemma FromClaiming(cfg: Config, s: State, pid: nat, w: Weather, n: nat)
    requires pid in s.calls && s.calls[pid].pc.Claiming? && n >= 8 && w.fault == NoFault && !w.refused && !w.denied
    requires var id := s.calls[pid].args.decisionId; id in s.records && RecordInv(s.records[id])
    ensures var args := s.calls[pid].args;
            Ends(cfg, s, pid, w, n,
                 if Claimable(s.records, args) then Authorised(cfg, s, args, w) else NonceConflict)
  {
    ClaimGoes(cfg, s, pid, w);
    hide Look, ClaimRef, ExamineRef, Reread, CallMtp, Checkpoint, LookUp, Consume, Complete, G.ConsumeIssued, Claimable,
      RecordInv, Ends;
    var args := s.calls[pid].args;
    var outcome := if Claimable(s.records, args) then Authorised(cfg, s, args, w) else NonceConflict;
    var t := Advance(cfg, s, pid, w);
    if t.calls[pid].pc.Done? {
      Stops(cfg, s, pid, w, n, NonceConflict);
    } else if t.calls[pid].pc.Rereading? {
      FromRereading(cfg, t, pid, w, n - 1);
      Earlier(cfg, s, pid, w, n, outcome);
    } else {
      FromExamining(cfg, t, pid, w, n - 1);
      Earlier(cfg, s, pid, w, n, outcome);
    }
  }

  /** What lets an undisturbed call complete. */
  predicate Completes(cfg: Config, s: State, args: Args, w: Weather) {
    && UsableRef(args.executionRef) && args.decisionId in s.records
    && Claimable(s.records, args) && AuthorityMet(cfg, s, args) && ConsumptionSucceeds(s, args, w)
  }

  /** How an undisturbed call ends. */
  function Ending(cfg: Config, s: State, args: Args, w: Weather): Outcome {
    if !UsableRef(args.executionRef) then BadReference
    else if args.decisionId !in s.records then Unavailable
    else if s.records[args.decisionId].authorization.actionHash != args.actionHash then HashMismatch
    else if !Claimable(s.records, args) then NonceConflict
    else Authorised(cfg, s, args, w)
  }

  lemma FromLooking(cfg: Config, s: State, pid: nat, w: Weather)
    requires pid in s.calls && s.calls[pid].pc.Looking? && w.fault == NoFault && !w.refused && !w.denied
    requires forall id :: id in s.records ==> RecordInv(s.records[id])
    requires UsableRef(s.calls[pid].args.executionRef)
    ensures Ends(cfg, s, pid, w, 9, Ending(cfg, s, s.calls[pid].args, w))
  {
    hide ClaimRef, ExamineRef, Reread, CallMtp, Checkpoint, LookUp, Consume, Complete;
    hide G.ConsumeIssued, RefTaken, UsableRef, RecordInv, Present, ClaimStep;
    var t := Advance(cfg, s, pid, w);
    if t.calls[pid].pc.Done? {
      Stops(cfg, s, pid, w, 9, Ending(cfg, s, s.calls[pid].args, w));
    } else {
      FromClaiming(cfg, t, pid, w, 8);
      Earlier(cfg, s, pid, w, 9, Ending(cfg, s, s.calls[pid].args, w));
    }
  }

  lemma FromEntering(cfg: Config, s: State, pid: nat, w: Weather)
    requires pid in s.calls && s.calls[pid].pc.Entering? && w.fault == NoFault && !w.refused && !w.denied
    requires forall id :: id in s.records ==> RecordInv(s.records[id])
    ensures Ends(cfg, s, pid, w, 10, Ending(cfg, s, s.calls[pid].args, w))
  {
    hide Look, ClaimRef, ExamineRef, Reread, CallMtp, Checkpoint, LookUp, Consume, Complete;
    hide G.ConsumeIssued, RefTaken, UsableRef, RecordInv, Claimable;
    var t := Advance(cfg, s, pid, w);
    if !UsableRef(s.calls[pid].args.executionRef) {
      Stops(cfg, s, pid, w, 10, BadReference);
    } else {
      FromLooking(cfg, t, pid, w);
      Earlier(cfg, s, pid, w, 10, Ending(cfg, s, s.calls[pid].args, w));
    }
  }

  /** An undisturbed call completes exactly when its reference is usable, the authorisation is for its action and
      free or claimed by this reference, MTP's receipt is on file or MTP has not used the approval otherwise, and the
      signed decision is an unexpired ALLOW of this action that nobody consumed under another reference. Otherwise it
      ends with the outcome of the first of these that fails. */
  lemma CallCompletesExactlyWhen(cfg: Config, labels: seq<Label>, pid: nat, args: Args, now: int, auditId: string)
    requires pid !in Run(cfg, INITIAL, labels).calls
    ensures var s, w := Run(cfg, INITIAL, labels), Fair(now, auditId);
            var known := args.decisionId in s.records;
            var fits := known && s.records[args.decisionId].authorization.actionHash == args.actionHash;
            var claimable := fits && Claimable(s.records, args);
            var t := Steps(cfg, Exec(cfg, s, Begin(pid, args)), pid, w, 10);
            && pid in t.calls && t.calls[pid].pc.Done?
            && var outcome := t.calls[pid].pc.outcome;
               && (outcome == Succeeded <==> Completes(cfg, s, args, w))
               && (outcome == BadReference <==> !UsableRef(args.executionRef))
               && (outcome == Unavailable <==> UsableRef(args.executionRef) && !known)
               && (outcome == HashMismatch <==> UsableRef(args.executionRef) && known && !fits)
               && (outcome == NonceConflict <==> UsableRef(args.executionRef) && fits && !claimable)
               && (outcome == NotAllow <==> UsableRef(args.executionRef) && claimable && !AuthorityMet(cfg, s, args))
               && (outcome == InnerRejected <==>
                     && UsableRef(args.executionRef) && claimable && AuthorityMet(cfg, s, args)
                     && !ConsumptionSucceeds(s, args, w))
               && (outcome == Succeeded ==>
                     CheckpointedFor(t.records, args.decisionId, args.executionRef)
                     && t.records[args.decisionId].completedAt.Some?)
  {
    hide Run, Steps, UsableRef, Claimable, AuthorityMet, ConsumptionSucceeds, RecordsInv;
    InvAtFirst();
    RunKeepsInv(cfg, INITIAL, labels);
    FromBegin(cfg, Run(cfg, INITIAL, labels), pid, args, Fair(now, auditId));
    ClaimableFits(Run(cfg, INITIAL, labels).records, args);
  }

  lemma InvAtFirst()
    ensures Inv(INITIAL)
  {
  }

  lemma ClaimableFits(records: Records, args: Args)
    ensures args.decisionId in records && Claimable(records, args) ==>
              records[args.decisionId].authorization.actionHash == args.actionHash
  {
  }

  lemma SameEnding(cfg: Config, s: State, t: State, args: Args, w: Weather)
    requires t.records == s.records && t.mtp == s.mtp && t.decisions == s.decisions && t.consumed == s.consumed
    ensures Ending(cfg, t, args, w) == Ending(cfg, s, args, w)
  {
    hide UsableRef, Claimable, G.ConsumeIssued;
  }

  lemma FromBegin(cfg: Config, s: State, pid: nat, args: Args, w: Weather)
    requires pid !in s.calls && RecordsInv(s.records) && w.fault == NoFault && !w.refused && !w.denied
    ensures Ends(cfg, Exec(cfg, s, Begin(pid, args)), pid, w, 10, Ending(cfg, s, args, w))
  {
    hide Advance, UsableRef, Ends, Ending, RecordInv;
    var t := Exec(cfg, s, Begin(pid, args));
    FromEntering(cfg, t, pid, w);
    SameEnding(cfg, s, t, args, w);
  }

  /** With an idempotent MTP, whatever crashes or losses came before, a retry under the claimed reference before
      expiry completes. */
  lemma RetryCompletes(cfg: Config, labels: seq<Label>, pid: nat, args: Args, now: int, auditId: string)
    requires cfg.idempotent && UsableRef(args.executionRef)
    requires var s := Run(cfg, INITIAL, labels);
             && pid !in s.calls && ClaimedFor(s.records, args.decisionId, args.executionRef)
             && s.records[args.decisionId].authorization.actionHash == args.actionHash
             && args.decisionId in s.decisions && s.decisions[args.decisionId].verdict == Allow
             && s.decisions[args.decisionId].actionHash == args.actionHash
             && now < s.decisions[args.decisionId].expiresAt
    ensures Ends(cfg, Exec(cfg, Run(cfg, INITIAL, labels), Begin(pid, args)), pid, Fair(now, auditId), 10, Succeeded)
  {
    var s := Run(cfg, INITIAL, labels);
    RunKeepsInv(cfg, INITIAL, labels);
    assert Ending(cfg, s, args, Fair(now, auditId)) == Succeeded;
    FromBegin(cfg, s, pid, args, Fair(now, auditId));
  }
}
