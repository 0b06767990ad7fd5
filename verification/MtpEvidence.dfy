/**
 * What an MTP authorisation record says, and where its receipt comes from (packages/mtp-authority/src/store.ts,
 * packages/postgres-store/src/mtp-store.ts, packages/mtp-authority/src/provider.ts).
 */
module MtpEvidence {
  import opened Prelude
  import opened Decisions
  import G = Guard
  import opened Mtp

  // ----- what a store call writes

  /** The record that a call leaves where it changes one. */
  predicate Wrote(records: Records, call: Call, r: Record) {
    match call
    case Save(id, authorization) =>
      && id !in records && r.authorization == authorization
      && r.executionRef == None && r.auditId == None && r.status == None && r.completedAt == None
    case Claim(id, hash, ref) =>
      && id in records && records[id].executionRef == None && r.authorization == records[id].authorization
      && r.authorization.actionHash == hash && r.executionRef == Some(ref)
      && r.auditId == records[id].auditId && r.status == records[id].status && r.completedAt == records[id].completedAt
    case MarkConsumed(id, ref, receipt) =>
      && id in records && records[id].executionRef == Some(ref) && receipt.executionRef == ref
      && r.authorization == records[id].authorization && r.executionRef == Some(ref)
      && r.auditId == Some(receipt.auditId) && r.status == Some(receipt.status)
      && r.completedAt == records[id].completedAt
    case MarkComplete(id, ref, at) =>
      && id in records && records[id].executionRef == Some(ref) && records[id].completedAt == None
      && r.authorization == records[id].authorization && r.executionRef == Some(ref)
      && r.auditId == records[id].auditId && r.auditId.Some? && r.status == records[id].status
      && r.completedAt == Some(at)
    case _ => false
  }

  /** When a call changes a record. */
  predicate Writes(b: Backend, records: Records, call: Call) {
    match call
    case Save(id, _) => id !in records
    case Claim(id, hash, ref) =>
      && id in records && records[id].authorization.actionHash == hash && records[id].executionRef == None
      && forall other :: other in records && other != id
           && records[other].authorization.agentId == records[id].authorization.agentId
           ==> records[other].executionRef != Some(ref)
    case MarkConsumed(id, ref, receipt) =>
      && id in records && records[id].executionRef == Some(ref) && receipt.executionRef == ref
      && (records[id].auditId == None
          || (b.Memory? && records[id].auditId == Some(receipt.auditId) && records[id].status != Some(receipt.status)))
    case MarkComplete(id, ref, _) =>
      id in records && records[id].executionRef == Some(ref) && records[id].auditId.Some? && records[id].completedAt == None
    case _ => false
  }

  lemma UntakenMeans(records: Records, id: string, agentId: string, ref: string)
    ensures !RefTaken(records, id, agentId, ref)
       <==> forall other :: other in records && other != id && records[other].authorization.agentId == agentId
              ==> records[other].executionRef != Some(ref)
  {
  }

  /** A store call changes one record at most, its own, exactly when it finds it in the state it asks for; and then the
      record says what the call said and keeps the rest. */
  lemma CallWrites(b: Backend, records: Records, call: Call)
    requires RecordsInv(records)
    ensures var next := Apply(b, records, call).0;
            && (next != records <==> Writes(b, records, call))
            && (next != records ==>
                  && call.decisionId in next && next == records[call.decisionId := next[call.decisionId]]
                  && Wrote(records, call, next[call.decisionId]))
  {
    var id, next := call.decisionId, Apply(b, records, call).0;
    if call.Claim? && id in records {
      UntakenMeans(records, id, records[id].authorization.agentId, call.executionRef);
    }
    hide RefTaken;
    if id in records {
      assert RecordInv(records[id]);
      assert records[id := records[id]] == records;
      assert next != records ==> next[id] != records[id];
    }
  }

  /** What a call answers, by the record that it finds. */
  predicate Answers(b: Backend, records: Records, call: Call, answer: Answer) {
    match call
    case Save(id, authorization) =>
      answer == if id !in records || records[id].authorization == authorization then Saved else Threw
    case Get(id) => answer.Found? && (if id in records then answer.record == Some(records[id]) else answer.record == None)
    case Claim(id, hash, ref) =>
      var fits := id in records && records[id].authorization.actionHash == hash;
      var open := fits && records[id].executionRef == None;
      && (answer == Claimed <==> Writes(b, records, call))
      && (open && !Writes(b, records, call) ==> answer == Conflict)
      && (b.Memory? && !open ==>
            && (answer == Missing <==> id !in records)
            && (answer == Idempotent <==> fits && records[id].executionRef == Some(ref))
            && (answer == Conflict <==> id in records && !(fits && records[id].executionRef == Some(ref))))
      && (b.Database? && !open ==> answer == Unmatched)
    case Examine(id, hash, ref) =>
      && (answer == Missing <==> id !in records)
      && (answer == Idempotent <==>
            id in records && records[id].authorization.actionHash == hash && records[id].executionRef == Some(ref))
      && (answer == Conflict <==>
            id in records && !(records[id].authorization.actionHash == hash && records[id].executionRef == Some(ref)))
    case MarkConsumed(id, ref, receipt) =>
      && (answer == Saved || answer == Threw)
      && (answer == Saved <==>
            && id in records && records[id].executionRef == Some(ref) && receipt.executionRef == ref
            && (records[id].auditId.Some? ==>
                  && records[id].auditId == Some(receipt.auditId)
                  && (b.Database? ==> records[id].status == Some(receipt.status))))
    case MarkComplete(id, ref, _) =>
      && (answer == Saved || answer == Threw)
      && (answer == Saved <==> id in records && records[id].executionRef == Some(ref) && records[id].auditId.Some?)
  }

  /** Each answer of a store has its exact condition; the SQL claim answers by its first statement whether it took the
      record, and by its second what stood in the way. */
  lemma CallAnswers(b: Backend, records: Records, call: Call)
    requires RecordsInv(records)
    ensures Answers(b, records, call, Apply(b, records, call).1)
  {
    if call.decisionId in records { assert RecordInv(records[call.decisionId]); }
    if call.Claim? && call.decisionId in records {
      UntakenMeans(records, call.decisionId, records[call.decisionId].authorization.agentId, call.executionRef);
    }
    hide RefTaken, RecordsInv;
  }

  // ----- where a receipt comes from

  /** The receipt is of the use that MTP recorded for the decision, under that reference. */
  predicate OfMtp(mtp: map<string, Use>, args: Args, receipt: Receipt) {
    && receipt.executionRef == args.executionRef && args.decisionId in mtp
    && mtp[args.decisionId] == Use(args.executionRef, receipt.auditId)
  }

  ghost predicate ReceiptsInv(s: State) {
    forall pid :: pid in s.calls && s.calls[pid].pc.Marking? ==> OfMtp(s.mtp, s.calls[pid].args, s.calls[pid].pc.receipt)
  }

  ghost predicate UsesKept(a: map<string, Use>, b: map<string, Use>) {
    forall id :: id in a ==> id in b && b[id] == a[id]
  }

  lemma PresentedIsOfMtp(cfg: Config, mtp: map<string, Use>, args: Args, w: Weather)
    ensures var (next, receipt) := Present(cfg, mtp, args, w);
            && UsesKept(mtp, next)
            && (receipt.Some? ==> OfMtp(next, args, receipt.value))
            && (receipt.Some? && receipt.value.status == FirstUse <==> args.decisionId !in mtp && !w.denied)
            && (receipt.Some? && receipt.value.status == Repeat <==>
                  args.decisionId in mtp && mtp[args.decisionId].executionRef == args.executionRef && cfg.idempotent
                  && !w.denied)
            && (args.decisionId !in mtp && !w.denied ==> receipt.value.auditId == w.auditId)
  {
  }

  /** What a move does to MTP's uses and to receipts carried. */
  predicate Carries(s: State, t: State, pid: nat)
    requires pid in s.calls && pid in t.calls
  {
    && t.calls == s.calls[pid := t.calls[pid]]
    && (t.calls[pid].pc.Marking? ==> OfMtp(t.mtp, t.calls[pid].args, t.calls[pid].pc.receipt))
  }

  lemma CallCarries(cfg: Config, s: State, pid: nat, w: Weather)
    requires pid in s.calls
    ensures var t := CallMtp(cfg, s, pid, w); UsesKept(s.mtp, t.mtp) && Carries(s, t, pid)
  {
    PresentedIsOfMtp(cfg, s.mtp, s.calls[pid].args, w);
    hide Present;
  }

  lemma StoreCarries(cfg: Config, s: State, pid: nat, w: Weather)
    requires pid in s.calls
    ensures var t := Look(cfg, s, pid, w); t.mtp == s.mtp && Carries(s, t, pid)
    ensures var t := ClaimRef(cfg, s, pid, w); t.mtp == s.mtp && Carries(s, t, pid)
    ensures var t := ExamineRef(cfg, s, pid, w); t.mtp == s.mtp && Carries(s, t, pid)
    ensures var t := Reread(cfg, s, pid, w); t.mtp == s.mtp && Carries(s, t, pid)
  {
    hide Apply, OfMtp;
  }

  lemma EndCarries(cfg: Config, s: State, pid: nat, w: Weather)
    requires pid in s.calls
    ensures s.calls[pid].pc.Marking? ==> var t := Checkpoint(cfg, s, pid, w); t.mtp == s.mtp && Carries(s, t, pid)
    ensures var t := LookUp(cfg, s, pid, w); t.mtp == s.mtp && Carries(s, t, pid)
    ensures s.calls[pid].pc.Consuming? ==> var t := Consume(cfg, s, pid, w); t.mtp == s.mtp && Carries(s, t, pid)
    ensures var t := Complete(cfg, s, pid, w); t.mtp == s.mtp && Carries(s, t, pid)
  {
    hide Apply, OfMtp, G.ConsumeIssued;
  }

  lemma AdvanceCarries(cfg: Config, s: State, pid: nat, w: Weather)
    requires pid in s.calls
    ensures var t := Advance(cfg, s, pid, w); UsesKept(s.mtp, t.mtp) && Carries(s, t, pid)
  {
    hide Look, ClaimRef, ExamineRef, Reread, CallMtp, Checkpoint, LookUp, Consume, Complete, OfMtp, UsableRef;
    CallCarries(cfg, s, pid, w);
    StoreCarries(cfg, s, pid, w);
    EndCarries(cfg, s, pid, w);
    assert s.calls[pid := s.calls[pid]] == s.calls;
  }

  lemma ExecKeepsReceipts(cfg: Config, s: State, l: Label)
    requires ReceiptsInv(s)
    ensures ReceiptsInv(Exec(cfg, s, l)) && UsesKept(s.mtp, Exec(cfg, s, l).mtp)
  {
    hide Advance, Apply;
    if l.Go? && l.pid in s.calls {
      AdvanceCarries(cfg, s, l.pid, l.w);
    }
  }

  lemma {:induction false} RunKeepsReceipts(cfg: Config, s: State, labels: seq<Label>)
    requires ReceiptsInv(s)
    ensures ReceiptsInv(Run(cfg, s, labels)) && UsesKept(s.mtp, Run(cfg, s, labels).mtp)
    decreases |labels|
  {
    hide Exec, ReceiptsInv;
    if labels != [] {
      ExecKeepsReceipts(cfg, s, labels[0]);
      RunKeepsReceipts(cfg, Exec(cfg, s, labels[0]), labels[1..]);
    }
  }

  /** In every run, a call that writes its checkpoint writes the receipt of the one use that MTP recorded for its
      decision, under its own reference: whenever such a move changes a record, that record then names the audit id of
      that use. What MTP recorded stays. */
  lemma CheckpointsAreMtps(cfg: Config, labels: seq<Label>, l: Label, more: seq<Label>)
    requires var s := Run(cfg, INITIAL, labels); l.Go? && l.pid in s.calls && s.calls[l.pid].pc.Marking?
    ensures var s := Run(cfg, INITIAL, labels);
            var t, args := Exec(cfg, s, l), s.calls[l.pid].args;
            && args.decisionId in s.mtp && s.mtp[args.decisionId].executionRef == args.executionRef
            && (t.records != s.records ==>
                  && args.decisionId in t.records
                  && t.records == s.records[args.decisionId := t.records[args.decisionId]]
                  && t.records[args.decisionId].executionRef == Some(args.executionRef)
                  && t.records[args.decisionId].auditId == Some(s.mtp[args.decisionId].auditId))
            && UsesKept(s.mtp, Run(cfg, s, more).mtp)
  {
    hide Exec, Run, Inv, RecordsInv, OfMtp;
    var s := Run(cfg, INITIAL, labels);
    ReceiptsAtFirst();
    InvAtFirst();
    RunKeepsReceipts(cfg, INITIAL, labels);
    RunKeepsReceipts(cfg, s, more);
    RunKeepsInv(cfg, INITIAL, labels);
    InvHasRecords(s);
    var args, receipt := s.calls[l.pid].args, s.calls[l.pid].pc.receipt;
    assert OfMtp(s.mtp, args, receipt);
    CallWrites(cfg.store, s.records, MarkConsumed(args.decisionId, args.executionRef, receipt));
    CheckpointWrites(cfg, s, l);
    OfMtpMeans(s.mtp, args, receipt);
  }

  lemma ReceiptsAtFirst()
    ensures ReceiptsInv(INITIAL)
  {
  }

  lemma InvHasRecords(s: State)
    requires Inv(s)
    ensures RecordsInv(s.records)
  {
  }

  lemma OfMtpMeans(mtp: map<string, Use>, args: Args, receipt: Receipt)
    requires OfMtp(mtp, args, receipt)
    ensures args.decisionId in mtp && mtp[args.decisionId].executionRef == args.executionRef
    ensures mtp[args.decisionId].auditId == receipt.auditId
  {
  }

  lemma CheckpointWrites(cfg: Config, s: State, l: Label)
    requires l.Go? && l.pid in s.calls && s.calls[l.pid].pc.Marking?
    ensures var args, receipt := s.calls[l.pid].args, s.calls[l.pid].pc.receipt;
            var t := Exec(cfg, s, l);
            t.records == s.records
            || t.records == Apply(cfg.store, s.records, MarkConsumed(args.decisionId, args.executionRef, receipt)).0
  {
    hide Apply;
  }

  lemma FailedStoreEnds(cfg: Config, s: State, pid: nat, w: Weather)
    requires pid in s.calls && w.fault != NoFault
    ensures Look(cfg, s, pid, w).calls[pid].pc == ClaimRef(cfg, s, pid, w).calls[pid].pc == Done(Failed)
    ensures ExamineRef(cfg, s, pid, w).calls[pid].pc == Reread(cfg, s, pid, w).calls[pid].pc == Done(Failed)
    ensures Complete(cfg, s, pid, w).calls[pid].pc == LookUp(cfg, s, pid, w).calls[pid].pc == Done(Failed)
  {
    hide Apply;
  }

  lemma FailedServiceEnds(cfg: Config, s: State, pid: nat, w: Weather)
    requires pid in s.calls && w.fault != NoFault
    ensures CallMtp(cfg, s, pid, w).calls[pid].pc == Done(Failed)
    ensures s.calls[pid].pc.Marking? ==> Checkpoint(cfg, s, pid, w).calls[pid].pc == Done(Failed)
    ensures s.calls[pid].pc.Consuming? ==> Consume(cfg, s, pid, w).calls[pid].pc == Done(Failed)
  {
    hide Apply, Present, G.ConsumeIssued;
  }

  /** A store, a service or a provider that failed to answer ends the call as failed, at whichever await. */
  lemma FailedAwaitsEnd(cfg: Config, s: State, pid: nat, w: Weather)
    requires pid in s.calls && w.fault != NoFault && !s.calls[pid].pc.Entering? && !s.calls[pid].pc.Done?
    ensures Advance(cfg, s, pid, w).calls[pid].pc == Done(Failed)
  {
    hide Look, ClaimRef, ExamineRef, Reread, CallMtp, Checkpoint, LookUp, Consume, Complete, UsableRef;
    FailedStoreEnds(cfg, s, pid, w);
    FailedServiceEnds(cfg, s, pid, w);
  }
}
