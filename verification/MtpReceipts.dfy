/** Where the two MTP stores part (packages/mtp-authority/src/store.ts and packages/postgres-store/src/mtp-store.ts): a
    receipt that repeats one on file with another status. The in-memory store overwrites the status, the SQL store
    refuses. Over runs this happens exactly when two calls for one decision stand between their receipt check and their
    checkpoint at once and put different receipts on file, one of the first use and one of its repetition. */
module MtpReceipts {
  import opened Prelude
  import opened Decisions
  import G = Guard
  import opened Mtp

  // ----- one call

  /** The same receipt once more, under another status. */
  predicate Restated(records: Records, id: string, ref: string, receipt: Receipt) {
    && id in records && records[id].executionRef == Some(ref) && receipt.executionRef == ref
    && records[id].auditId == Some(receipt.auditId)
    && records[id].status.Some? && records[id].status.value != receipt.status
  }

  /** The two stores answer a checkpoint alike, and write alike, exactly when it is not such a receipt. */
  lemma CheckpointsAgreeExactlyWhen(records: Records, id: string, ref: string, receipt: Receipt)
    requires RecordsInv(records)
    ensures Apply(Memory, records, MarkConsumed(id, ref, receipt)) == Apply(Database, records, MarkConsumed(id, ref, receipt))
       <==> !Restated(records, id, ref, receipt)
  {
    assert id in records ==> RecordInv(records[id]);
    hide RecordsInv;
    if Restated(records, id, ref, receipt) {
      assert Apply(Memory, records, MarkConsumed(id, ref, receipt)).1 == Saved;
      assert Apply(Database, records, MarkConsumed(id, ref, receipt)).1 == Threw;
    }
  }

  // ----- runs over the in-memory store

  /** Between the check that found no receipt and the checkpoint. */
  predicate InWindow(t: Thread, id: string) {
    t.args.decisionId == id && (t.pc.Calling? || t.pc.Marking?)
  }

  predicate Beside(s: State, p: nat, q: nat, id: string) {
    p in s.calls && q in s.calls && p != q && InWindow(s.calls[p], id) && InWindow(s.calls[q], id)
  }

  /** Audit id and status on file. */
  function Filed(s: State, id: string): (Option<string>, Option<ReceiptStatus>) {
    if id in s.records then (s.records[id].auditId, s.records[id].status) else (None, None)
  }

  predicate Written(s: State, id: string) {
    Filed(s, id).1.Some?
  }

  predicate StatusKept(s: State, t: State, id: string) {
    Written(s, id) ==> Filed(t, id).1 == Filed(s, id).1
  }

  /** The receipt's status stays as first written. */
  predicate Stays(cfg: Config, s: State, labels: seq<Label>, id: string)
    decreases |labels|
  {
    labels != [] ==> var t := Exec(cfg, s, labels[0]); StatusKept(s, t, id) && Stays(cfg, t, labels[1..], id)
  }

  /** This call's next move puts a receipt of that status on file. */
  predicate Files(s: State, l: Label, p: nat, status: ReceiptStatus) {
    && l.Go? && l.pid == p && l.w.fault != LostRequest
    && p in s.calls && s.calls[p].pc.Marking? && s.calls[p].pc.receipt.status == status
  }

  predicate WillFile(cfg: Config, s: State, labels: seq<Label>, p: nat, status: ReceiptStatus)
    decreases |labels|
  {
    labels != [] && (Files(s, labels[0], p, status) || WillFile(cfg, Exec(cfg, s, labels[0]), labels[1..], p, status))
  }

  /** Two calls for the decision stand between receipt check and checkpoint at once, and put different receipts on file. */
  ghost predicate Clash(cfg: Config, s: State, labels: seq<Label>, id: string) {
    exists p, q :: Beside(s, p, q, id) && WillFile(cfg, s, labels, p, FirstUse) && WillFile(cfg, s, labels, q, Repeat)
  }

  ghost predicate Clashes(cfg: Config, s: State, labels: seq<Label>, id: string)
    decreases |labels|
  {
    Clash(cfg, s, labels, id) || (labels != [] && Clashes(cfg, Exec(cfg, s, labels[0]), labels[1..], id))
  }

  /** Receipts reach the store through the provider only. */
  predicate Provided(l: Label) {
    l.OtherStore? ==> !l.call.MarkConsumed?
  }

  predicate AllProvided(labels: seq<Label>) {
    forall i :: 0 <= i < |labels| ==> Provided(labels[i])
  }

  // ----- one step, seen from one decision

  /** Nothing of the decision moves, but that a call may enter the window past its receipt check. */
  ghost predicate Elsewhere(s: State, t: State, id: string) {
    && (id in s.mtp <==> id in t.mtp) && (id in s.mtp ==> t.mtp[id] == s.mtp[id])
    && Filed(t, id) == Filed(s, id)
    && (forall p :: p in s.calls && InWindow(s.calls[p], id) ==> p in t.calls && t.calls[p] == s.calls[p])
    && (forall p :: p in t.calls && InWindow(t.calls[p], id) ==>
          (p in s.calls && t.calls[p] == s.calls[p]) || (t.calls[p].pc.Calling? && Filed(s, id).0.None?))
  }

  /** A call's step, away from the window: what it does to the stores. */
  lemma StepFiles(cfg: Config, s: State, pid: nat, w: Weather, id: string)
    requires cfg.store == Memory && pid in s.calls && !InWindow(s.calls[pid], id)
    ensures Filed(Advance(cfg, s, pid, w), id) == Filed(s, id)
  {
    hide Apply, Present, G.ConsumeIssued, UsableRef, ClaimPc;
    var args := s.calls[pid].args;
    match s.calls[pid].pc
    case Claiming =>
      hide Look, ExamineRef, Reread, CallMtp, Checkpoint, LookUp, Consume, Complete;
      OthersFile(s, Claim(args.decisionId, args.actionHash, args.executionRef), id);
    case Marking(receipt) =>
      hide Look, ClaimRef, ExamineRef, Reread, CallMtp, LookUp, Consume, Complete;
      OthersFile(s, MarkConsumed(args.decisionId, args.executionRef, receipt), id);
    case Completing =>
      hide Look, ClaimRef, ExamineRef, Reread, CallMtp, Checkpoint, LookUp, Consume;
      OthersFile(s, MarkComplete(args.decisionId, args.executionRef, w.now), id);
    case _ => hide ClaimRef, Checkpoint, Complete;
  }

  /** A store call writes no receipt, unless it is a checkpoint of this decision. */
  lemma OthersFile(s: State, call: Call, id: string)
    requires call.MarkConsumed? ==> call.decisionId != id
    ensures Filed(s.(records := Apply(Memory, s.records, call).0), id) == Filed(s, id)
  {
  }

  lemma StepPresents(cfg: Config, s: State, pid: nat, w: Weather, id: string)
    requires pid in s.calls && !InWindow(s.calls[pid], id)
    ensures var t := Advance(cfg, s, pid, w);
            (id in s.mtp <==> id in t.mtp) && (id in s.mtp ==> t.mtp[id] == s.mtp[id])
  {
    hide Apply, G.ConsumeIssued, UsableRef, ClaimPc;
  }

  /** One thread moves. */
  ghost predicate Alone(s: State, t: State, pid: nat)
    requires pid in t.calls
  {
    t.calls == s.calls[pid := t.calls[pid]]
  }

  lemma StepAlone(cfg: Config, s: State, pid: nat, w: Weather)
    requires pid in s.calls
    ensures Alone(s, Advance(cfg, s, pid, w), pid)
  {
    hide Present, G.ConsumeIssued, UsableRef, Apply, ClaimPc;
    match s.calls[pid].pc
    case Entering => hide Look, ClaimRef, ExamineRef, Reread, CallMtp, Checkpoint, LookUp, Consume, Complete;
    case Looking => hide ClaimRef, ExamineRef, Reread, CallMtp, Checkpoint, LookUp, Consume, Complete;
    case Claiming => hide Look, ExamineRef, Reread, CallMtp, Checkpoint, LookUp, Consume, Complete;
    case Examining => hide Look, ClaimRef, Reread, CallMtp, Checkpoint, LookUp, Consume, Complete;
    case Rereading => hide Look, ClaimRef, ExamineRef, CallMtp, Checkpoint, LookUp, Consume, Complete;
    case Calling => hide Look, ClaimRef, ExamineRef, Reread, Checkpoint, LookUp, Consume, Complete;
    case Marking(_) => hide Look, ClaimRef, ExamineRef, Reread, CallMtp, LookUp, Consume, Complete;
    case LookingUp => hide Look, ClaimRef, ExamineRef, Reread, CallMtp, Checkpoint, Consume, Complete;
    case Consuming(_) => hide Look, ClaimRef, ExamineRef, Reread, CallMtp, Checkpoint, LookUp, Complete;
    case Completing => hide Look, ClaimRef, ExamineRef, Reread, CallMtp, Checkpoint, LookUp, Consume;
    case Done(_) => hide Look, ClaimRef, ExamineRef, Reread, CallMtp, Checkpoint, LookUp, Consume, Complete;
  }

  /** The window is entered by a receipt check that found none. */
  lemma StepEnters(cfg: Config, s: State, pid: nat, w: Weather, id: string)
    requires pid in s.calls && !InWindow(s.calls[pid], id) && InWindow(Advance(cfg, s, pid, w).calls[pid], id)
    ensures Advance(cfg, s, pid, w).calls[pid].pc.Calling? && Filed(s, id).0.None?
  {
    if s.calls[pid].pc.Rereading? {
      hide ClaimStep, MarkStep, Look, ClaimRef, ExamineRef, CallMtp, Checkpoint, LookUp, Consume, Complete;
    } else {
      hide Advance;
      OthersStayOut(cfg, s, pid, w);
    }
  }

  lemma OthersStayOut(cfg: Config, s: State, pid: nat, w: Weather)
    requires pid in s.calls && !s.calls[pid].pc.Rereading? && !s.calls[pid].pc.Calling? && !s.calls[pid].pc.Marking?
    ensures var pc := Advance(cfg, s, pid, w).calls[pid].pc; !pc.Calling? && !pc.Marking?
  {
    hide Present, G.ConsumeIssued, UsableRef, Apply, Reread, CallMtp, Checkpoint;
    match s.calls[pid].pc
    case Looking => hide ClaimRef, ExamineRef, LookUp, Consume, Complete;
    case Claiming => hide Look, ExamineRef, LookUp, Consume, Complete, Ask;
    case Examining => hide Look, ClaimRef, LookUp, Consume, Complete, Ask;
    case LookingUp => hide Look, ClaimRef, ExamineRef, Consume, Complete;
    case Consuming(_) => hide Look, ClaimRef, ExamineRef, LookUp, Complete;
    case _ => hide Look, ClaimRef, ExamineRef, LookUp, Consume, Ask;
  }

  lemma StepElsewhere(cfg: Config, s: State, pid: nat, w: Weather, id: string)
    requires cfg.store == Memory && pid in s.calls && !InWindow(s.calls[pid], id)
    ensures Elsewhere(s, Advance(cfg, s, pid, w), id)
  {
    StepFiles(cfg, s, pid, w, id);
    StepPresents(cfg, s, pid, w, id);
    StepAlone(cfg, s, pid, w);
    hide Advance, Filed;
    var t := Advance(cfg, s, pid, w);
    if InWindow(t.calls[pid], id) { StepEnters(cfg, s, pid, w, id); }
  }

  /** Whose move it is, if a call in the window moves. */
  predicate Moves(s: State, l: Label, id: string) {
    (l.Go? || l.Crash?) && l.pid in s.calls && InWindow(s.calls[l.pid], id)
  }

  lemma ExecElsewhere(cfg: Config, s: State, l: Label, id: string)
    requires cfg.store == Memory && Provided(l) && !Moves(s, l, id)
    ensures Elsewhere(s, Exec(cfg, s, l), id)
  {
    hide Apply;
    if l.Go? && l.pid in s.calls {
      hide Advance, Elsewhere;
      StepElsewhere(cfg, s, l.pid, l.w, id);
    } else if l.OtherStore? {
      hide Advance;
      OthersFile(s, l.call, id);
    } else {
      hide Advance;
    }
  }

  /** A call at MTP: no record moves, and the call leaves or holds MTP's receipt. */
  lemma StepCalls(cfg: Config, s: State, pid: nat, w: Weather)
    requires pid in s.calls && s.calls[pid].pc.Calling?
    ensures var t := Advance(cfg, s, pid, w);
            var (mtp, receipt) := Present(cfg, s.mtp, s.calls[pid].args, w);
            && t.records == s.records && t.calls == s.calls[pid := t.calls[pid]]
            && t.calls[pid].args == s.calls[pid].args
            && t.mtp == (if w.fault == LostRequest then s.mtp else mtp)
            && t.calls[pid].pc == if w.fault != NoFault then Done(Failed)
                                  else if receipt.Some? then Marking(receipt.value) else Done(NotAllow)
  {
    StepAlone(cfg, s, pid, w);
    hide Present, Look, ClaimRef, ExamineRef, Reread, Checkpoint, LookUp, Consume, Complete, UsableRef;
  }

  /** A checkpoint that the record takes. */
  predicate Takes(s: State, pid: nat)
    requires pid in s.calls && s.calls[pid].pc.Marking?
  {
    var args, receipt := s.calls[pid].args, s.calls[pid].pc.receipt;
    && ClaimedFor(s.records, args.decisionId, args.executionRef) && receipt.executionRef == args.executionRef
    && (Filed(s, args.decisionId).0.Some? ==> Filed(s, args.decisionId).0.value == receipt.auditId)
  }

  lemma StepMarks(cfg: Config, s: State, pid: nat, w: Weather)
    requires cfg.store == Memory && pid in s.calls && s.calls[pid].pc.Marking?
    ensures var t := Advance(cfg, s, pid, w);
            var id, receipt := s.calls[pid].args.decisionId, s.calls[pid].pc.receipt;
            && t.mtp == s.mtp && t.calls == s.calls[pid := t.calls[pid]] && !InWindow(t.calls[pid], id)
            && Filed(t, id) == if w.fault != LostRequest && Takes(s, pid) then (Some(receipt.auditId), Some(receipt.status))
                               else Filed(s, id)
  {
    StepAlone(cfg, s, pid, w);
    hide Present, Look, ClaimRef, ExamineRef, Reread, CallMtp, LookUp, Consume, Complete, UsableRef;
  }

  // ----- without a clash the status stays

  /** What is still to be put on file by the calls in the window is what is on file, if anything is. */
  ghost predicate Alike(cfg: Config, s: State, labels: seq<Label>, id: string) {
    Written(s, id) ==> forall p, status :: p in s.calls && InWindow(s.calls[p], id) && WillFile(cfg, s, labels, p, status)
                                           ==> Filed(s, id).1 == Some(status)
  }

  lemma ElsewhereStaysAlike(cfg: Config, s: State, labels: seq<Label>, id: string)
    requires labels != [] && Alike(cfg, s, labels, id) && RecordsInv(s.records)
    requires Elsewhere(s, Exec(cfg, s, labels[0]), id)
    ensures var t := Exec(cfg, s, labels[0]); Alike(cfg, t, labels[1..], id) && StatusKept(s, t, id)
  {
    assert id in s.records ==> RecordInv(s.records[id]);
    hide Exec;
    var t := Exec(cfg, s, labels[0]);
    forall p, status | Written(t, id) && p in t.calls && InWindow(t.calls[p], id)
                       && WillFile(cfg, t, labels[1..], p, status)
      ensures Filed(t, id).1 == Some(status)
    {
      assert WillFile(cfg, s, labels, p, status);
    }
  }

  /** A checkpoint after which the others in the window have nothing else to put on file. */
  lemma MarkStaysAlike(cfg: Config, s: State, labels: seq<Label>, id: string)
    requires cfg.store == Memory && labels != [] && labels[0].Go? && labels[0].pid in s.calls
    requires s.calls[labels[0].pid].pc.Marking? && s.calls[labels[0].pid].args.decisionId == id
    requires Alike(cfg, s, labels, id) && !Clash(cfg, s, labels, id)
    ensures var t := Exec(cfg, s, labels[0]); Alike(cfg, t, labels[1..], id) && StatusKept(s, t, id)
  {
    var l := labels[0];
    var receipt := s.calls[l.pid].pc.receipt;
    var t := Exec(cfg, s, l);
    StepMarks(cfg, s, l.pid, l.w);
    hide Advance, Takes;
    var files := Filed(t, id) != Filed(s, id);
    assert files ==> WillFile(cfg, s, labels, l.pid, receipt.status);
    forall p, status | Written(t, id) && p in t.calls && InWindow(t.calls[p], id)
                       && WillFile(cfg, t, labels[1..], p, status)
      ensures Filed(t, id).1 == Some(status)
    {
      assert WillFile(cfg, s, labels, p, status) && Beside(s, l.pid, p, id) && Beside(s, p, l.pid, id);
      assert !(WillFile(cfg, s, labels, l.pid, FirstUse) && WillFile(cfg, s, labels, p, Repeat));
      assert !(WillFile(cfg, s, labels, p, FirstUse) && WillFile(cfg, s, labels, l.pid, Repeat));
      assert files ==> receipt.status == status;
    }
  }

  lemma ExecStaysAlike(cfg: Config, s: State, labels: seq<Label>, id: string)
    requires cfg.store == Memory && labels != [] && Provided(labels[0]) && RecordsInv(s.records)
    requires Alike(cfg, s, labels, id) && !Clash(cfg, s, labels, id)
    ensures var t := Exec(cfg, s, labels[0]); Alike(cfg, t, labels[1..], id) && StatusKept(s, t, id)
  {
    var l := labels[0];
    if !Moves(s, l, id) {
      hide RecordsInv, Alike, Clash, Exec, Elsewhere, StatusKept;
      ExecElsewhere(cfg, s, l, id);
      ElsewhereStaysAlike(cfg, s, labels, id);
    } else if l.Go? && s.calls[l.pid].pc.Marking? {
      hide RecordsInv, Alike, Clash, Exec, StatusKept;
      MarkStaysAlike(cfg, s, labels, id);
    } else {
      if l.Go? { StepCalls(cfg, s, l.pid, l.w); }
      hide RecordsInv, Advance, Present, Clash;
      var t := Exec(cfg, s, l);
      assert t.records == s.records;
      forall p, status | Written(t, id) && p in t.calls && InWindow(t.calls[p], id)
                         && WillFile(cfg, t, labels[1..], p, status)
        ensures Filed(t, id).1 == Some(status)
      {
        assert WillFile(cfg, s, labels, p, status);
      }
    }
  }

  lemma {:induction false} RunStays(cfg: Config, s: State, labels: seq<Label>, id: string)
    requires cfg.store == Memory && AllProvided(labels) && Inv(s) && Alike(cfg, s, labels, id)
    requires !Clashes(cfg, s, labels, id)
    ensures Stays(cfg, s, labels, id)
    decreases |labels|
  {
    hide Inv, Exec, Clash, Alike, StatusKept, Provided;
    if labels != [] {
      ExecKeepsInv(cfg, s, labels[0]);
      assert RecordsInv(s.records) by { InvRecords(s); }
      ExecStaysAlike(cfg, s, labels, id);
      RunStays(cfg, Exec(cfg, s, labels[0]), labels[1..], id);
    }
  }

  lemma InvRecords(s: State)
    requires Inv(s)
    ensures RecordsInv(s.records) && Ordered(s) && forall p :: p in s.calls ==> ThreadInv(s, s.calls[p])
  {
  }

  // ----- with a clash it does not

  predicate Holding(s: State, p: nat, id: string) {
    p in s.calls && s.calls[p].pc.Marking? && s.calls[p].args.decisionId == id
  }

  /** Receipts in hand and on file are of the one use MTP recorded. */
  ghost predicate OneUse(s: State, id: string) {
    && (forall p :: Holding(s, p, id) ==>
          && id in s.mtp && s.calls[p].pc.receipt.auditId == s.mtp[id].auditId
          && s.calls[p].pc.receipt.executionRef == s.calls[p].args.executionRef)
    && (Filed(s, id).0.Some? ==> id in s.mtp && Filed(s, id).0.value == s.mtp[id].auditId)
  }

  lemma ElsewhereOneUse(s: State, t: State, id: string)
    requires OneUse(s, id) && Elsewhere(s, t, id)
    ensures OneUse(t, id)
  {
    forall p | Holding(t, p, id) ensures Holding(s, p, id) && t.calls[p] == s.calls[p] {
      assert InWindow(t.calls[p], id);
    }
  }

  lemma CallOneUse(cfg: Config, s: State, pid: nat, w: Weather)
    requires pid in s.calls && s.calls[pid].pc.Calling? && OneUse(s, s.calls[pid].args.decisionId)
    ensures OneUse(Advance(cfg, s, pid, w), s.calls[pid].args.decisionId)
  {
    StepCalls(cfg, s, pid, w);
    hide Advance;
    var id := s.calls[pid].args.decisionId;
    var t := Advance(cfg, s, pid, w);
    assert Filed(t, id) == Filed(s, id);
    forall p | Holding(t, p, id) ensures p != pid ==> Holding(s, p, id) && t.calls[p] == s.calls[p] {}
  }

  lemma MarkOneUse(cfg: Config, s: State, pid: nat, w: Weather)
    requires cfg.store == Memory && pid in s.calls && s.calls[pid].pc.Marking? && ThreadInv(s, s.calls[pid])
    requires OneUse(s, s.calls[pid].args.decisionId)
    ensures var id := s.calls[pid].args.decisionId;
            var t := Advance(cfg, s, pid, w);
            && OneUse(t, id)
            && (w.fault != LostRequest ==> Filed(t, id).1 == Some(s.calls[pid].pc.receipt.status))
  {
    var id := s.calls[pid].args.decisionId;
    var t := Advance(cfg, s, pid, w);
    assert Holding(s, pid, id);
    StepMarks(cfg, s, pid, w);
    hide Advance;
    forall p | Holding(t, p, id) ensures p != pid && Holding(s, p, id) && t.calls[p] == s.calls[p] {}
  }

  lemma ExecOneUse(cfg: Config, s: State, l: Label, id: string)
    requires cfg.store == Memory && Inv(s) && Provided(l) && OneUse(s, id)
    ensures OneUse(Exec(cfg, s, l), id)
  {
    InvRecords(s);
    hide Inv, Advance, RecordsInv, Ordered;
    if !Moves(s, l, id) {
      hide Exec, OneUse;
      ExecElsewhere(cfg, s, l, id);
      ElsewhereOneUse(s, Exec(cfg, s, l), id);
    } else if l.Crash? {
      var t := Exec(cfg, s, l);
      forall p | Holding(t, p, id) ensures Holding(s, p, id) && t.calls[p] == s.calls[p] {}
      assert Filed(t, id) == Filed(s, id);
    } else if s.calls[l.pid].pc.Calling? {
      hide OneUse;
      CallOneUse(cfg, s, l.pid, l.w);
    } else {
      hide OneUse;
      MarkOneUse(cfg, s, l.pid, l.w);
    }
  }

  lemma {:induction false} StatusLasts(cfg: Config, s: State, labels: seq<Label>, id: string)
    requires Written(s, id) && Stays(cfg, s, labels, id)
    ensures Filed(Run(cfg, s, labels), id).1 == Filed(s, id).1
    decreases |labels|
  {
    hide Exec, Filed;
    if labels != [] { StatusLasts(cfg, Exec(cfg, s, labels[0]), labels[1..], id); }
  }

  /** A call never changes what it was asked. */
  lemma ArgsStay(cfg: Config, s: State, l: Label, p: nat)
    requires p in s.calls
    ensures p in Exec(cfg, s, l).calls && Exec(cfg, s, l).calls[p].args == s.calls[p].args
  {
    if l.Go? && l.pid in s.calls {
      StepAlone(cfg, s, l.pid, l.w);
    }
    hide Advance, Apply;
  }

  /** Where the status stays, whatever receipt a call puts on file is on file in the end. */
  lemma {:induction false} FiledLasts(cfg: Config, s: State, labels: seq<Label>, id: string, p: nat, status: ReceiptStatus)
    requires cfg.store == Memory && AllProvided(labels) && Inv(s) && OneUse(s, id) && Stays(cfg, s, labels, id)
    requires p in s.calls && s.calls[p].args.decisionId == id && WillFile(cfg, s, labels, p, status)
    ensures Filed(Run(cfg, s, labels), id).1 == Some(status)
    decreases |labels|
  {
    var l := labels[0];
    var t := Exec(cfg, s, l);
    if Files(s, l, p, status) {
      InvRecords(s);
      MarkOneUse(cfg, s, p, l.w);
      assert t == Advance(cfg, s, p, l.w);
      hide Exec, Advance, Inv, OneUse, Filed;
      StatusLasts(cfg, t, labels[1..], id);
    } else {
      hide Exec, Inv, OneUse, Filed, Provided;
      ExecKeepsInv(cfg, s, l);
      ExecOneUse(cfg, s, l, id);
      ArgsStay(cfg, s, l, p);
      FiledLasts(cfg, t, labels[1..], id, p, status);
    }
  }

  lemma {:induction false} StayingNeverClashes(cfg: Config, s: State, labels: seq<Label>, id: string)
    requires cfg.store == Memory && AllProvided(labels) && Inv(s) && OneUse(s, id) && Stays(cfg, s, labels, id)
    ensures !Clashes(cfg, s, labels, id)
    decreases |labels|
  {
    hide Inv, OneUse, Exec, Provided;
    if Clash(cfg, s, labels, id) {
      var p, q :| Beside(s, p, q, id) && WillFile(cfg, s, labels, p, FirstUse) && WillFile(cfg, s, labels, q, Repeat);
      FiledLasts(cfg, s, labels, id, p, FirstUse);
      FiledLasts(cfg, s, labels, id, q, Repeat);
    } else if labels != [] {
      hide Clash;
      ExecKeepsInv(cfg, s, labels[0]);
      ExecOneUse(cfg, s, labels[0], id);
      StayingNeverClashes(cfg, Exec(cfg, s, labels[0]), labels[1..], id);
    }
  }

  /** The exact condition, over every run with its faults and crashes: the in-memory store keeps the status it wrote
      first if and only if no two calls for the decision, between receipt check and checkpoint at once, put different
      receipts on file. */
  lemma MemoryStatusStaysExactlyWhen(cfg: Config, labels: seq<Label>, id: string)
    requires cfg.store == Memory && AllProvided(labels)
    ensures Stays(cfg, INITIAL, labels, id) <==> !Clashes(cfg, INITIAL, labels, id)
  {
    assert Inv(INITIAL) && OneUse(INITIAL, id) && Alike(cfg, INITIAL, labels, id);
    hide Stays, Clashes, Inv, OneUse, Alike;
    if Stays(cfg, INITIAL, labels, id) {
      StayingNeverClashes(cfg, INITIAL, labels, id);
    } else if !Clashes(cfg, INITIAL, labels, id) {
      RunStays(cfg, INITIAL, labels, id);
    }
  }

  // ----- the run that shows it

  const CALM := Weather(0, NoFault, false, "audit", false)

  /** The authorisation is stored and two calls for it begin under one reference. */
  function Setup(a: Authorization): seq<Label> {
    var args := Args("d", a.actionHash, "r");
    [OtherStore(Save("d", a)), Begin(0, args), Begin(1, args)]
  }

  /** Four awaits: the authorisation, the claim, the receipt check, and on to MTP. */
  function ToMtp(pid: nat): seq<Label> {
    [Go(pid, CALM), Go(pid, CALM), Go(pid, CALM), Go(pid, CALM)]
  }

  /** Both use MTP, and the first puts its receipt on file; the second's checkpoint is still to come. */
  const USES := [Go(0, CALM), Go(1, CALM), Go(0, CALM)]

  lemma {:induction false} RunOn(cfg: Config, s: State, labels: seq<Label>, more: seq<Label>)
    ensures Run(cfg, s, labels + more) == Run(cfg, Run(cfg, s, labels), more)
    decreases |labels|
  {
    hide Exec;
    if labels == [] {
      assert labels + more == more;
    } else {
      assert (labels + more)[1..] == labels[1..] + more;
      RunOn(cfg, Exec(cfg, s, labels[0]), labels[1..], more);
    }
  }

  lemma RunThree(cfg: Config, s: State, k: Label, l: Label, m: Label)
    ensures Run(cfg, s, [k, l, m]) == Exec(cfg, Exec(cfg, Exec(cfg, s, k), l), m)
  {
    hide Exec;
    var s1 := Exec(cfg, s, k);
    var s2 := Exec(cfg, s1, l);
    assert [k, l, m][1..] == [l, m] && [l, m][1..] == [m] && [m][1..] == [];
    assert Run(cfg, s2, [m]) == Run(cfg, Exec(cfg, s2, m), []);
    assert Run(cfg, s1, [l, m]) == Run(cfg, s2, [m]);
    assert Run(cfg, s, [k, l, m]) == Run(cfg, s1, [l, m]);
  }

  /** A call on its way to MTP finds the authorisation free or claimed by its own reference, and no receipt. */
  lemma ReachesMtp(cfg: Config, s: State, pid: nat, args: Args)
    requires cfg.store == Memory && pid in s.calls && s.calls[pid] == Thread(args, Entering) && UsableRef(args.executionRef)
    requires args.decisionId in s.records && Claimable(s.records, args) && s.records[args.decisionId].auditId.None?
    ensures var t := Run(cfg, s, ToMtp(pid));
            && t == s.(records := t.records, calls := s.calls[pid := Thread(args, Calling)])
            && t.records == s.records[args.decisionId := s.records[args.decisionId].(executionRef := Some(args.executionRef))]
  {
    var l := Go(pid, CALM);
    hide RefTaken, UsableRef;
    var s1 := Exec(cfg, s, l);
    assert s1 == At(s, pid, Looking);
    var s2 := Exec(cfg, s1, l);
    assert s2 == At(s, pid, Claiming);
    var s3 := Exec(cfg, s2, l);
    var r := s.records[args.decisionId].(executionRef := Some(args.executionRef));
    assert s3 == At(s.(records := s.records[args.decisionId := r]), pid, Rereading);
    var s4 := Exec(cfg, s3, l);
    assert s4 == At(s.(records := s.records[args.decisionId := r]), pid, Calling);
    hide Exec;
    assert ToMtp(pid)[1..] == [l, l, l];
    assert Run(cfg, s, ToMtp(pid)) == Run(cfg, s1, [l, l, l]);
    RunThree(cfg, s1, l, l, l);
  }

  /** Two concurrent calls for one decision: the in-memory store first has the first use on file, then the repetition. */
  lemma RepeatedReceiptsDiffer(a: Authorization)
    ensures var cfg := Config(Memory, true);
            var labels := Setup(a) + ToMtp(0) + ToMtp(1) + USES;
            && Filed(Run(cfg, INITIAL, labels), "d") == (Some("audit"), Some(FirstUse))
            && Filed(Run(cfg, INITIAL, labels + [Go(1, CALM)]), "d") == (Some("audit"), Some(Repeat))
  {
    var cfg := Config(Memory, true);
    var args := Args("d", a.actionHash, "r");
    assert UsableRef("r") by { assert !IsBlank("r"[0]); }
    var record := Record(a, None, None, None, None);
    var s := State(map["d" := record], map[], map[], map[], map[0 := Thread(args, Entering), 1 := Thread(args, Entering)]);
    assert Run(cfg, INITIAL, Setup(a)) == s by {
      RunThree(cfg, INITIAL, Setup(a)[0], Setup(a)[1], Setup(a)[2]);
    }
    assert !RefTaken(s.records, "d", a.agentId, "r");
    hide UsableRef, RefTaken, Run;
    ReachesMtp(cfg, s, 0, args);
    var t := Run(cfg, s, ToMtp(0));
    ReachesMtp(cfg, t, 1, args);
    var u := Run(cfg, t, ToMtp(1));
    BothUse(cfg, u, args, record.(executionRef := Some("r")));
    RunOn(cfg, INITIAL, Setup(a), ToMtp(0));
    RunOn(cfg, INITIAL, Setup(a) + ToMtp(0), ToMtp(1));
    RunOn(cfg, INITIAL, Setup(a) + ToMtp(0) + ToMtp(1), USES);
    RunOn(cfg, INITIAL, Setup(a) + ToMtp(0) + ToMtp(1) + USES, [Go(1, CALM)]);
  }

  lemma BothUse(cfg: Config, s: State, args: Args, record: Record)
    requires cfg.store == Memory && cfg.idempotent && args.decisionId == "d" && record.executionRef == Some(args.executionRef)
    requires s == State(map["d" := record], map[], map[], map[],
                        map[0 := Thread(args, Calling), 1 := Thread(args, Calling)]) && record.auditId.None?
    ensures var t := Run(cfg, s, USES);
            && Filed(t, "d") == (Some("audit"), Some(FirstUse))
            && Filed(Run(cfg, t, [Go(1, CALM)]), "d") == (Some("audit"), Some(Repeat))
  {
    RunThree(cfg, s, USES[0], USES[1], USES[2]);
    var first, again := Receipt(args.executionRef, "audit", FirstUse), Receipt(args.executionRef, "audit", Repeat);
    var s1 := Exec(cfg, s, USES[0]);
    assert s1 == At(s.(mtp := map["d" := Use(args.executionRef, "audit")]), 0, Marking(first));
    var s2 := Exec(cfg, s1, USES[1]);
    assert s2 == At(s1, 1, Marking(again));
    var s3 := Exec(cfg, s2, USES[2]);
    assert s3.records == map["d" := record.(auditId := Some("audit"), status := Some(FirstUse))];
    assert s3.calls[1] == Thread(args, Marking(again));
    var s4 := Exec(cfg, s3, Go(1, CALM));
    assert s4.records == map["d" := record.(auditId := Some("audit"), status := Some(Repeat))];
    assert Run(cfg, s4, []) == s4;
    assert Run(cfg, s3, [Go(1, CALM)]) == s4;
  }
}
