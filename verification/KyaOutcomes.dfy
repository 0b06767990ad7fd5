/** What it means, over every run, that a call through the KYA gate has passed (packages/kya-os-authority/src/gate.ts). */
module KyaOutcomes {
  import opened Prelude
  import N = KyaNonces
  import opened Kya
  import opened KyaSafety

  /** A decision whose authority rests on a verification of this call. */
  predicate StoredBy(s: State, pid: nat, id: string) {
    id in s.authorities && s.authorities[id].proof < |s.proofs| && s.proofs[s.authorities[id].proof].pid == pid
  }

  /** What a call leaves that has passed. */
  ghost predicate Passed(s: State, pid: nat, request: Request) {
    match request
    case Evaluate(core) =>
      exists id :: id in s.issued && s.issued[id] == None && StoredBy(s, pid, id) && s.authorities[id].action.core == core
    case Resolve(parent) => exists id :: id in s.issued && s.issued[id] == Some(parent) && StoredBy(s, pid, id)
    case Consume(id, hash, ref) =>
      exists k :: 0 <= k < |s.inner| && s.inner[k].decisionId == id && s.inner[k].actionHash == hash
                  && s.inner[k].executionRef == ref
  }

  lemma PassedStays(s: State, t: State, pid: nat, request: Request)
    requires Grows(s, t) && Passed(s, pid, request)
    ensures Passed(t, pid, request)
  {
    hide Kept, Phase;
    match request
    case Evaluate(core) =>
      var id :| id in s.issued && s.issued[id] == None && StoredBy(s, pid, id) && s.authorities[id].action.core == core;
      assert StoredBy(t, pid, id);
    case Resolve(parent) =>
      var id :| id in s.issued && s.issued[id] == Some(parent) && StoredBy(s, pid, id);
      assert StoredBy(t, pid, id);
    case Consume(id, hash, ref) =>
      var k :| 0 <= k < |s.inner| && s.inner[k].decisionId == id && s.inner[k].actionHash == hash
               && s.inner[k].executionRef == ref;
      assert t.inner[k] == s.inner[k];
  }

  // ----- the moves that pass

  lemma SavePasses(s: State, pid: nat, fault: Fault, id: string, record: Authority)
    requires pid in s.calls && !s.calls[pid].pc.Done?
    ensures var t := SaveAuthority(s, pid, fault, id, record);
            && t.issued == s.issued && t.proofs == s.proofs
            && (t.calls[pid].pc == Done(true) ==> fault == NoFault && id in t.authorities && t.authorities[id] == record)
  {
  }

  lemma FirstPasses(b: Backend, s: State, pid: nat, w: Weather)
    requires pid in s.calls && s.calls[pid].pc.SavingFirst? && ThreadInv(s, pid, s.calls[pid])
    ensures var t := Advance(b, s, pid, w);
            t.calls[pid].pc == Done(true) ==> Passed(t, pid, s.calls[pid].request)
  {
    hide SaveAuthority, Start, FreshAuthority, AskProvider, Append, Check, CallInner;
    var pc, request := s.calls[pid].pc, s.calls[pid].request;
    var binding := s.proofs[pc.proof].binding;
    SavePasses(s, pid, w.fault, pc.id, Authority(pc.hash, Bound(request.core, binding), binding, pc.proof));
    if Advance(b, s, pid, w).calls[pid].pc == Done(true) { assert StoredBy(Advance(b, s, pid, w), pid, pc.id); }
  }

  lemma NextPasses(b: Backend, s: State, pid: nat, w: Weather)
    requires pid in s.calls && s.calls[pid].pc.SavingNext? && ThreadInv(s, pid, s.calls[pid])
    ensures var t := Advance(b, s, pid, w);
            t.calls[pid].pc == Done(true) ==> Passed(t, pid, s.calls[pid].request)
  {
    hide SaveAuthority, Start, FreshAuthority, AskProvider, Append, Check, CallInner;
    var pc := s.calls[pid].pc;
    var binding := s.proofs[pc.proof].binding;
    SavePasses(s, pid, w.fault, pc.id, Authority(pc.hash, Bound(Core(pc.stored), binding), binding, pc.proof));
    if Advance(b, s, pid, w).calls[pid].pc == Done(true) { assert StoredBy(Advance(b, s, pid, w), pid, pc.id); }
  }

  lemma InnerPasses(s: State, pid: nat)
    requires pid in s.calls && s.calls[pid].request.Consume?
    ensures Passed(CallInner(s, pid), pid, s.calls[pid].request)
  {
    var t, request := CallInner(s, pid), s.calls[pid].request;
    assert t.inner[|s.inner|] == InnerCall(request.decisionId, request.actionHash, request.executionRef, |s.revalidations|);
  }

  lemma StartDoesNotPass(s: State, pid: nat, w: Weather)
    requires pid in s.calls
    ensures Start(s, pid, w).calls[pid].pc != Done(true)
  {
    hide Verify;
  }

  lemma CheckDoesNotPass(b: Backend, s: State, pid: nat, w: Weather, stored: Authority, n: nat)
    requires pid in s.calls
    ensures Check(b, s, pid, w, stored, n).calls[pid].pc != Done(true)
  {
    hide Revalidated, RecordFor;
  }

  lemma AsksDoNotPass(b: Backend, s: State, pid: nat, w: Weather)
    requires pid in s.calls && (s.calls[pid].pc.Evaluating? || s.calls[pid].pc.Blocking? || s.calls[pid].pc.Resolving?)
    ensures Advance(b, s, pid, w).calls[pid].pc != Done(true)
  {
    hide Start, FreshAuthority, SaveAuthority, Append, Check, CallInner, RecordFor, Revalidated;
  }

  lemma FreshDoesNotPass(b: Backend, s: State, pid: nat, w: Weather)
    requires pid in s.calls && (s.calls[pid].pc.VerifyingApproval? || s.calls[pid].pc.VerifyingConsumption?)
    ensures Advance(b, s, pid, w).calls[pid].pc != Done(true)
  {
    hide Start, AskProvider, SaveAuthority, Append, Check, CallInner, RecordFor, Revalidated, Verify, SameIdentity;
  }

  lemma AppendDoesNotPass(s: State, pid: nat, fault: Fault, record: Revalidation, pc: Pc)
    requires pid in s.calls && pc != Done(true)
    ensures Append(s, pid, fault, record, pc).calls[pid].pc != Done(true)
  {
  }

  /** No other move ends a call as passed. */
  lemma OthersDoNotPass(b: Backend, s: State, pid: nat, w: Weather)
    requires pid in s.calls && !s.calls[pid].pc.Done? && !s.calls[pid].pc.CallingInner?
    requires !s.calls[pid].pc.SavingFirst? && !s.calls[pid].pc.SavingNext?
    ensures Advance(b, s, pid, w).calls[pid].pc != Done(true)
  {
    hide Start, FreshAuthority, AskProvider, SaveAuthority, Append, Check, CallInner, RecordFor, Revalidated;
    var request := s.calls[pid].request;
    match s.calls[pid].pc
    case Starting => StartDoesNotPass(s, pid, w);
    case Evaluating(_) => AsksDoNotPass(b, s, pid, w);
    case Blocking => AsksDoNotPass(b, s, pid, w);
    case VerifyingApproval(_) => FreshDoesNotPass(b, s, pid, w);
    case Noting(stored) =>
      if !request.Evaluate? { AppendDoesNotPass(s, pid, w.fault, RecordFor(request, stored, None), Done(false)); }
    case AppendingApproval(stored, n) =>
      if !request.Evaluate? {
        AppendDoesNotPass(s, pid, w.fault, RecordFor(request, stored, Some(n)), Resolving(stored, n));
      }
    case Resolving(_, _) => AsksDoNotPass(b, s, pid, w);
    case VerifyingConsumption(_) => FreshDoesNotPass(b, s, pid, w);
    case Checking(stored, n) => CheckDoesNotPass(b, s, pid, w, stored, n);
    case Pushing(stored, n) =>
      if request.Consume? { AppendDoesNotPass(s, pid, w.fault, RecordFor(request, stored, Some(n)), CallingInner); }
    case FindingPrior(_) =>
  }

  /** A provider or store that failed to answer ends the call without passing it, at whichever await. */
  lemma FailedAwaitsEnd(b: Backend, s: State, pid: nat, w: Weather)
    requires pid in s.calls && w.fault != NoFault
    requires match s.calls[pid].pc
             case Starting => !s.calls[pid].request.Evaluate?
             case VerifyingApproval(_) => false
             case VerifyingConsumption(_) => false
             case Checking(_, _) => b.Database? || w.fault == LostRequest
             case CallingInner => false
             case Done(_) => false
             case _ => true
    ensures Advance(b, s, pid, w).calls[pid].pc == Done(false)
  {
    hide Verify, SameIdentity, Revalidated, RecordFor;
  }

  ghost predicate PassesInv(s: State) {
    forall pid :: pid in s.calls && s.calls[pid].pc == Done(true) ==> Passed(s, pid, s.calls[pid].request)
  }

  lemma MoverPasses(b: Backend, s: State, pid: nat, w: Weather)
    requires pid in s.calls && !s.calls[pid].pc.Done? && ThreadInv(s, pid, s.calls[pid])
    ensures var t := Advance(b, s, pid, w);
            t.calls[pid].pc == Done(true) ==> Passed(t, pid, s.calls[pid].request)
  {
    hide Passed, Start, FreshAuthority, AskProvider, SaveAuthority, Append, Check, CallInner;
    match s.calls[pid].pc
    case SavingFirst(_, _, _) => FirstPasses(b, s, pid, w);
    case SavingNext(_, _, _, _) => NextPasses(b, s, pid, w);
    case CallingInner => InnerPasses(s, pid);
    case _ => OthersDoNotPass(b, s, pid, w);
  }

  lemma GoKeepsPasses(b: Backend, s: State, pid: nat, w: Weather)
    requires Inv(s) && PassesInv(s) && pid in s.calls
    ensures PassesInv(Advance(b, s, pid, w))
  {
    hide Inv, Passed, Advance, ThreadInv;
    var t := Advance(b, s, pid, w);
    ThreadOf(s, pid);
    AdvanceApart(b, s, pid, w);
    if s.calls[pid].pc.Done? {
      DoneIdles(b, s, pid, w);
    } else {
      MoverPasses(b, s, pid, w);
    }
    forall p | p in t.calls && t.calls[p].pc == Done(true) ensures Passed(t, p, t.calls[p].request) {
      if p != pid { PassedStays(s, t, p, s.calls[p].request); }
    }
  }

  lemma ThreadOf(s: State, pid: nat)
    requires Inv(s) && pid in s.calls
    ensures ThreadInv(s, pid, s.calls[pid])
  {
  }

  lemma DoneIdles(b: Backend, s: State, pid: nat, w: Weather)
    requires pid in s.calls && s.calls[pid].pc.Done?
    ensures Advance(b, s, pid, w) == s
  {
  }

  lemma AdvanceApart(b: Backend, s: State, pid: nat, w: Weather)
    requires Inv(s) && pid in s.calls
    ensures var t := Advance(b, s, pid, w);
            Grows(s, t) && forall p :: p in t.calls && p != pid ==> p in s.calls && t.calls[p] == s.calls[p]
  {
    hide Advance, Inv, Grows, ThreadInv;
    AdvanceMoves(b, s, pid, w);
  }

  lemma ExecKeepsPasses(b: Backend, s: State, l: Label)
    requires Inv(s) && PassesInv(s)
    ensures PassesInv(Exec(b, s, l))
  {
    hide Inv, Passed, Advance, Grows;
    ExecKeepsInv(b, s, l);
    var t := Exec(b, s, l);
    if l.Go? && l.pid in s.calls {
      GoKeepsPasses(b, s, l.pid, l.w);
    } else {
      forall p | p in t.calls && t.calls[p].pc == Done(true) ensures Passed(t, p, t.calls[p].request) {
        assert p in s.calls && s.calls[p] == t.calls[p];
        PassedStays(s, t, p, s.calls[p].request);
      }
    }
  }

  lemma {:induction false} RunKeepsPasses(b: Backend, s: State, labels: seq<Label>)
    requires Inv(s) && PassesInv(s)
    ensures PassesInv(Run(b, s, labels))
    decreases |labels|
  {
    hide Inv, PassesInv, Exec;
    if labels != [] {
      ExecKeepsPasses(b, s, labels[0]);
      ExecKeepsInv(b, s, labels[0]);
      RunKeepsPasses(b, Exec(b, s, labels[0]), labels[1..]);
    }
  }

  /** In every run: an evaluation that has passed left a decision on its own action that supersedes nothing, a resolution
      one that supersedes its request, each with a stored authority resting on that very call's verification; and a
      consumption that has passed was put to the inner provider, with its decision, action and reference. */
  lemma PassedCallsDidTheirWork(b: Backend, labels: seq<Label>, pid: nat)
    requires var s := Run(b, INITIAL, labels); pid in s.calls && s.calls[pid].pc == Done(true)
    ensures var s := Run(b, INITIAL, labels); Passed(s, pid, s.calls[pid].request)
  {
    hide Run, Passed;
    assert Inv(INITIAL);
    RunKeepsPasses(b, INITIAL, labels);
  }
}
