/** How often one consumption's revalidation is recorded: never twice by the SQL store, and by the in-memory store
    (packages/kya-os-authority/src/state-store.ts) exactly when two calls of one request, whose pushes
    both reach it, stand between its check and its push at once. */
module KyaOnce {
  import opened Prelude
  import N = KyaNonces
  import opened Kya
  import opened KyaSafety

  predicate SameTriple(r: Revalidation, q: Revalidation) {
    BothConsume(r, q) && r.decisionId == q.decisionId && r.actionHash == q.actionHash && r.executionRef == q.executionRef
  }

  /** No two verified records of one decision, action and reference. */
  ghost predicate Unrepeated(log: seq<Revalidation>) {
    forall k, l :: 0 <= k < l < |log| ==> !SameTriple(log[k], log[l])
  }

  ghost predicate Referenced(log: seq<Revalidation>) {
    forall k :: 0 <= k < |log| && log[k].kind == Consumption ==> log[k].executionRef.Some?
  }

  lemma AppendUnrepeated(log: seq<Revalidation>, record: Revalidation)
    requires Unrepeated(log) && Referenced(log)
    requires record.kind == Consumption ==> record.executionRef.Some?
    requires record.kind == Consumption && record.verified.Some? ==>
               !Revalidated(log, record.decisionId, record.actionHash, record.executionRef.value)
    ensures Unrepeated(log + [record]) && Referenced(log + [record])
  {
    var t := log + [record];
    forall k, l | 0 <= k < l < |t| ensures !SameTriple(t[k], t[l]) {
      assert t[k] == log[k];
      if l < |log| { assert t[l] == log[l]; } else { TripleRevalidates(log, k, record); }
    }
  }

  // ----- the SQL store

  ghost predicate OncePerTriple(s: State) {
    && Unrepeated(s.revalidations) && Referenced(s.revalidations)
    && (forall pid :: pid in s.calls ==> !s.calls[pid].pc.Pushing?)
  }

  lemma AppendKeepsOnce(s: State, pid: nat, fault: Fault, record: Revalidation, pc: Pc)
    requires OncePerTriple(s) && pid in s.calls && !pc.Pushing?
    requires record.kind == Consumption ==> record.executionRef.Some?
    requires record.kind == Consumption && record.verified.Some? ==>
               !Revalidated(s.revalidations, record.decisionId, record.actionHash, record.executionRef.value)
    ensures OncePerTriple(Append(s, pid, fault, record, pc))
  {
    AppendUnrepeated(s.revalidations, record);
    hide Unrepeated, Referenced, Revalidated;
  }

  lemma TripleRevalidates(log: seq<Revalidation>, k: nat, record: Revalidation)
    requires k < |log| && (record.kind == Consumption ==> record.executionRef.Some?)
    ensures SameTriple(log[k], record) ==>
              Revalidated(log, record.decisionId, record.actionHash, record.executionRef.value)
  {
    if SameTriple(log[k], record) {
      assert Revalidates(log[k], record.decisionId, record.actionHash, record.executionRef.value);
    }
  }

  lemma AdvanceKeepsOnce(s: State, pid: nat, w: Weather)
    requires OncePerTriple(s) && pid in s.calls && ThreadInv(s, pid, s.calls[pid])
    ensures OncePerTriple(Advance(Database, s, pid, w))
  {
    hide Verify, Revalidated, Append, Unrepeated, Referenced;
    var request := s.calls[pid].request;
    match s.calls[pid].pc
    case Noting(stored) => AppendKeepsOnce(s, pid, w.fault, RecordFor(request, stored, None), Done(false));
    case AppendingApproval(stored, n) =>
      AppendKeepsOnce(s, pid, w.fault, RecordFor(request, stored, Some(n)), Resolving(stored, n));
    case Checking(stored, n) =>
      if !Revalidated(s.revalidations, request.decisionId, request.actionHash, request.executionRef) {
        AppendKeepsOnce(s, pid, w.fault, RecordFor(request, stored, Some(n)), CallingInner);
      }
    case _ => QuietKeepsOnce(s, pid, w);
  }

  lemma QuietKeepsOnce(s: State, pid: nat, w: Weather)
    requires OncePerTriple(s) && pid in s.calls && ThreadInv(s, pid, s.calls[pid])
    requires !s.calls[pid].pc.Noting? && !s.calls[pid].pc.AppendingApproval? && !s.calls[pid].pc.Checking?
    ensures OncePerTriple(Advance(Database, s, pid, w))
  {
    QuietAdvance(Database, s, pid, w);
    hide Advance, Unrepeated, Referenced, ThreadInv;
    var t := Advance(Database, s, pid, w);
    assert forall p :: p in t.calls && p != pid ==> t.calls[p] == s.calls[p];
  }

  lemma QuietAdvance(b: Backend, s: State, pid: nat, w: Weather)
    requires pid in s.calls && !s.calls[pid].pc.Pushing?
    requires !s.calls[pid].pc.Noting? && !s.calls[pid].pc.AppendingApproval? && !s.calls[pid].pc.Checking?
    ensures var t := Advance(b, s, pid, w);
            Quiet(s, t, pid) && !t.calls[pid].pc.Pushing?
  {
    hide Verify, Revalidated, Append, Check, Start, SaveAuthority, CallInner, SameIdentity;
    match s.calls[pid].pc
    case VerifyingApproval(_) => hide AskProvider;
    case VerifyingConsumption(_) => hide AskProvider;
    case _ => hide FreshAuthority;
  }

  lemma {:induction false} RunKeepsOnce(s: State, labels: seq<Label>)
    requires Inv(s) && OncePerTriple(s)
    ensures OncePerTriple(Run(Database, s, labels))
    decreases |labels|
  {
    if labels != [] {
      var t := Exec(Database, s, labels[0]);
      ExecKeepsInv(Database, s, labels[0]);
      hide Inv;
      ExecKeepsOnce(s, labels[0]);
      hide Exec, OncePerTriple;
      RunKeepsOnce(t, labels[1..]);
    }
  }

  lemma ExecKeepsOnce(s: State, l: Label)
    requires Inv(s) && OncePerTriple(s)
    ensures OncePerTriple(Exec(Database, s, l))
  {
    hide Advance, ThreadInv;
    if l.Go? && l.pid in s.calls { AdvanceKeepsOnce(s, l.pid, l.w); }
  }

  /** The SQL store never holds two verified records of one decision, action and reference. */
  lemma SqlRecordsOnce(labels: seq<Label>, k: nat, l: nat)
    requires k < l < |Run(Database, INITIAL, labels).revalidations|
    ensures var s := Run(Database, INITIAL, labels); !SameTriple(s.revalidations[k], s.revalidations[l])
  {
    RunKeepsOnce(INITIAL, labels);
  }

  // ----- the in-memory store

  /** The label moves this call. */
  predicate MovesCall(l: Label, pid: nat) {
    (l.Go? || l.Crash?) && l.pid == pid
  }

  /** The next move of this call reaches the store. */
  predicate Delivered(labels: seq<Label>, pid: nat)
    decreases |labels|
  {
    && labels != []
    && if MovesCall(labels[0], pid) then labels[0].Go? && labels[0].w.fault != LostRequest
       else Delivered(labels[1..], pid)
  }

  /** Two calls of one request have both looked and neither has pushed. */
  predicate Beside(s: State, p: nat, q: nat) {
    && p in s.calls && q in s.calls && p != q && s.calls[p].request == s.calls[q].request
    && s.calls[p].pc.Pushing? && s.calls[q].pc.Pushing?
  }

  /** Two such calls, both of whose pushes reach the store. */
  ghost predicate Collide(s: State, labels: seq<Label>) {
    exists p, q :: Beside(s, p, q) && Delivered(labels, p) && Delivered(labels, q)
  }

  ghost predicate Collides(s: State, labels: seq<Label>)
    decreases |labels|
  {
    Collide(s, labels) || (labels != [] && Collides(Exec(Memory, s, labels[0]), labels[1..]))
  }

  // ----- without a collision

  /** If this call is about to push, and will, its triple is not on record. */
  predicate Unpushed(s: State, labels: seq<Label>, pid: nat)
    requires pid in s.calls
  {
    var request := s.calls[pid].request;
    s.calls[pid].pc.Pushing? ==>
      && request.Consume?
      && (Delivered(labels, pid) ==>
            !Revalidated(s.revalidations, request.decisionId, request.actionHash, request.executionRef))
  }

  ghost predicate OnceBut(s: State, labels: seq<Label>, pid: nat) {
    && Unrepeated(s.revalidations) && Referenced(s.revalidations)
    && (forall q :: q in s.calls && q != pid ==> Unpushed(s, labels, q))
  }

  ghost predicate OnceSoFar(s: State, labels: seq<Label>) {
    && Unrepeated(s.revalidations) && Referenced(s.revalidations)
    && (forall pid :: pid in s.calls ==> Unpushed(s, labels, pid))
  }

  /** A record of another request leaves a triple as unrecorded as it was. */
  lemma OtherRecord(log: seq<Revalidation>, record: Revalidation, id: string, hash: Action, ref: string)
    requires !Revalidates(record, id, hash, ref)
    ensures Revalidated(log + [record], id, hash, ref) <==> Revalidated(log, id, hash, ref)
  {
    var t := log + [record];
    if Revalidated(log, id, hash, ref) {
      var k :| 0 <= k < |log| && Revalidates(log[k], id, hash, ref);
      assert t[k] == log[k];
    }
  }

  /** A new record must be the first of its triple, and the triple of no push to come. */
  lemma AppendOnce(s: State, pid: nat, fault: Fault, record: Revalidation, pc: Pc, rest: seq<Label>)
    requires OnceBut(s, rest, pid) && pid in s.calls && !pc.Pushing?
    requires record.kind == Consumption ==> record.executionRef.Some?
    requires record.kind == Consumption && record.verified.Some? ==>
               !Revalidated(s.revalidations, record.decisionId, record.actionHash, record.executionRef.value)
    requires forall q :: q in s.calls && q != pid && s.calls[q].pc.Pushing? && s.calls[q].request.Consume?
                         && Delivered(rest, q) ==>
               var r := s.calls[q].request; !Revalidates(record, r.decisionId, r.actionHash, r.executionRef)
    ensures OnceSoFar(Append(s, pid, fault, record, pc), rest)
  {
    AppendUnrepeated(s.revalidations, record);
    hide Unrepeated, Referenced, Revalidated, Revalidates, Delivered;
    var t := Append(s, pid, fault, record, pc);
    forall q | q in t.calls ensures Unpushed(t, rest, q) {
      if q != pid {
        assert Unpushed(s, rest, q);
        if s.calls[q].pc.Pushing? && Delivered(rest, q) {
          var r := s.calls[q].request;
          OtherRecord(s.revalidations, record, r.decisionId, r.actionHash, r.executionRef);
        }
      }
    }
  }

  lemma CheckOnce(s: State, pid: nat, w: Weather, stored: Authority, n: nat, rest: seq<Label>)
    requires OnceBut(s, rest, pid) && pid in s.calls
    ensures OnceSoFar(Check(Memory, s, pid, w, stored, n), rest)
  {
    hide Unrepeated, Referenced, Revalidated, Delivered;
    var t := Check(Memory, s, pid, w, stored, n);
    assert t.revalidations == s.revalidations;
    forall q | q in t.calls ensures Unpushed(t, rest, q) {
      if q != pid { assert Unpushed(s, rest, q); }
    }
  }

  lemma QuietOnce(s: State, t: State, pid: nat, rest: seq<Label>)
    requires OnceBut(s, rest, pid) && pid in t.calls && Quiet(s, t, pid) && !t.calls[pid].pc.Pushing?
    ensures OnceSoFar(t, rest)
  {
    hide Unrepeated, Referenced, Revalidated, Delivered;
    forall q | q in t.calls ensures Unpushed(t, rest, q) {
      if q != pid { assert Unpushed(s, rest, q); }
    }
  }

  lemma PushOnce(s: State, pid: nat, w: Weather, stored: Authority, n: nat, rest: seq<Label>)
    requires OnceBut(s, rest, pid) && pid in s.calls && s.calls[pid].pc.Pushing? && s.calls[pid].request.Consume?
    requires w.fault != LostRequest ==> Unpushed(s, [Go(pid, w)], pid)
    requires w.fault != LostRequest ==> forall q :: Beside(s, pid, q) ==> !Delivered(rest, q)
    ensures OnceSoFar(Append(s, pid, w.fault, RecordFor(s.calls[pid].request, stored, Some(n)), CallingInner), rest)
  {
    var request := s.calls[pid].request;
    var record := RecordFor(request, stored, Some(n));
    if w.fault == LostRequest {
      QuietOnce(s, Append(s, pid, w.fault, record, CallingInner), pid, rest);
    } else {
      assert Delivered([Go(pid, w)], pid);
      hide Delivered;
      forall q | q in s.calls && q != pid && s.calls[q].pc.Pushing? && s.calls[q].request.Consume? && Delivered(rest, q)
        ensures var r := s.calls[q].request; !Revalidates(record, r.decisionId, r.actionHash, r.executionRef)
      {
        assert !Beside(s, pid, q);
      }
      hide OnceBut, OnceSoFar, Revalidated;
      AppendOnce(s, pid, w.fault, record, CallingInner, rest);
    }
  }

  /** A rejected record, or one of an approval. */
  lemma HarmlessOnce(s: State, pid: nat, fault: Fault, record: Revalidation, pc: Pc, rest: seq<Label>)
    requires OnceBut(s, rest, pid) && pid in s.calls && !pc.Pushing?
    requires record.kind == Approval || (record.executionRef.Some? && record.verified.None?)
    ensures OnceSoFar(Append(s, pid, fault, record, pc), rest)
  {
    hide OnceBut, OnceSoFar, Revalidated, Delivered;
    AppendOnce(s, pid, fault, record, pc, rest);
  }

  lemma AdvanceOnce(s: State, pid: nat, w: Weather, rest: seq<Label>)
    requires OnceBut(s, rest, pid) && pid in s.calls && ThreadInv(s, pid, s.calls[pid])
    requires s.calls[pid].pc.Pushing? ==> s.calls[pid].request.Consume?
    requires w.fault != LostRequest ==> Unpushed(s, [Go(pid, w)], pid)
    requires w.fault != LostRequest ==> forall q :: Beside(s, pid, q) ==> !Delivered(rest, q)
    ensures OnceSoFar(Advance(Memory, s, pid, w), rest)
  {
    hide ThreadInv, OnceBut, OnceSoFar, Verify, Revalidated, Append, Check, Revalidates, Delivered, Unpushed, Beside;
    var request := s.calls[pid].request;
    match s.calls[pid].pc
    case Noting(stored) =>
      if request.Evaluate? {
        QuietOnce(s, Advance(Memory, s, pid, w), pid, rest);
      } else {
        HarmlessOnce(s, pid, w.fault, RecordFor(request, stored, None), Done(false), rest);
      }
    case AppendingApproval(stored, n) => ApprovalOnce(s, pid, w, stored, n, rest);
    case Checking(stored, n) => CheckOnce(s, pid, w, stored, n, rest);
    case Pushing(stored, n) => PushOnce(s, pid, w, stored, n, rest);
    case _ =>
      QuietAdvance(Memory, s, pid, w);
      QuietOnce(s, Advance(Memory, s, pid, w), pid, rest);
  }

  lemma ApprovalOnce(s: State, pid: nat, w: Weather, stored: Authority, n: nat, rest: seq<Label>)
    requires OnceBut(s, rest, pid) && pid in s.calls && s.calls[pid].pc == AppendingApproval(stored, n)
    requires ThreadInv(s, pid, s.calls[pid])
    ensures OnceSoFar(Advance(Memory, s, pid, w), rest)
  {
    var request := s.calls[pid].request;
    assert request.Resolve?;
    hide OnceBut, OnceSoFar, Append, ThreadInv;
    HarmlessOnce(s, pid, w.fault, RecordFor(request, stored, Some(n)), Resolving(stored, n), rest);
  }

  lemma ExecOnce(s: State, labels: seq<Label>)
    requires labels != [] && Inv(s) && OnceSoFar(s, labels) && !Collide(s, labels)
    ensures OnceSoFar(Exec(Memory, s, labels[0]), labels[1..])
  {
    var l, rest := labels[0], labels[1..];
    if l.Go? && l.pid in s.calls {
      assert ThreadInv(s, l.pid, s.calls[l.pid]) && Unpushed(s, labels, l.pid);
      hide Inv, Advance, Unrepeated, Referenced, Revalidated;
      forall q | q in s.calls && q != l.pid ensures Unpushed(s, rest, q) { assert Unpushed(s, labels, q); }
      if l.w.fault != LostRequest {
        assert Delivered(labels, l.pid);
        forall q | Beside(s, l.pid, q) ensures !Delivered(rest, q) { assert Delivered(labels, q) <==> Delivered(rest, q); }
      }
      hide Unpushed, Delivered, Collide;
      assert OnceBut(s, rest, l.pid);
      hide OnceSoFar, OnceBut;
      AdvanceOnce(s, l.pid, l.w, rest);
    } else {
      var t := Exec(Memory, s, l);
      hide Inv, Unrepeated, Referenced, Revalidated, Advance, Collide;
      forall q | q in t.calls ensures Unpushed(t, rest, q) {
        if q in s.calls { assert Unpushed(s, labels, q); }
      }
    }
  }

  lemma {:induction false} RunOnce(s: State, labels: seq<Label>)
    requires Inv(s) && OnceSoFar(s, labels) && !Collides(s, labels)
    ensures Unrepeated(Run(Memory, s, labels).revalidations)
    decreases |labels|
  {
    hide Inv, Exec, Collide, Unrepeated;
    if labels != [] {
      ExecKeepsInv(Memory, s, labels[0]);
      ExecOnce(s, labels);
      hide OnceSoFar;
      RunOnce(Exec(Memory, s, labels[0]), labels[1..]);
    }
  }

  // ----- after a collision

  lemma LogGrows(s: State, l: Label)
    requires Inv(s)
    ensures s.revalidations <= Exec(Memory, s, l).revalidations
  {
    ExecKeepsInv(Memory, s, l);
    hide Inv, Exec;
  }

  lemma {:induction false} LogLasts(s: State, labels: seq<Label>)
    requires Inv(s)
    ensures s.revalidations <= Run(Memory, s, labels).revalidations
    decreases |labels|
  {
    hide Inv, Exec;
    if labels != [] {
      LogGrows(s, labels[0]);
      ExecKeepsInv(Memory, s, labels[0]);
      LogLasts(Exec(Memory, s, labels[0]), labels[1..]);
    }
  }

  function PushOf(s: State, pid: nat): Revalidation
    requires pid in s.calls && s.calls[pid].pc.Pushing? && s.calls[pid].request.Consume?
  {
    RecordFor(s.calls[pid].request, s.calls[pid].pc.stored, Some(s.calls[pid].pc.proof))
  }

  /** A push that reaches the store puts its record in; until then the call stays where it is. */
  lemma PushWaits(s: State, labels: seq<Label>, pid: nat)
    requires pid in s.calls && s.calls[pid].pc.Pushing? && s.calls[pid].request.Consume? && Delivered(labels, pid)
    ensures var t := Exec(Memory, s, labels[0]);
            PushOf(s, pid) in t.revalidations
            || (pid in t.calls && t.calls[pid] == s.calls[pid] && Delivered(labels[1..], pid))
  {
    hide Verify, Revalidated, Start, SaveAuthority, CallInner, FreshAuthority, AskProvider, Check;
    var l := labels[0];
    if l.Go? && l.pid in s.calls {
      if l.pid == pid {
        var t := Exec(Memory, s, l);
        assert t.revalidations[|s.revalidations|] == PushOf(s, pid);
      } else {
        OthersWait(s, l.pid, l.w, pid);
      }
    }
  }

  lemma OthersWait(s: State, p: nat, w: Weather, pid: nat)
    requires p in s.calls && pid in s.calls && p != pid
    ensures var t := Advance(Memory, s, p, w); pid in t.calls && t.calls[pid] == s.calls[pid]
  {
    hide Revalidated, Verify, SaveAuthority, CallInner, Start, FreshAuthority, AskProvider, RecordFor;
    var pc := s.calls[p].pc;
    if !pc.Noting? && !pc.AppendingApproval? && !pc.Checking? && !pc.Pushing? {
      QuietAdvance(Memory, s, p, w);
      hide Advance;
    }
  }

  lemma {:induction false} PushLands(s: State, labels: seq<Label>, pid: nat)
    requires Inv(s) && pid in s.calls && s.calls[pid].pc.Pushing? && s.calls[pid].request.Consume?
    requires Delivered(labels, pid)
    ensures PushOf(s, pid) in Run(Memory, s, labels).revalidations
    decreases |labels|
  {
    PushWaits(s, labels, pid);
    hide Inv, Exec, Delivered;
    var t := Exec(Memory, s, labels[0]);
    ExecKeepsInv(Memory, s, labels[0]);
    if PushOf(s, pid) in t.revalidations {
      LogLasts(t, labels[1..]);
      var k :| 0 <= k < |t.revalidations| && t.revalidations[k] == PushOf(s, pid);
      assert Run(Memory, t, labels[1..]).revalidations[k] == PushOf(s, pid);
    } else {
      PushLands(t, labels[1..], pid);
    }
  }

  /** Two calls of one request push records of one triple, of two verifications. */
  lemma PushesDiffer(s: State, p: nat, q: nat)
    requires Beside(s, p, q) && ThreadInv(s, p, s.calls[p]) && ThreadInv(s, q, s.calls[q])
    ensures s.calls[p].request.Consume?
    ensures PushOf(s, p) != PushOf(s, q) && SameTriple(PushOf(s, p), PushOf(s, q)) && SameTriple(PushOf(s, q), PushOf(s, p))
  {
    hide SameIdentity;
  }

  lemma CollisionIsTwice(s: State, labels: seq<Label>)
    requires Inv(s) && Collide(s, labels)
    ensures !Unrepeated(Run(Memory, s, labels).revalidations)
  {
    hide ThreadInv, PushOf, SameTriple, Run, Delivered;
    var p, q :| Beside(s, p, q) && Delivered(labels, p) && Delivered(labels, q);
    assert ThreadInv(s, p, s.calls[p]) && ThreadInv(s, q, s.calls[q]);
    hide Inv;
    PushesDiffer(s, p, q);
    PushLands(s, labels, p);
    PushLands(s, labels, q);
    var log := Run(Memory, s, labels).revalidations;
    var k :| 0 <= k < |log| && log[k] == PushOf(s, p);
    var l :| 0 <= l < |log| && log[l] == PushOf(s, q);
    assert k < l || l < k;
  }

  lemma {:induction false} CollidesIsTwice(s: State, labels: seq<Label>)
    requires Inv(s) && Collides(s, labels)
    ensures !Unrepeated(Run(Memory, s, labels).revalidations)
    decreases |labels|
  {
    hide Inv, Exec, Collide, Unrepeated;
    if Collide(s, labels) {
      CollisionIsTwice(s, labels);
    } else {
      ExecKeepsInv(Memory, s, labels[0]);
      CollidesIsTwice(Exec(Memory, s, labels[0]), labels[1..]);
    }
  }

  /** The exact condition, over every run with its faults and crashes: the in-memory store records each triple at most
      once if and only if no two calls of one request, whose pushes both reach it, are ever between check and push at
      once. */
  lemma MemoryRecordsOnceExactlyWhen(labels: seq<Label>)
    ensures Unrepeated(Run(Memory, INITIAL, labels).revalidations) <==> !Collides(INITIAL, labels)
  {
    assert OnceSoFar(INITIAL, labels);
    hide Unrepeated, Collides, Run;
    if Collides(INITIAL, labels) {
      CollidesIsTwice(INITIAL, labels);
    } else {
      RunOnce(INITIAL, labels);
    }
  }

  // ----- the run that shows it

  const CALM := Weather(NoFault, Bad, None)

  function Showing(key: N.Key, binding: Binding): Weather {
    Weather(NoFault, Presented(key, 10, false, binding), None)
  }

  /** Call 0 evaluates an action and stores its authority. */
  function Evaluation(key: N.Key, binding: Binding): seq<Label> {
    [Begin(0, Evaluate("core")), Go(0, Showing(key, binding)),
     Go(0, Weather(NoFault, Bad, Some(("d", Bound("core", binding))))), Go(0, CALM)]
  }

  /** Calls 1 and 2 consume the decision under one reference, both up to where they look for an earlier record. */
  function Consumptions(first: N.Key, second: N.Key, binding: Binding): seq<Label> {
    var request := Consume("d", Bound("core", binding), "r");
    [Begin(1, request), Begin(2, request), Go(1, CALM), Go(2, CALM), Go(1, CALM), Go(2, CALM),
     Go(1, Showing(first, binding)), Go(2, Showing(second, binding))]
  }

  const PUSHES := [Go(1, CALM), Go(2, CALM), Go(1, CALM), Go(2, CALM)]

  lemma {:induction false} RunOn(b: Backend, s: State, labels: seq<Label>, more: seq<Label>)
    ensures Run(b, s, labels + more) == Run(b, Run(b, s, labels), more)
    decreases |labels|
  {
    hide Exec;
    if labels == [] {
      assert labels + more == more;
    } else {
      assert (labels + more)[1..] == labels[1..] + more;
      RunOn(b, Exec(b, s, labels[0]), labels[1..], more);
    }
  }

  lemma RunFour(b: Backend, s: State, k: Label, l: Label, m: Label, n: Label)
    ensures Run(b, s, [k, l, m, n]) == Exec(b, Exec(b, Exec(b, Exec(b, s, k), l), m), n)
  {
    hide Exec;
    var s1 := Exec(b, s, k);
    var s2 := Exec(b, s1, l);
    var s3 := Exec(b, s2, m);
    assert [k, l, m, n][1..] == [l, m, n] && [l, m, n][1..] == [m, n] && [m, n][1..] == [n] && [n][1..] == [];
    assert Run(b, s3, [n]) == Run(b, Exec(b, s3, n), []);
    assert Run(b, s2, [m, n]) == Run(b, s3, [n]);
    assert Run(b, s1, [l, m, n]) == Run(b, s2, [m, n]);
    assert Run(b, s, [k, l, m, n]) == Run(b, s1, [l, m, n]);
  }

  lemma AfterEvaluation(key: N.Key, binding: Binding)
    ensures var s := Run(Memory, INITIAL, Evaluation(key, binding));
            && s == State(0, map[key := 10], [Proof(0, key, 0, 10, binding)],
                          map["d" := Authority(Bound("core", binding), Bound("core", binding), binding, 0)], [],
                          map["d" := None], [], map[0 := Thread(Evaluate("core"), Done(true))])
  {
    var l := Evaluation(key, binding);
    RunFour(Memory, INITIAL, l[0], l[1], l[2], l[3]);
    var s1 := Exec(Memory, INITIAL, l[0]);
    var s2 := Exec(Memory, s1, l[1]);
    assert s2.calls == map[0 := Thread(Evaluate("core"), Evaluating(0))];
    var s3 := Exec(Memory, s2, l[2]);
    assert s3.calls == map[0 := Thread(Evaluate("core"), SavingFirst(0, "d", Bound("core", binding)))];
  }

  /** Where two calls of one request stand, with nothing recorded yet. */
  ghost predicate BothAt(s: State, request: Request, first: Pc, second: Pc) {
    && 1 in s.calls && 2 in s.calls && s.revalidations == []
    && s.calls[1] == Thread(request, first) && s.calls[2] == Thread(request, second)
  }

  lemma BothChecking(s: State, first: N.Key, second: N.Key, binding: Binding)
    requires 1 !in s.calls && 2 !in s.calls && s.revalidations == [] && first != second
    requires first !in s.nonces && second !in s.nonces
    requires "d" in s.authorities
          && s.authorities["d"] == Authority(Bound("core", binding), Bound("core", binding), binding, 0)
    ensures var n, stored := |s.proofs|, s.authorities["d"];
            BothAt(Run(Memory, s, Consumptions(first, second, binding)), Consume("d", Bound("core", binding), "r"),
                   Checking(stored, n), Checking(stored, n + 1))
  {
    var request := Consume("d", Bound("core", binding), "r");
    var stored := s.authorities["d"];
    var l := Consumptions(first, second, binding);
    assert l == [l[0], l[1], l[2], l[3]] + [l[4], l[5], l[6], l[7]];
    RunOn(Memory, s, [l[0], l[1], l[2], l[3]], [l[4], l[5], l[6], l[7]]);
    RunFour(Memory, s, l[0], l[1], l[2], l[3]);
    hide Run;
    var t := Run(Memory, s, [l[0], l[1], l[2], l[3]]);
    assert BothAt(t, request, FindingPrior(stored), FindingPrior(stored))
        && t.proofs == s.proofs && t.nonces == s.nonces && t.authorities == s.authorities;
    RunFour(Memory, t, l[4], l[5], l[6], l[7]);
    BothVerify(t, stored, first, second, binding);
  }

  lemma BothVerify(s: State, stored: Authority, first: N.Key, second: N.Key, binding: Binding)
    requires BothAt(s, Consume("d", Bound("core", binding), "r"), FindingPrior(stored), FindingPrior(stored))
    requires first !in s.nonces && second !in s.nonces && first != second && stored.binding == binding
    ensures var t := Exec(Memory, Exec(Memory, s, Go(1, CALM)), Go(2, CALM));
            var u := Exec(Memory, Exec(Memory, t, Go(1, Showing(first, binding))), Go(2, Showing(second, binding)));
            BothAt(u, Consume("d", Bound("core", binding), "r"), Checking(stored, |s.proofs|), Checking(stored, |s.proofs| + 1))
  {
    assert !Revalidated(s.revalidations, "d", Bound("core", binding), "r");
  }

  lemma BothPush(s: State, request: Request, stored: Authority, m: nat, n: nat)
    requires BothAt(s, request, Checking(stored, m), Checking(stored, n)) && request.Consume?
    ensures Run(Memory, s, PUSHES).revalidations
         == [RecordFor(request, stored, Some(m)), RecordFor(request, stored, Some(n))]
  {
    RunFour(Memory, s, PUSHES[0], PUSHES[1], PUSHES[2], PUSHES[3]);
    assert !Revalidated(s.revalidations, request.decisionId, request.actionHash, request.executionRef);
    var t := Exec(Memory, Exec(Memory, s, PUSHES[0]), PUSHES[1]);
    assert BothAt(t, request, Pushing(stored, m), Pushing(stored, n));
    hide Revalidated;
  }

  /** From the start: one evaluation stored, then two consumptions of one request with fresh nonces, which both look
      before either pushes. The log ends with two records of the triple. */
  lemma MemoryRecordsTwice(binding: Binding, key: N.Key, first: N.Key, second: N.Key)
    requires key != first && key != second && first != second
    ensures var log := Run(Memory, INITIAL, Evaluation(key, binding) + Consumptions(first, second, binding) + PUSHES)
                         .revalidations;
            |log| == 2 && SameTriple(log[0], log[1])
  {
    AfterEvaluation(key, binding);
    var s := Run(Memory, INITIAL, Evaluation(key, binding));
    BothChecking(s, first, second, binding);
    var t := Run(Memory, s, Consumptions(first, second, binding));
    BothPush(t, Consume("d", Bound("core", binding), "r"), s.authorities["d"], |s.proofs|, |s.proofs| + 1);
    hide Run;
    RunOn(Memory, INITIAL, Evaluation(key, binding), Consumptions(first, second, binding));
    RunOn(Memory, INITIAL, Evaluation(key, binding) + Consumptions(first, second, binding), PUSHES);
  }
}
