/** The three execution stores and the three drivers over them, in the form of the source, each a refinement of the one
    claim-once journal. */
module ClaimOnceStores {
  import opened Prelude
  import opened Decisions
  import G = Guard
  import GuardDriver
  import opened ClaimOnce

  /** A binding hash together with an execution reference. */
  function Both(bindingHash: Digest, executionRef: string): Digest {
    Fields("execution", [bindingHash, Text(executionRef)])
  }

  // ----- what one call does

  /** What its awaits meet: faults of the store calls, the clock and a refusal at the consumption, and what the two
      external calls give, if they neither throw nor give something invalid. */
  datatype Awaits = Awaits(find: Fault, consume: Fault, consumedAt: int, refused: bool, claim: Fault,
                           first: Option<string>, second: Option<string>, complete: Fault)

  function WeatherAt(a: Awaits, pc: Pc): Weather {
    match pc
    case LookingUp => Weather(0, a.find, false, None)
    case Consuming(_) => Weather(a.consumedAt, a.consume, a.refused, None)
    case Claiming => Weather(0, a.claim, false, None)
    case Executing => Weather(0, NoFault, false, a.first)
    case Finishing(_) => Weather(0, NoFault, false, a.second)
    case Completing(_) => Weather(0, a.complete, false, None)
    case Done(_) => Weather(0, NoFault, false, None)
  }

  type Consumptions = map<(string, string), G.Consumption>

  /** Lookup and consumption: what becomes of the nonce store, and whether the call goes on. */
  function Consumption(consumed: Consumptions, decisions: map<string, Body>, args: Args, a: Awaits): (Consumptions, bool) {
    if a.find != NoFault || a.consume == LostRequest then (consumed, false)
    else
      var (next, success) := G.ConsumeIssued(consumed, Lookup(decisions, args.decisionId), args.actionHash,
                                             args.executionRef, a.consumedAt, a.refused);
      (next, success && a.consume == NoFault)
  }

  function Lookup(decisions: map<string, Body>, id: string): Option<Body> {
    if id in decisions then Some(decisions[id]) else None
  }

  datatype Drive = Drive(journal: map<string, Execution>, outcome: Outcome, executed: bool, finished: bool)

  /** The rest of the call, from its claim on. */
  function Driven(cfg: Config, journal: map<string, Execution>, args: Args, consumed: bool, a: Awaits): Drive {
    if !consumed then Drive(journal, NotConsumed, false, false)
    else if a.claim == LostRequest then Drive(journal, Failed, false, false)
    else
      var (claimed, answer) := Claim(journal, args.key, args.binding);
      if a.claim == LostAnswer then Drive(claimed, Failed, false, false)
      else
        match answer
        case InProgress => Drive(claimed, UnresolvedAttempt, false, false)
        case Conflict => Drive(claimed, ConflictingBinding, false, false)
        case Replay(p) => Drive(claimed, Replayed(p), false, false)
        case Yours => Carried(cfg, claimed, args, a)
  }

  /** From the claimed attempt to its completion. */
  function Carried(cfg: Config, claimed: map<string, Execution>, args: Args, a: Awaits): Drive {
    if a.first.None? then Drive(claimed, Failed, true, false)
    else if a.second.None? then Drive(claimed, Failed, true, true)
    else if a.complete == LostRequest then Drive(claimed, Failed, true, true)
    else
      var payload := cfg.payload(args, a.first.value, a.second.value);
      var (done, accepted) := Complete(claimed, args.key, args.binding, payload);
      Drive(done, if a.complete == NoFault && accepted then Executed(payload) else Failed, true, true)
  }

  /** Executed exactly when the decision was consumed and the key was free and the claim's answer came back, and then the
      answer is the journal's; a failed attempt leaves the key taken. */
  lemma DrivenOnce(cfg: Config, journal: map<string, Execution>, args: Args, consumed: bool, a: Awaits)
    ensures var d := Driven(cfg, journal, args, consumed, a);
            && (d.executed <==> consumed && args.key !in journal && a.claim == NoFault)
            && (d.outcome.Executed? <==> d.executed && a.first.Some? && a.second.Some? && a.complete == NoFault)
            && (d.outcome.Executed? ==> d.outcome.payload == cfg.payload(args, a.first.value, a.second.value))
            && (d.outcome == NotConsumed <==> !consumed)
            && (consumed && a.claim == NoFault && args.key in journal ==>
                  && (d.outcome == ConflictingBinding <==> journal[args.key].binding != args.binding)
                  && (d.outcome == UnresolvedAttempt <==> journal[args.key] == Claimed(args.binding))
                  && (forall p :: d.outcome == Replayed(p) <==> journal[args.key] == Completed(args.binding, p)))
            && (d.outcome.Executed? || d.outcome.Replayed? ==>
                  args.key in d.journal && d.journal[args.key] == Completed(args.binding, d.outcome.payload))
            && (d.executed && !d.outcome.Executed? ==>
                  args.key in d.journal && d.journal[args.key].binding == args.binding
                  && (d.journal[args.key].Completed? <==> a.first.Some? && a.second.Some? && a.complete == LostAnswer))
            && (forall key :: key in journal ==> key in d.journal && d.journal[key] == journal[key])
  {
  }

  /** The next step of one call. */
  function Next(cfg: Config, s: State, pid: nat, a: Awaits): (t: State)
    requires pid in s.calls
    ensures pid in t.calls
  {
    Advance(cfg, s, pid, WeatherAt(a, s.calls[pid].pc))
  }

  /** The machine, moving one call alone from the start. */
  function Alone(cfg: Config, s: State, pid: nat, a: Awaits): State
    requires pid in s.calls
  {
    var claiming := Next(cfg, Next(cfg, s, pid, a), pid, a);
    FromClaiming(cfg, claiming, pid, a)
  }

  function FromClaiming(cfg: Config, s: State, pid: nat, a: Awaits): State
    requires pid in s.calls
  {
    var executing := Next(cfg, s, pid, a);
    FromExecuting(cfg, executing, pid, a)
  }

  function FromExecuting(cfg: Config, s: State, pid: nat, a: Awaits): State
    requires pid in s.calls
  {
    Next(cfg, Next(cfg, Next(cfg, s, pid, a), pid, a), pid, a)
  }

  /** Where the machine's call stands after the drive. */
  ghost predicate Ends(s: State, t: State, pid: nat, d: Drive) {
    && pid in t.calls && t.calls[pid].pc == Done(d.outcome) && t.journal == d.journal
    && |t.executed| == |s.executed| + (if d.executed then 1 else 0)
    && |t.finished| == |s.finished| + (if d.finished then 1 else 0)
  }

  /** Whatever its awaits meet, the machine's call is the driven one. */
  lemma AloneIsDriven(cfg: Config, s: State, pid: nat, a: Awaits)
    requires pid in s.calls && s.calls[pid].pc.LookingUp?
    ensures var args := s.calls[pid].args;
            var c := Consumption(s.consumed, s.decisions, args, a);
            var t := Alone(cfg, s, pid, a);
            && t.consumed == c.0 && Ends(s, t, pid, Driven(cfg, s.journal, args, c.1, a))
  {
    hide G.ConsumeIssued, FromClaiming, ClaimStep, Execute, Finish, CompleteStep, Driven;
    var args := s.calls[pid].args;
    var t := Next(cfg, Next(cfg, s, pid, a), pid, a);
    var c := Consumption(s.consumed, s.decisions, args, a);
    assert t.journal == s.journal && t.executed == s.executed && t.finished == s.finished && t.consumed == c.0;
    assert t.calls[pid] == Thread(args, if c.1 then Claiming else Done(NotConsumed));
    hide Next, Consumption;
    if c.1 {
      ClaimingIsDriven(cfg, t, pid, a);
    } else {
      DoneIdles(cfg, t, pid, a);
      DrivenUnconsumed(cfg, s.journal, args, a);
    }
  }

  lemma DrivenUnconsumed(cfg: Config, journal: map<string, Execution>, args: Args, a: Awaits)
    ensures Driven(cfg, journal, args, false, a) == Drive(journal, NotConsumed, false, false)
  {
  }

  lemma DoneIdles(cfg: Config, s: State, pid: nat, a: Awaits)
    requires pid in s.calls && s.calls[pid].pc.Done?
    ensures Next(cfg, s, pid, a) == s && FromExecuting(cfg, s, pid, a) == s && FromClaiming(cfg, s, pid, a) == s
  {
    hide Consume, ClaimStep, Execute, Finish, CompleteStep;
  }

  lemma ClaimingIsDriven(cfg: Config, s: State, pid: nat, a: Awaits)
    requires pid in s.calls && s.calls[pid].pc.Claiming?
    ensures var t := FromClaiming(cfg, s, pid, a);
            t.consumed == s.consumed && Ends(s, t, pid, Driven(cfg, s.journal, s.calls[pid].args, true, a))
  {
    hide Consume, Execute, Finish, CompleteStep, Carried, FromExecuting;
    var t := Next(cfg, s, pid, a);
    assert t.consumed == s.consumed && t.executed == s.executed && t.finished == s.finished;
    assert t.calls[pid].args == s.calls[pid].args;
    if t.calls[pid].pc.Done? {
      DoneIdles(cfg, t, pid, a);
    } else {
      ExecutingIsCarried(cfg, t, pid, a);
    }
  }

  lemma ExecutingIsCarried(cfg: Config, s: State, pid: nat, a: Awaits)
    requires pid in s.calls && s.calls[pid].pc.Executing?
    ensures var t := FromExecuting(cfg, s, pid, a);
            t.consumed == s.consumed && Ends(s, t, pid, Carried(cfg, s.journal, s.calls[pid].args, a))
  {
    hide Consume, ClaimStep, Finish, CompleteStep;
    var t := Next(cfg, s, pid, a);
    assert t == At(s.(executed := t.executed), pid, t.calls[pid].pc) && |t.executed| == |s.executed| + 1;
    if a.first.Some? {
      hide Execute;
      FinishingIsCarried(cfg, t, pid, a);
      hide Next, Carried;
      assert FromExecuting(cfg, s, pid, a) == Next(cfg, Next(cfg, t, pid, a), pid, a);
    } else {
      DoneIdles(cfg, t, pid, a);
    }
  }

  lemma FinishingIsCarried(cfg: Config, s: State, pid: nat, a: Awaits)
    requires pid in s.calls && a.first.Some? && s.calls[pid].pc == Finishing(a.first.value)
    ensures var d := Carried(cfg, s.journal, s.calls[pid].args, a);
            var t := Next(cfg, Next(cfg, s, pid, a), pid, a);
            && pid in t.calls && t.calls[pid].pc == Done(d.outcome) && t.journal == d.journal && t.consumed == s.consumed
            && t.executed == s.executed && |t.finished| == |s.finished| + 1 && d.executed && d.finished
  {
    hide Consume, ClaimStep, Execute, CompleteStep;
    var t := Next(cfg, s, pid, a);
    assert t.journal == s.journal && t.consumed == s.consumed && t.executed == s.executed;
    assert t.calls[pid].args == s.calls[pid].args && |t.finished| == |s.finished| + 1;
    if a.second.None? {
      DoneIdles(cfg, t, pid, a);
    } else {
      assert t.calls[pid].pc == Completing(cfg.payload(s.calls[pid].args, a.first.value, a.second.value));
      hide Finish, Next;
      CompletingEnds(cfg, t, pid, a);
    }
  }

  lemma CompletingEnds(cfg: Config, s: State, pid: nat, a: Awaits)
    requires pid in s.calls && s.calls[pid].pc.Completing?
    ensures var t := Next(cfg, s, pid, a);
            var args, payload := s.calls[pid].args, s.calls[pid].pc.payload;
            var (done, accepted) := Complete(s.journal, args.key, args.binding, payload);
            && t.journal == (if a.complete == LostRequest then s.journal else done)
            && t.calls[pid].pc == Done(if a.complete == NoFault && accepted then Executed(payload) else Failed)
            && t.consumed == s.consumed && t.executed == s.executed && t.finished == s.finished
  {
    hide Consume, ClaimStep, Execute, Finish, Complete;
  }

  // ----- the stores

  /** AP2: keyed by the payment mandate hash. */
  datatype AP2Execution =
    | AP2Claimed(bindingHash: Digest, executionRef: string)
    | AP2Completed(bindingHash: Digest, executionRef: string, action: string, decision: string, verification: string,
                   receipt: string, result: string)

  function AP2Abstract(e: AP2Execution): Execution {
    match e
    case AP2Claimed(h, ref) => Claimed(Both(h, ref))
    case AP2Completed(h, ref, action, decision, verification, receipt, result) =>
      Completed(Both(h, ref), [action, decision, verification, receipt, result])
  }

  class InMemoryAP2ExecutionStore {
    var executions: map<string, AP2Execution>

    constructor ()
      ensures Contents() == map[]
    {
      executions := map[];
    }

    ghost function Contents(): map<string, Execution>
      reads this
    {
      map key | key in executions :: AP2Abstract(executions[key])
    }

    method ClaimExecution(paymentMandateHash: string, bindingHash: Digest, executionRef: string)
      returns (answer: Answer)
      modifies this
      ensures (Contents(), answer) == Claim(old(Contents()), paymentMandateHash, Both(bindingHash, executionRef))
    {
      if paymentMandateHash !in executions {
        executions := executions[paymentMandateHash := AP2Claimed(bindingHash, executionRef)];
        assert Contents() == old(Contents())[paymentMandateHash := Claimed(Both(bindingHash, executionRef))];
        return Yours;
      }
      var existing := executions[paymentMandateHash];
      if existing.bindingHash != bindingHash || existing.executionRef != executionRef {
        return Conflict;
      }
      if existing.AP2Claimed? {
        return InProgress;
      }
      answer := Replay([existing.action, existing.decision, existing.verification, existing.receipt, existing.result]);
    }

    method CompleteExecution(paymentMandateHash: string, bindingHash: Digest, executionRef: string, action: string,
                             decision: string, verification: string, receipt: string, result: string)
      returns (accepted: bool)
      modifies this
      ensures (Contents(), accepted)
           == Complete(old(Contents()), paymentMandateHash, Both(bindingHash, executionRef),
                       [action, decision, verification, receipt, result])
    {
      if paymentMandateHash !in executions || !executions[paymentMandateHash].AP2Claimed?
         || executions[paymentMandateHash].bindingHash != bindingHash
         || executions[paymentMandateHash].executionRef != executionRef {
        return false;
      }
      executions := executions[paymentMandateHash :=
        AP2Completed(bindingHash, executionRef, action, decision, verification, receipt, result)];
      assert Contents() == old(Contents())[paymentMandateHash :=
        Completed(Both(bindingHash, executionRef), [action, decision, verification, receipt, result])];
      accepted := true;
    }
  }

  /** Wallet signing: keyed by the unsigned transaction hash. */
  datatype EvmExecution =
    | EvmClaimed(bindingHash: Digest, executionRef: string)
    | EvmCompleted(bindingHash: Digest, executionRef: string, action: string, decision: string,
                   unsignedTransaction: string, signedTransaction: string, transactionHash: string)

  function EvmAbstract(e: EvmExecution): Execution {
    match e
    case EvmClaimed(h, ref) => Claimed(Both(h, ref))
    case EvmCompleted(h, ref, action, decision, unsignedTx, signedTx, hash) =>
      Completed(Both(h, ref), [action, decision, unsignedTx, signedTx, hash])
  }

  class InMemoryEvmExecutionStore {
    var executions: map<string, EvmExecution>

    constructor ()
      ensures Contents() == map[]
    {
      executions := map[];
    }

    ghost function Contents(): map<string, Execution>
      reads this
    {
      map key | key in executions :: EvmAbstract(executions[key])
    }

    method ClaimExecution(unsignedTransactionHash: string, bindingHash: Digest, executionRef: string)
      returns (answer: Answer)
      modifies this
      ensures (Contents(), answer) == Claim(old(Contents()), unsignedTransactionHash, Both(bindingHash, executionRef))
    {
      if unsignedTransactionHash !in executions {
        executions := executions[unsignedTransactionHash := EvmClaimed(bindingHash, executionRef)];
        assert Contents() == old(Contents())[unsignedTransactionHash := Claimed(Both(bindingHash, executionRef))];
        return Yours;
      }
      var existing := executions[unsignedTransactionHash];
      if existing.bindingHash != bindingHash || existing.executionRef != executionRef {
        return Conflict;
      }
      answer := if existing.EvmClaimed? then InProgress
                else Replay([existing.action, existing.decision, existing.unsignedTransaction,
                             existing.signedTransaction, existing.transactionHash]);
    }

    method CompleteExecution(unsignedTransactionHash: string, bindingHash: Digest, executionRef: string, action: string,
                             decision: string, unsignedTransaction: string, signedTransaction: string,
                             transactionHash: string)
      returns (accepted: bool)
      modifies this
      ensures (Contents(), accepted)
           == Complete(old(Contents()), unsignedTransactionHash, Both(bindingHash, executionRef),
                       [action, decision, unsignedTransaction, signedTransaction, transactionHash])
    {
      if unsignedTransactionHash !in executions || !executions[unsignedTransactionHash].EvmClaimed?
         || executions[unsignedTransactionHash].bindingHash != bindingHash
         || executions[unsignedTransactionHash].executionRef != executionRef {
        return false;
      }
      executions := executions[unsignedTransactionHash :=
        EvmCompleted(bindingHash, executionRef, action, decision, unsignedTransaction, signedTransaction, transactionHash)];
      assert Contents() == old(Contents())[unsignedTransactionHash :=
        Completed(Both(bindingHash, executionRef),
                  [action, decision, unsignedTransaction, signedTransaction, transactionHash])];
      accepted := true;
    }
  }

  /** A2A: keyed by the execution reference, so the binding hash alone binds. */
  datatype A2AExecution =
    | A2AClaimed(bindingHash: Digest)
    | A2ACompleted(bindingHash: Digest, receipt: string, result: string)

  function A2AAbstract(e: A2AExecution): Execution {
    match e
    case A2AClaimed(h) => Claimed(h)
    case A2ACompleted(h, receipt, result) => Completed(h, [receipt, result])
  }

  class InMemoryA2AExecutionStore {
    var executions: map<string, A2AExecution>

    constructor ()
      ensures Contents() == map[]
    {
      executions := map[];
    }

    ghost function Contents(): map<string, Execution>
      reads this
    {
      map key | key in executions :: A2AAbstract(executions[key])
    }

    method ClaimExecution(executionRef: string, bindingHash: Digest) returns (answer: Answer)
      modifies this
      ensures (Contents(), answer) == Claim(old(Contents()), executionRef, bindingHash)
    {
      if executionRef !in executions {
        executions := executions[executionRef := A2AClaimed(bindingHash)];
        assert Contents() == old(Contents())[executionRef := Claimed(bindingHash)];
        return Yours;
      }
      var existing := executions[executionRef];
      if existing.bindingHash != bindingHash {
        return Conflict;
      }
      if existing.A2AClaimed? {
        return InProgress;
      }
      answer := Replay([existing.receipt, existing.result]);
    }

    method CompleteExecution(executionRef: string, bindingHash: Digest, receipt: string, result: string)
      returns (accepted: bool)
      modifies this
      ensures (Contents(), accepted) == Complete(old(Contents()), executionRef, bindingHash, [receipt, result])
    {
      if executionRef !in executions || !executions[executionRef].A2AClaimed?
         || executions[executionRef].bindingHash != bindingHash {
        return false;
      }
      executions := executions[executionRef := A2ACompleted(bindingHash, receipt, result)];
      assert Contents() == old(Contents())[executionRef := Completed(bindingHash, [receipt, result])];
      accepted := true;
    }
  }

  // ----- the drivers

  /** AP2 and A2A store the receipt, which is made second, before the delegate's result; the wallet the signed
      transaction, then the hash. */
  const DELEGATED := Config((a: Args, result: string, receipt: string) => a.fixed + [receipt, result])

  const BROADCAST := Config((a: Args, signed: string, hash: string) => a.fixed + [signed, hash])

  /** What a driver did besides what the store shows. */
  datatype Report = Report(outcome: Outcome, executed: bool, finished: bool)

  /** Consumption of the decision, as the guard does it before any claim. */
  method ConsumeBefore(nonces: GuardDriver.InMemoryNonceStore, decisions: map<string, Body>, args: Args, a: Awaits)
    returns (success: bool)
    modifies nonces
    ensures (nonces.consumed, success) == Consumption(old(nonces.consumed), decisions, args, a)
  {
    hide G.ConsumeIssued;
    if a.find != NoFault {
      return false;
    }
    var issued := Lookup(decisions, args.decisionId);
    if a.consume == LostRequest {
      return false;
    }
    var status := GuardDriver.ConsumeDecision(nonces, issued, args.actionHash, args.executionRef, a.consumedAt, a.refused);
    success := a.consume == NoFault && (status == GuardDriver.Consumed || status == GuardDriver.Idempotent);
  }

  /** The AP2 gate: delegate, then receipt. `verification` and `action` are what the call verified and built. */
  method ProcessAP2(store: InMemoryAP2ExecutionStore, nonces: GuardDriver.InMemoryNonceStore,
                    decisions: map<string, Body>, decisionId: string, mandateHash: string, bindingHash: Digest,
                    executionRef: string, actionHash: Digest, action: string, decision: string, verification: string,
                    a: Awaits)
    returns (r: Report)
    modifies store, nonces
    ensures var args := Args(mandateHash, Both(bindingHash, executionRef), decisionId, actionHash, executionRef,
                             [action, decision, verification]);
            var consumption := Consumption(old(nonces.consumed), decisions, args, a);
            && nonces.consumed == consumption.0
            && Drive(store.Contents(), r.outcome, r.executed, r.finished)
            == Driven(DELEGATED, old(store.Contents()), args, consumption.1, a)
  {
    hide Consumption;
    var args := Args(mandateHash, Both(bindingHash, executionRef), decisionId, actionHash, executionRef,
                     [action, decision, verification]);
    var success := ConsumeBefore(nonces, decisions, args, a);
    if !success {
      return Report(NotConsumed, false, false);
    }
    if a.claim == LostRequest {
      return Report(Failed, false, false);
    }
    var claim := store.ClaimExecution(mandateHash, bindingHash, executionRef);
    if a.claim == LostAnswer {
      return Report(Failed, false, false);
    }
    match claim {
      case Conflict => return Report(ConflictingBinding, false, false);
      case InProgress => return Report(UnresolvedAttempt, false, false);
      case Replay(p) => return Report(Replayed(p), false, false);
      case Yours =>
    }
    if a.first.None? {
      return Report(Failed, true, false);
    }
    if a.second.None? {
      return Report(Failed, true, true);
    }
    if a.complete == LostRequest {
      return Report(Failed, true, true);
    }
    var accepted := store.CompleteExecution(mandateHash, bindingHash, executionRef, action, decision, verification,
                                            a.second.value, a.first.value);
    var payload := [action, decision, verification, a.second.value, a.first.value];
    assert [action, decision, verification] + [a.second.value, a.first.value] == payload;
    r := Report(if a.complete == NoFault && accepted then Executed(payload) else Failed, true, true);
  }

  /** What the wallet gate makes of its two external calls: a signature of this transaction, and a broadcast that
      reports the hash of what was signed. */
  function Checked(a: Awaits, signsThis: string -> bool, hashOf: string -> string): Awaits {
    var good := if a.first.Some? && signsThis(a.first.value) then a.first else None;
    a.(first := good, second := if good.Some? && a.second == Some(hashOf(good.value)) then a.second else None)
  }

  /** The wallet gate: sign and check what was signed, then broadcast and check the hash it reports. */
  method SignAndBroadcast(store: InMemoryEvmExecutionStore, nonces: GuardDriver.InMemoryNonceStore,
                          decisions: map<string, Body>, decisionId: string, unsignedHash: string, bindingHash: Digest,
                          executionRef: string, actionHash: Digest, action: string, decision: string,
                          unsignedTransaction: string, a: Awaits, signsThis: string -> bool, hashOf: string -> string)
    returns (r: Report)
    modifies store, nonces
    ensures var args := Args(unsignedHash, Both(bindingHash, executionRef), decisionId, actionHash, executionRef,
                             [action, decision, unsignedTransaction]);
            var consumption := Consumption(old(nonces.consumed), decisions, args, a);
            && nonces.consumed == consumption.0
            && Drive(store.Contents(), r.outcome, r.executed, r.finished)
            == Driven(BROADCAST, old(store.Contents()), args, consumption.1, Checked(a, signsThis, hashOf))
  {
    hide Consumption;
    var args := Args(unsignedHash, Both(bindingHash, executionRef), decisionId, actionHash, executionRef,
                     [action, decision, unsignedTransaction]);
    var success := ConsumeBefore(nonces, decisions, args, a);
    if !success {
      return Report(NotConsumed, false, false);
    }
    if a.claim == LostRequest {
      return Report(Failed, false, false);
    }
    var claim := store.ClaimExecution(unsignedHash, bindingHash, executionRef);
    if a.claim == LostAnswer {
      return Report(Failed, false, false);
    }
    match claim {
      case Conflict => return Report(ConflictingBinding, false, false);
      case InProgress => return Report(UnresolvedAttempt, false, false);
      case Replay(p) => return Report(Replayed(p), false, false);
      case Yours =>
    }
    if a.first.None? || !signsThis(a.first.value) {
      return Report(Failed, true, false);
    }
    var expected := hashOf(a.first.value);
    if a.second != Some(expected) {
      return Report(Failed, true, true);
    }
    if a.complete == LostRequest {
      return Report(Failed, true, true);
    }
    var accepted := store.CompleteExecution(unsignedHash, bindingHash, executionRef, action, decision,
                                            unsignedTransaction, a.first.value, expected);
    var payload := [action, decision, unsignedTransaction, a.first.value, expected];
    assert [action, decision, unsignedTransaction] + [a.first.value, expected] == payload;
    r := Report(if a.complete == NoFault && accepted then Executed(payload) else Failed, true, true);
  }

  /** The A2A gate from the consumption of its decision on. */
  method ProcessA2A(store: InMemoryA2AExecutionStore, nonces: GuardDriver.InMemoryNonceStore,
                    decisions: map<string, Body>, decisionId: string, executionRef: string, bindingHash: Digest,
                    actionHash: Digest, a: Awaits)
    returns (r: Report)
    modifies store, nonces
    ensures var args := Args(executionRef, bindingHash, decisionId, actionHash, executionRef, []);
            var consumption := Consumption(old(nonces.consumed), decisions, args, a);
            && nonces.consumed == consumption.0
            && Drive(store.Contents(), r.outcome, r.executed, r.finished)
            == Driven(DELEGATED, old(store.Contents()), args, consumption.1, a)
  {
    hide Consumption;
    var args := Args(executionRef, bindingHash, decisionId, actionHash, executionRef, []);
    var success := ConsumeBefore(nonces, decisions, args, a);
    if !success {
      return Report(NotConsumed, false, false);
    }
    if a.claim == LostRequest {
      return Report(Failed, false, false);
    }
    var claim := store.ClaimExecution(executionRef, bindingHash);
    if a.claim == LostAnswer {
      return Report(Failed, false, false);
    }
    match claim {
      case Conflict => return Report(ConflictingBinding, false, false);
      case InProgress => return Report(UnresolvedAttempt, false, false);
      case Replay(p) => return Report(Replayed(p), false, false);
      case Yours =>
    }
    if a.first.None? {
      return Report(Failed, true, false);
    }
    if a.second.None? {
      return Report(Failed, true, true);
    }
    if a.complete == LostRequest {
      return Report(Failed, true, true);
    }
    var accepted := store.CompleteExecution(executionRef, bindingHash, a.second.value, a.first.value);
    var payload := [a.second.value, a.first.value];
    assert [] + payload == payload;
    r := Report(if a.complete == NoFault && accepted then Executed(payload) else Failed, true, true);
  }
}
