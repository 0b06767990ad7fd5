/** Any number of `settleIfAuthorised` calls against shared stores, one step per `await`.

    A label picks who moves, what the clock says, and how a store call or the settle callback fails; `Exec` is total,
    so a sequence of labels is one interleaving with one pattern of faults, and "for all labels" means every run.
    `owner` and `log` are history: who claimed an operation, and every start of a settle callback. */
module Guard {
  import opened Prelude
  import opened Decisions
  import J = Journal

  /** `verified` says whether a call's input and decision verify as an ALLOW at an instant. */
  datatype Config = Config(verified: (Args, int) -> bool, journalled: bool, store: J.Backend)

  /** What one call was given; `action` is absent when the x402 input does not bind to one. */
  datatype Args = Args(action: Option<Action>, requirements: Digest, decision: Decision, executionRef: string)

  datatype Outcome =
    | VerificationFailed
    | ActionMismatch
    | StateUnavailable
    | ConsumptionFailed
    | Conflict
    | OutcomeUnknown
    | AlreadyCompleted
    | FailedFinal
    | Unreconciled
    | SettleThrew
    | Settled
    | Crashed

  datatype Pc =
    | Verifying
    | Preparing
    | LookingUp
    | Consuming(issued: Option<Body>)
    | Starting
    | Reading
    | Calling
    | Settling
    | Marking(call: J.Call, after: Outcome)
    | Done(outcome: Outcome)

  datatype Thread = Thread(args: Args, pc: Pc, verifiedAt: int)

  datatype Consumption = Consumption(actionHash: Digest, executionRef: string)

  /** The settle callback was started for this call, verified at that instant. */
  datatype Start = Start(pid: nat, args: Args, verifiedAt: int)

  datatype State = State(journal: J.Records, decisions: map<string, Body>, consumed: map<(string, string), Consumption>,
                         calls: map<nat, Thread>, owner: map<J.OperationId, nat>, log: seq<Start>)

  datatype SettleResult = Resolves | Throws(errorName: string, classifiedFinal: bool)

  datatype Label =
    | Begin(pid: nat, args: Args)
    | Go(pid: nat, now: Instant, fault: Fault, refused: bool, result: SettleResult)
    | Crash(pid: nat)
    | Issue(body: Body)
    | OtherConsume(decisionId: string, actionHash: Digest, executionRef: string, now: Instant, refused: bool)
    | OtherJournal(call: J.Call)

  function Op(executionRef: string): J.OperationId {
    J.OperationId(X402, J.X402Settlement, executionRef)
  }

  function Binding(args: Args): Digest {
    Fields("inntris-x402-settlement-binding-v1",
           [Text(args.decision.body.decisionId), args.decision.body.actionHash, Text(args.executionRef)])
  }

  /** What the guard checks before anything else. */
  predicate VerifiedAllow(v: Verifier, args: Args, at: int) {
    && args.action.Some?
    && Binds(v, args.decision, args.action.value, at, Some(args.requirements))
    && args.decision.body.verdict == Allow
  }

  // ---- the steps of one call ---------------------------------------------------------------------------

  function At(s: State, pid: nat, pc: Pc): (t: State)
    requires pid in s.calls
    ensures pid in t.calls
  {
    s.(calls := s.calls[pid := s.calls[pid].(pc := pc)])
  }

  function Verify(cfg: Config, s: State, pid: nat, now: int): (t: State)
    requires pid in s.calls
    ensures pid in t.calls
  {
    var t := s.calls[pid];
    if !cfg.verified(t.args, now) then At(s, pid, Done(VerificationFailed))
    else if t.args.action.None? || HashAction(t.args.action.value) != t.args.decision.body.actionHash
    then At(s, pid, Done(ActionMismatch))
    else s.(calls := s.calls[pid := t.(verifiedAt := now, pc := if cfg.journalled then Preparing else LookingUp)])
  }

  function PrepareCall(args: Args, now: Instant): J.Call {
    J.Prepare(X402, J.X402Settlement, args.decision.body.decisionId, args.decision.body.actionHash,
              args.executionRef, Binding(args), now)
  }

  function Prepare(cfg: Config, s: State, pid: nat, now: Instant, fault: Fault): (t: State)
    requires pid in s.calls
    ensures pid in t.calls
  {
    var (journal, answer) := J.Step(cfg.store, s.journal, PrepareCall(s.calls[pid].args, now));
    if fault == LostRequest then At(s, pid, Done(StateUnavailable))
    else At(s.(journal := journal), pid,
            if fault == NoFault && answer.Operation? then LookingUp else Done(StateUnavailable))
  }

  function Issued(s: State, args: Args): Option<Body> {
    var id := args.decision.body.decisionId;
    if id in s.decisions then Some(s.decisions[id]) else None
  }

  function LookUp(s: State, pid: nat, fault: Fault): (t: State)
    requires pid in s.calls
    ensures pid in t.calls
  {
    At(s, pid, if fault != NoFault then Done(ConsumptionFailed) else Consuming(Issued(s, s.calls[pid].args)))
  }

  /** The local provider's checks, then the nonce store. `refused` stands for everything else that may reject:
      the daily limit, or an authority layer around the provider. */
  function ConsumeIssued(consumed: map<(string, string), Consumption>, issued: Option<Body>, actionHash: Digest,
                         executionRef: string, now: int, refused: bool)
    : (map<(string, string), Consumption>, bool)
  {
    if issued.None? || issued.value.verdict != Allow || issued.value.actionHash != actionHash
       || now >= issued.value.expiresAt || refused
    then (consumed, false)
    else
      var key := (issued.value.decisionId, issued.value.nonce);
      var entry := Consumption(issued.value.actionHash, executionRef);
      if key !in consumed then (consumed[key := entry], true) else (consumed, consumed[key] == entry)
  }

  /** A decision is consumed exactly when it was issued as an ALLOW of the action asked for, has not expired, is not
      refused otherwise, and was consumed by nobody or under this very reference; the first consumption is kept. */
  lemma ConsumesExactly(consumed: map<(string, string), Consumption>, issued: Option<Body>, actionHash: Digest,
                        executionRef: string, now: int, refused: bool)
    ensures var (after, success) := ConsumeIssued(consumed, issued, actionHash, executionRef, now, refused);
            var usable := && issued.Some? && issued.value.verdict == Allow && issued.value.actionHash == actionHash
                          && now < issued.value.expiresAt && !refused;
            && (success <==>
                  usable && var key := (issued.value.decisionId, issued.value.nonce);
                            key in consumed ==> consumed[key] == Consumption(actionHash, executionRef))
            && after == if usable && (issued.value.decisionId, issued.value.nonce) !in consumed
                        then consumed[(issued.value.decisionId, issued.value.nonce) := Consumption(actionHash, executionRef)]
                        else consumed
  {
  }

  function Consume(cfg: Config, s: State, pid: nat, now: int, fault: Fault, refused: bool): (t: State)
    requires pid in s.calls && s.calls[pid].pc.Consuming?
    ensures pid in t.calls
  {
    var t := s.calls[pid];
    var (consumed, success) := ConsumeIssued(s.consumed, t.pc.issued, t.args.decision.body.actionHash,
                                             t.args.executionRef, now, refused);
    if fault == LostRequest then At(s, pid, Done(ConsumptionFailed))
    else At(s.(consumed := consumed), pid,
            if fault == NoFault && success then (if cfg.journalled then Starting else Calling)
            else Done(ConsumptionFailed))
  }

  /** The claiming statement. Without a claim the record is read next; the in-memory store does both at once,
      which is the schedule where nothing comes between. */
  function StartAttempt(cfg: Config, s: State, pid: nat, now: Instant, fault: Fault): (t: State)
    requires pid in s.calls
    ensures pid in t.calls
  {
    var op, binding := Op(s.calls[pid].args.executionRef), Binding(s.calls[pid].args);
    var (journal, answer) := J.Step(cfg.store, s.journal, J.Start(op, binding, now));
    if fault == LostRequest then At(s, pid, Done(StateUnavailable))
    else if journal == s.journal then At(s, pid, if fault == NoFault then Reading else Done(StateUnavailable))
    else At(s.(journal := journal, owner := s.owner[op := pid]), pid,
            if fault == NoFault && answer.Claimed? then Calling else Done(StateUnavailable))
  }

  function Read(cfg: Config, s: State, pid: nat, fault: Fault): (t: State)
    requires pid in s.calls
    ensures pid in t.calls
  {
    var op := Op(s.calls[pid].args.executionRef);
    At(s, pid, Done(
         if fault != NoFault || op !in s.journal || (cfg.store == J.Database && !J.RecordTimes(s.journal[op]))
         then StateUnavailable
         else if s.journal[op].bindingHash != Binding(s.calls[pid].args) then Conflict
         else match s.journal[op].status
           case Prepared => StateUnavailable
           case InProgress => OutcomeUnknown
           case OutcomeUnknown => OutcomeUnknown
           case Succeeded => AlreadyCompleted
           case FailedFinal => FailedFinal))
  }

  function CallSettle(s: State, pid: nat): (t: State)
    requires pid in s.calls
    ensures pid in t.calls
  {
    At(s.(log := s.log + [Start(pid, s.calls[pid].args, s.calls[pid].verifiedAt)]), pid, Settling)
  }

  function Settle(cfg: Config, s: State, pid: nat, now: Instant, result: SettleResult): (t: State)
    requires pid in s.calls
    ensures pid in t.calls
  {
    var args := s.calls[pid].args;
    var op, binding := Op(args.executionRef), Binding(args);
    At(s, pid,
       match result
       case Resolves =>
         if cfg.journalled then Marking(J.MarkSucceeded(op, binding, args.executionRef, now), Settled) else Done(Settled)
       case Throws(name, final) =>
         var code := if |name| > 128 then name[..128] else name;
         if !cfg.journalled then Done(SettleThrew)
         else if final then Marking(J.MarkFailedFinal(op, binding, code, now), FailedFinal)
         else Marking(J.MarkOutcomeUnknown(op, binding, code, now), OutcomeUnknown))
  }

  function Mark(cfg: Config, s: State, pid: nat, fault: Fault): (t: State)
    requires pid in s.calls && s.calls[pid].pc.Marking?
    ensures pid in t.calls
  {
    var (journal, answer) := J.Step(cfg.store, s.journal, s.calls[pid].pc.call);
    if fault == LostRequest then At(s, pid, Done(Unreconciled))
    else At(s.(journal := journal), pid,
            Done(if fault == NoFault && answer.Operation? then s.calls[pid].pc.after else Unreconciled))
  }

  function Advance(cfg: Config, s: State, pid: nat, now: Instant, fault: Fault, refused: bool, result: SettleResult): (t: State)
    requires pid in s.calls
    ensures pid in t.calls
  {
    match s.calls[pid].pc
    case Verifying => Verify(cfg, s, pid, now)
    case Preparing => Prepare(cfg, s, pid, now, fault)
    case LookingUp => LookUp(s, pid, fault)
    case Consuming(_) => Consume(cfg, s, pid, now, fault, refused)
    case Starting => StartAttempt(cfg, s, pid, now, fault)
    case Reading => Read(cfg, s, pid, fault)
    case Calling => CallSettle(s, pid)
    case Settling => Settle(cfg, s, pid, now, result)
    case Marking(_, _) => Mark(cfg, s, pid, fault)
    case Done(_) => s
  }

  function Exec(cfg: Config, s: State, l: Label): State {
    match l
    case Begin(pid, args) => if pid in s.calls then s else s.(calls := s.calls[pid := Thread(args, Verifying, 0)])
    case Go(pid, now, fault, refused, result) =>
      if pid in s.calls then Advance(cfg, s, pid, now, fault, refused, result) else s
    case Crash(pid) => if pid in s.calls && !s.calls[pid].pc.Done? then At(s, pid, Done(Crashed)) else s
    case Issue(body) =>
      if body.decisionId in s.decisions then s else s.(decisions := s.decisions[body.decisionId := body])
    case OtherConsume(id, hash, ref, now, refused) =>
      s.(consumed := ConsumeIssued(s.consumed, if id in s.decisions then Some(s.decisions[id]) else None, hash, ref,
                                   now, refused).0)
    case OtherJournal(call) => s.(journal := J.Step(cfg.store, s.journal, call).0)
  }

  function Run(cfg: Config, s: State, labels: seq<Label>): State
    decreases |labels|
  {
    if labels == [] then s else Run(cfg, Exec(cfg, s, labels[0]), labels[1..])
  }

  const INITIAL := State(map[], map[], map[], map[], map[], [])

  // ---- the invariant -----------------------------------------------------------------------------------

  predicate PastCall(pc: Pc) {
    pc.Settling? || pc.Marking? || pc.Done?
  }

  /** The stored decision of the call is an ALLOW for its action, consumed under its reference. */
  predicate ConsumedFor(s: State, args: Args) {
    var id := args.decision.body.decisionId;
    && id in s.decisions
    && s.decisions[id].verdict == Allow
    && s.decisions[id].actionHash == args.decision.body.actionHash
    && (id, s.decisions[id].nonce) in s.consumed
    && s.consumed[(id, s.decisions[id].nonce)] == Consumption(args.decision.body.actionHash, args.executionRef)
  }

  predicate Owns(s: State, args: Args, pid: nat) {
    Op(args.executionRef) in s.owner && s.owner[Op(args.executionRef)] == pid
  }

  predicate ThreadInv(cfg: Config, s: State, pid: nat)
    requires pid in s.calls
  {
    var t := s.calls[pid];
    && (t.pc.Verifying? || t.pc.Done? || cfg.verified(t.args, t.verifiedAt))
    && (t.pc.Consuming? && t.pc.issued.Some? ==>
          && t.args.decision.body.decisionId in s.decisions
          && s.decisions[t.args.decision.body.decisionId] == t.pc.issued.value)
    && (t.pc.Starting? || t.pc.Reading? || t.pc.Calling? ==> ConsumedFor(s, t.args))
    && (t.pc.Calling? && cfg.journalled ==> Owns(s, t.args, pid))
  }

  predicate StartInv(cfg: Config, s: State, e: Start) {
    && e.pid in s.calls && PastCall(s.calls[e.pid].pc)
    && cfg.verified(e.args, e.verifiedAt)
    && ConsumedFor(s, e.args)
    && (cfg.journalled ==> Owns(s, e.args, e.pid))
  }

  ghost predicate Inv(cfg: Config, s: State) {
    && StoresInv(s)
    && (forall pid :: pid in s.calls ==> ThreadInv(cfg, s, pid))
    && (forall i :: 0 <= i < |s.log| ==> StartInv(cfg, s, s.log[i]))
    && (forall i, j :: 0 <= i < j < |s.log| ==> s.log[i].pid != s.log[j].pid)
  }

  ghost predicate Extends<K, V>(a: map<K, V>, b: map<K, V>) {
    forall k :: k in a ==> k in b && a[k] == b[k]
  }

  /** What never goes away, whoever moves. */
  ghost predicate Grows(s: State, t: State) {
    && Extends(s.decisions, t.decisions)
    && Extends(s.consumed, t.consumed)
    && Extends(s.owner, t.owner)
    && (forall p :: p in s.calls ==> p in t.calls && (PastCall(s.calls[p].pc) ==> PastCall(t.calls[p].pc)))
  }

  ghost predicate StoresInv(s: State) {
    && J.RecordsInv(s.journal)
    && (forall id :: id in s.decisions ==> s.decisions[id].decisionId == id)
    && (forall op :: op in s.owner ==> op in s.journal && s.journal[op].status != J.Prepared)
  }

  /** A move of `pid`: the other calls stand still, and at most one start is logged, of `pid`, which had none. */
  ghost predicate Moved(cfg: Config, s: State, t: State, pid: nat) {
    && StoresInv(t) && Grows(s, t)
    && (forall p :: p in t.calls && p != pid ==> p in s.calls && t.calls[p] == s.calls[p])
    && (pid in t.calls ==> ThreadInv(cfg, t, pid))
    && (t.log == s.log
        || (pid in s.calls && !PastCall(s.calls[pid].pc) && |t.log| == |s.log| + 1 && t.log[..|s.log|] == s.log
            && t.log[|s.log|].pid == pid && StartInv(cfg, t, t.log[|s.log|])))
  }

  lemma StartSurvives(cfg: Config, s: State, t: State, e: Start)
    requires Grows(s, t) && StartInv(cfg, s, e)
    ensures StartInv(cfg, t, e)
  {
  }

  lemma ThreadSurvives(cfg: Config, s: State, t: State, pid: nat)
    requires Grows(s, t) && pid in s.calls && pid in t.calls && t.calls[pid] == s.calls[pid] && ThreadInv(cfg, s, pid)
    ensures ThreadInv(cfg, t, pid)
  {
  }

  lemma MovesKeepInv(cfg: Config, s: State, t: State, pid: nat)
    requires Inv(cfg, s) && Moved(cfg, s, t, pid)
    ensures Inv(cfg, t)
  {
    forall p | p in t.calls ensures ThreadInv(cfg, t, p) {
      if p != pid {
        ThreadSurvives(cfg, s, t, p);
      }
    }
    forall i | 0 <= i < |s.log| ensures StartInv(cfg, t, s.log[i]) {
      StartSurvives(cfg, s, t, s.log[i]);
    }
    if t.log != s.log {
      assert forall i :: 0 <= i < |s.log| ==> t.log[i] == s.log[i];
      assert forall i :: 0 <= i < |s.log| ==> StartInv(cfg, s, s.log[i]);
    }
  }

  lemma JournalKept(cfg: Config, s: State, c: J.Call)
    requires StoresInv(s)
    ensures StoresInv(s.(journal := J.Step(cfg.store, s.journal, c).0))
  {
    J.StepKeepsRecords(cfg.store, s.journal, c);
    forall op | op in s.owner
      ensures op in J.Step(cfg.store, s.journal, c).0 && J.Step(cfg.store, s.journal, c).0[op].status != J.Prepared
    {
      J.StepAdvancesRecord(cfg.store, s.journal, c, op);
    }
  }

  /** A claim is taken from a prepared record, so from nobody, and leaves it claimed. */
  lemma ClaimTakes(cfg: Config, s: State, op: J.OperationId, binding: Digest, now: Instant)
    requires StoresInv(s)
    ensures var journal := J.Step(cfg.store, s.journal, J.Start(op, binding, now)).0;
            journal != s.journal ==> op !in s.owner && op in journal && journal[op].status != J.Prepared
  {
    var c := J.Start(op, binding, now);
    J.StepAdvances(cfg.store, s.journal, c);
  }

  lemma PrepareMoves(cfg: Config, s: State, pid: nat, now: Instant, fault: Fault)
    requires Inv(cfg, s) && pid in s.calls && s.calls[pid].pc.Preparing?
    ensures Moved(cfg, s, Prepare(cfg, s, pid, now, fault), pid)
  {
    JournalKept(cfg, s, PrepareCall(s.calls[pid].args, now));
  }

  lemma ConsumeMoves(cfg: Config, s: State, pid: nat, now: Instant, fault: Fault, refused: bool)
    requires Inv(cfg, s) && pid in s.calls && s.calls[pid].pc.Consuming?
    ensures Moved(cfg, s, Consume(cfg, s, pid, now, fault, refused), pid)
  {
  }

  /** A claim changes the journal and takes the record; anything else leaves both. */
  lemma StartFrame(cfg: Config, s: State, pid: nat, now: Instant, fault: Fault)
    requires pid in s.calls
    ensures var t := StartAttempt(cfg, s, pid, now, fault);
            var op := Op(s.calls[pid].args.executionRef);
            var journal := J.Step(cfg.store, s.journal, J.Start(op, Binding(s.calls[pid].args), now)).0;
            && t == s.(journal := t.journal, owner := t.owner, calls := t.calls)
            && t.calls == s.calls[pid := s.calls[pid].(pc := t.calls[pid].pc)]
            && (t.calls[pid].pc.Calling? || t.calls[pid].pc.Reading? || t.calls[pid].pc.Done?)
            && (t.calls[pid].pc.Calling? ==> t.journal != s.journal)
            && if t.journal == s.journal then t.owner == s.owner
               else t.journal == journal && t.owner == s.owner[op := pid]
  {
    hide J.Step;
  }

  lemma StartKeepsStores(cfg: Config, s: State, pid: nat, now: Instant, fault: Fault)
    requires StoresInv(s) && pid in s.calls
    ensures var t := StartAttempt(cfg, s, pid, now, fault);
            && StoresInv(t)
            && Extends(s.owner, t.owner)
            && (t.calls[pid].pc.Calling? ==> Owns(t, s.calls[pid].args, pid))
  {
    hide J.Step, StoresInv, StartAttempt;
    var op, binding := Op(s.calls[pid].args.executionRef), Binding(s.calls[pid].args);
    var journal := J.Step(cfg.store, s.journal, J.Start(op, binding, now)).0;
    var t := StartAttempt(cfg, s, pid, now, fault);
    StartFrame(cfg, s, pid, now, fault);
    JournalKept(cfg, s, J.Start(op, binding, now));
    ClaimTakes(cfg, s, op, binding, now);
    if t.journal == s.journal {
      ThreadsApart(s, t);
    } else {
      OwnerJoins(s.(journal := journal), op, pid);
      ThreadsApart(s.(journal := journal, owner := s.owner[op := pid]), t);
    }
  }

  lemma OwnerJoins(s: State, op: J.OperationId, pid: nat)
    requires StoresInv(s) && op in s.journal && s.journal[op].status != J.Prepared
    ensures StoresInv(s.(owner := s.owner[op := pid]))
  {
  }

  /** The stores' invariant reads the stores only. */
  lemma ThreadsApart(s: State, t: State)
    requires StoresInv(s) && t.journal == s.journal && t.decisions == s.decisions && t.owner == s.owner
    ensures StoresInv(t)
  {
  }

  lemma StartMoves(cfg: Config, s: State, pid: nat, now: Instant, fault: Fault)
    requires Inv(cfg, s) && pid in s.calls && s.calls[pid].pc.Starting?
    ensures Moved(cfg, s, StartAttempt(cfg, s, pid, now, fault), pid)
  {
    StartKeepsStores(cfg, s, pid, now, fault);
    StartFrame(cfg, s, pid, now, fault);
    assert ThreadInv(cfg, s, pid);
    hide StartAttempt, StoresInv, StartInv, Inv;
  }

  lemma MarkMoves(cfg: Config, s: State, pid: nat, fault: Fault)
    requires Inv(cfg, s) && pid in s.calls && s.calls[pid].pc.Marking?
    ensures Moved(cfg, s, Mark(cfg, s, pid, fault), pid)
  {
    JournalKept(cfg, s, s.calls[pid].pc.call);
  }

  /** Steps that only change the call's own variables. */
  lemma QuietMoves(cfg: Config, s: State, pid: nat, t: Thread)
    requires Inv(cfg, s) && pid in s.calls && ThreadInv(cfg, s.(calls := s.calls[pid := t]), pid)
    requires PastCall(s.calls[pid].pc) ==> PastCall(t.pc)
    ensures Moved(cfg, s, s.(calls := s.calls[pid := t]), pid)
  {
  }

  lemma VerifyMoves(cfg: Config, s: State, pid: nat, now: Instant)
    requires Inv(cfg, s) && pid in s.calls && s.calls[pid].pc.Verifying?
    ensures Moved(cfg, s, Verify(cfg, s, pid, now), pid)
  {
    hide Moved, Inv, HashAction;
    var t := s.calls[pid];
    var passed := cfg.verified(t.args, now) && t.args.action.Some?
                  && HashAction(t.args.action.value) == t.args.decision.body.actionHash;
    if passed {
      var next := t.(verifiedAt := now, pc := if cfg.journalled then Preparing else LookingUp);
      assert Verify(cfg, s, pid, now) == s.(calls := s.calls[pid := next]);
      QuietMoves(cfg, s, pid, next);
    } else {
      var next := t.(pc := Verify(cfg, s, pid, now).calls[pid].pc);
      assert Verify(cfg, s, pid, now) == s.(calls := s.calls[pid := next]);
      QuietMoves(cfg, s, pid, next);
    }
  }

  lemma CallMoves(cfg: Config, s: State, pid: nat)
    requires Inv(cfg, s) && pid in s.calls && s.calls[pid].pc.Calling?
    ensures Moved(cfg, s, CallSettle(s, pid), pid)
  {
  }

  lemma LookUpMoves(cfg: Config, s: State, pid: nat, fault: Fault)
    requires Inv(cfg, s) && pid in s.calls && s.calls[pid].pc.LookingUp?
    ensures Moved(cfg, s, LookUp(s, pid, fault), pid)
  {
    QuietMoves(cfg, s, pid, LookUp(s, pid, fault).calls[pid]);
  }

  lemma ReadMoves(cfg: Config, s: State, pid: nat, fault: Fault)
    requires Inv(cfg, s) && pid in s.calls && s.calls[pid].pc.Reading?
    ensures Moved(cfg, s, Read(cfg, s, pid, fault), pid)
  {
    QuietMoves(cfg, s, pid, Read(cfg, s, pid, fault).calls[pid]);
  }

  lemma SettleMoves(cfg: Config, s: State, pid: nat, now: Instant, result: SettleResult)
    requires Inv(cfg, s) && pid in s.calls && s.calls[pid].pc.Settling?
    ensures Moved(cfg, s, Settle(cfg, s, pid, now, result), pid)
  {
    QuietMoves(cfg, s, pid, Settle(cfg, s, pid, now, result).calls[pid]);
  }

  lemma IdleMoves(cfg: Config, s: State, pid: nat)
    requires Inv(cfg, s)
    ensures Moved(cfg, s, s, pid)
  {
  }

  lemma AdvanceMoves(cfg: Config, s: State, pid: nat, now: Instant, fault: Fault, refused: bool, result: SettleResult)
    requires Inv(cfg, s) && pid in s.calls
    ensures Moved(cfg, s, Advance(cfg, s, pid, now, fault, refused, result), pid)
  {
    hide Moved, Verify, Prepare, LookUp, Consume, StartAttempt, Read, CallSettle, Settle, Mark;
    match s.calls[pid].pc
    case Verifying => VerifyMoves(cfg, s, pid, now);
    case Preparing => PrepareMoves(cfg, s, pid, now, fault);
    case LookingUp => LookUpMoves(cfg, s, pid, fault);
    case Consuming(_) => ConsumeMoves(cfg, s, pid, now, fault, refused);
    case Starting => StartMoves(cfg, s, pid, now, fault);
    case Reading => ReadMoves(cfg, s, pid, fault);
    case Calling => CallMoves(cfg, s, pid);
    case Settling => SettleMoves(cfg, s, pid, now, result);
    case Marking(_, _) => MarkMoves(cfg, s, pid, fault);
    case Done(_) => IdleMoves(cfg, s, pid);
  }

  lemma BeginMoves(cfg: Config, s: State, l: Label)
    requires Inv(cfg, s) && l.Begin?
    ensures Inv(cfg, Exec(cfg, s, l))
  {
    if l.pid !in s.calls {
      MovesKeepInv(cfg, s, Exec(cfg, s, l), l.pid);
    }
  }

  lemma CrashMoves(cfg: Config, s: State, pid: nat)
    requires Inv(cfg, s)
    ensures Inv(cfg, Exec(cfg, s, Crash(pid)))
  {
    hide Moved;
    if pid in s.calls && !s.calls[pid].pc.Done? {
      QuietMoves(cfg, s, pid, s.calls[pid].(pc := Done(Crashed)));
      MovesKeepInv(cfg, s, Exec(cfg, s, Crash(pid)), pid);
    }
  }

  lemma JournalClientsMove(cfg: Config, s: State, call: J.Call)
    requires Inv(cfg, s)
    ensures Inv(cfg, Exec(cfg, s, OtherJournal(call)))
  {
    hide J.Step, ThreadInv, StartInv;
    JournalKept(cfg, s, call);
    StoreMoves(cfg, s, Exec(cfg, s, OtherJournal(call)));
  }

  lemma IssuerMoves(cfg: Config, s: State, body: Body)
    requires Inv(cfg, s)
    ensures Inv(cfg, Exec(cfg, s, Issue(body)))
  {
    hide ThreadInv, StartInv, J.RecordsInv, Advance, ConsumeIssued;
    var t := Exec(cfg, s, Issue(body));
    assert StoresInv(t);
    hide Inv, StoresInv;
    StoreMoves(cfg, s, t);
  }

  lemma ConsumersMove(cfg: Config, s: State, l: Label)
    requires Inv(cfg, s) && l.OtherConsume?
    ensures Inv(cfg, Exec(cfg, s, l))
  {
    hide ThreadInv, StartInv, J.RecordsInv;
    StoreMoves(cfg, s, Exec(cfg, s, l));
  }

  lemma StoreMoves(cfg: Config, s: State, t: State)
    requires Inv(cfg, s) && StoresInv(t) && t.calls == s.calls && t.log == s.log && t.owner == s.owner
    requires Extends(s.decisions, t.decisions) && Extends(s.consumed, t.consumed)
    ensures Inv(cfg, t)
  {
    forall p | p in s.calls ensures ThreadInv(cfg, t, p) {
      ThreadSurvives(cfg, s, t, p);
    }
    forall i | 0 <= i < |s.log| ensures StartInv(cfg, t, s.log[i]) {
      StartSurvives(cfg, s, t, s.log[i]);
    }
  }

  lemma ExecKeepsInv(cfg: Config, s: State, l: Label)
    requires Inv(cfg, s)
    ensures Inv(cfg, Exec(cfg, s, l))
  {
    hide Inv, Moved, Advance;
    match l
    case Begin(_, _) => BeginMoves(cfg, s, l);
    case Go(pid, now, fault, refused, result) =>
      if pid in s.calls {
        AdvanceMoves(cfg, s, pid, now, fault, refused, result);
        MovesKeepInv(cfg, s, Exec(cfg, s, l), pid);
      }
    case Crash(pid) => CrashMoves(cfg, s, pid);
    case OtherJournal(call) => JournalClientsMove(cfg, s, call);
    case Issue(body) => IssuerMoves(cfg, s, body);
    case OtherConsume(_, _, _, _, _) => ConsumersMove(cfg, s, l);
  }

  lemma {:induction false} RunKeepsInv(cfg: Config, s: State, labels: seq<Label>)
    requires Inv(cfg, s)
    ensures Inv(cfg, Run(cfg, s, labels))
    decreases |labels|
  {
    hide Inv;
    if labels != [] {
      ExecKeepsInv(cfg, s, labels[0]);
      RunKeepsInv(cfg, Exec(cfg, s, labels[0]), labels[1..]);
    }
  }
}
