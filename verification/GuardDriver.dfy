/** `settleIfAuthorised` in the form of the source, over the in-memory stores, proved to take exactly the steps of the
    interleaved machine of module Guard. */
module GuardDriver {
  import opened Prelude
  import opened Decisions
  import J = Journal
  import opened JournalStores
  import opened Guard

  datatype ConsumeStatus = Consumed | Idempotent | NonceConflict | Rejected

  class InMemoryNonceStore {
    var consumed: map<(string, string), Consumption>

    constructor ()
      ensures consumed == map[]
    {
      consumed := map[];
    }

    /** First come first served; the same action and reference again is idempotent; anything else conflicts. */
    method Consume(decisionId: string, nonce: string, entry: Consumption) returns (status: ConsumeStatus)
      modifies this
      ensures status == Consumed <==> (decisionId, nonce) !in old(consumed)
      ensures status == Consumed ==> consumed == old(consumed)[(decisionId, nonce) := entry]
      ensures status != Consumed ==> consumed == old(consumed)
      ensures status == Idempotent <==> (decisionId, nonce) in old(consumed) && old(consumed)[(decisionId, nonce)] == entry
      ensures status != Rejected
    {
      var key := (decisionId, nonce);
      if key !in consumed {
        consumed := consumed[key := entry];
        return Consumed;
      }
      if consumed[key].actionHash == entry.actionHash && consumed[key].executionRef == entry.executionRef {
        return Idempotent;
      }
      return NonceConflict;
    }
  }

  /** The bodies of the decisions a provider has issued and stored. */
  class IssuedDecisions {
    var decisions: map<string, Body>

    constructor ()
      ensures decisions == map[]
    {
      decisions := map[];
    }

    method Save(body: Body)
      modifies this
      ensures decisions == old(decisions)[body.decisionId := body]
    {
      decisions := decisions[body.decisionId := body];
    }
  }

  /** The local provider's consumption after the decision was looked up; `refused` as the daily limit may refuse. */
  method ConsumeDecision(nonces: InMemoryNonceStore, issued: Option<Body>, actionHash: Digest, executionRef: string,
                         now: int, refused: bool) returns (status: ConsumeStatus)
    modifies nonces
    ensures (nonces.consumed, status == Consumed || status == Idempotent)
         == ConsumeIssued(old(nonces.consumed), issued, actionHash, executionRef, now, refused)
    ensures status == Consumed <==> nonces.consumed != old(nonces.consumed)
  {
    if issued.None? || issued.value.verdict != Allow {
      return Rejected;
    }
    if issued.value.actionHash != actionHash {
      return Rejected;
    }
    if now >= issued.value.expiresAt || refused {
      return Rejected;
    }
    status := nonces.Consume(issued.value.decisionId, issued.value.nonce, Consumption(issued.value.actionHash, executionRef));
  }

  /** What one await meets: the clock, a fault, a refusal of the provider, what becomes of the settle callback. */
  datatype Weather = Weather(now: Instant, fault: Fault, refused: bool, settle: SettleResult)

  /** The weather at each await of a call. */
  type Sky = Pc -> Weather

  /** The in-memory start answers at once: reading the record is no await of its own. */
  ghost function Move(sky: Sky, pc: Pc): Label {
    var w := sky(pc);
    Go(0, w.now, if pc.Reading? then NoFault else w.fault, w.refused, w.settle)
  }

  /** The next step of call 0. */
  ghost function Next(cfg: Config, s: State, sky: Sky): State {
    if 0 in s.calls then Exec(cfg, s, Move(sky, s.calls[0].pc)) else s
  }

  /** The machine, moving call 0 alone through this weather. */
  ghost function Steered(cfg: Config, s: State, sky: Sky, steps: nat): State {
    if steps == 0 then s else Next(cfg, Steered(cfg, s, sky, steps - 1), sky)
  }

  /** How the in-memory start answers, read off the record. */
  lemma StartAnswers(records: J.Records, op: J.OperationId, binding: Digest, at: Instant)
    ensures var (next, answer) := J.Step(J.Memory, records, J.Start(op, binding, at));
            && (answer.Claimed? <==> next != records)
            && (answer.Claimed? || answer.Missing? || answer.BindingConflict? || answer.Unclaimed?)
            && (answer.Missing? <==> op !in records)
            && (answer.BindingConflict? <==> op in records && records[op].bindingHash != binding)
            && (answer.Unclaimed? ==> op in records && records[op].bindingHash == binding && records[op] == answer.record
                                      && records[op].status != J.Prepared)
  {
    var c := J.Start(op, binding, at);
    var next := J.Step(J.Memory, records, c).0;
    if op in records && records[op].bindingHash == binding && records[op].status == J.Prepared {
      assert next[op].status == J.InProgress;
    }
  }

  /** A machine with one call, at `pc`. */
  ghost predicate Single(s: State, pc: Pc, args: Args, settleCalls: nat) {
    && s.calls.Keys == {0} && s.calls[0].args == args && s.calls[0].pc == pc
    && |s.log| == settleCalls
  }

  /** What the caller makes of an answer that is not a claim. */
  function StartOutcome(a: J.Answer): Outcome {
    match a
    case BindingConflict => Conflict
    case Unclaimed(record) =>
      (match record.status
       case Prepared => StateUnavailable
       case InProgress => OutcomeUnknown
       case OutcomeUnknown => OutcomeUnknown
       case Succeeded => AlreadyCompleted
       case FailedFinal => FailedFinal)
    case _ => StateUnavailable
  }

  lemma LookUpLeads(cfg: Config, s: State, args: Args, n: nat, sky: Sky)
    requires Single(s, LookingUp, args, n)
    ensures var t := Next(cfg, s, sky);
            && t.journal == s.journal && t.consumed == s.consumed && t.decisions == s.decisions
            && Single(t, if sky(LookingUp).fault != NoFault then Done(ConsumptionFailed)
                         else Consuming(Issued(s, args)), args, n)
  {
  }

  lemma ConsumeLeads(cfg: Config, s: State, args: Args, n: nat, sky: Sky, issued: Option<Body>)
    requires Single(s, Consuming(issued), args, n)
    ensures var (consumed, success) := ConsumeIssued(s.consumed, issued, args.decision.body.actionHash,
                                                     args.executionRef, sky(Consuming(issued)).now,
                                                     sky(Consuming(issued)).refused);
            var t := Next(cfg, s, sky);
            && t.journal == s.journal && t.decisions == s.decisions
            && t.consumed == (if sky(Consuming(issued)).fault == LostRequest then s.consumed else consumed)
            && Single(t, if sky(Consuming(issued)).fault == NoFault && success
                         then (if cfg.journalled then Starting else Calling)
                         else Done(ConsumptionFailed), args, n)
  {
    hide ConsumeIssued;
  }

  lemma StartLeads(cfg: Config, s: State, args: Args, n: nat, sky: Sky)
    requires cfg.store == J.Memory && Single(s, Starting, args, n)
    ensures var (journal, answer) := J.Step(J.Memory, s.journal,
                                             J.Start(Op(args.executionRef), Binding(args), sky(Starting).now));
            var t := Next(cfg, s, sky);
            && t.consumed == s.consumed && t.decisions == s.decisions
            && (sky(Starting).fault == LostRequest ==> Single(t, Done(StateUnavailable), args, n) && t.journal == s.journal)
            && (sky(Starting).fault == LostAnswer ==> Single(t, Done(StateUnavailable), args, n) && t.journal == journal)
            && (sky(Starting).fault == NoFault && answer.Claimed? ==> Single(t, Calling, args, n) && t.journal == journal)
            && (sky(Starting).fault == NoFault && !answer.Claimed? ==>
                  Single(t, Reading, args, n) && t.journal == journal == s.journal)
  {
    hide J.Step;
    StartAnswers(s.journal, Op(args.executionRef), Binding(args), sky(Starting).now);
  }

  lemma ReadLeads(cfg: Config, s: State, args: Args, n: nat, sky: Sky)
    requires cfg.store == J.Memory && Single(s, Reading, args, n)
    ensures var answer := J.Step(J.Memory, s.journal, J.Start(Op(args.executionRef), Binding(args), sky(Starting).now)).1;
            var t := Next(cfg, s, sky);
            && t.journal == s.journal && t.consumed == s.consumed && t.decisions == s.decisions
            && (!answer.Claimed? ==> Single(t, Done(StartOutcome(answer)), args, n))
  {
    hide J.Step;
    StartAnswers(s.journal, Op(args.executionRef), Binding(args), sky(Starting).now);
  }

  lemma DoneIdles(cfg: Config, s: State, args: Args, n: nat, sky: Sky, outcome: Outcome)
    requires Single(s, Done(outcome), args, n)
    ensures Next(cfg, s, sky) == s
  {
  }

  /** The journal call that records what became of the callback, and the outcome once it is recorded. */
  function MarkCall(args: Args, sky: Sky): (J.Call, Outcome) {
    var op, binding := Op(args.executionRef), Binding(args);
    match sky(Settling).settle
    case Resolves => (J.MarkSucceeded(op, binding, args.executionRef, sky(Settling).now), Settled)
    case Throws(name, final) =>
      var code := if |name| > 128 then name[..128] else name;
      if final then (J.MarkFailedFinal(op, binding, code, sky(Settling).now), FailedFinal)
      else (J.MarkOutcomeUnknown(op, binding, code, sky(Settling).now), OutcomeUnknown)
  }

  lemma MarkLeads(cfg: Config, s: State, args: Args, n: nat, sky: Sky)
    requires cfg.store == J.Memory && cfg.journalled && Single(s, Settling, args, n)
    ensures var (call, outcome) := MarkCall(args, sky);
            var (journal, answer) := J.Step(J.Memory, s.journal, call);
            var t := Next(cfg, Next(cfg, s, sky), sky);
            && t.consumed == s.consumed && t.decisions == s.decisions
            && t.journal == (if sky(Marking(call, outcome)).fault == LostRequest then s.journal else journal)
            && Single(t, Done(if sky(Marking(call, outcome)).fault == NoFault && answer.Operation?
                              then outcome else Unreconciled), args, n)
  {
    hide J.Step;
    var (call, outcome) := MarkCall(args, sky);
    assert Next(cfg, s, sky) == At(s, 0, Marking(call, outcome));
  }

  class InntrisX402Guard {
    const cfg: Config
    const journal: InMemoryExecutionReconciliationStore
    const nonces: InMemoryNonceStore
    const provider: IssuedDecisions

    constructor (cfg: Config, journal: InMemoryExecutionReconciliationStore, nonces: InMemoryNonceStore,
                 provider: IssuedDecisions)
      requires cfg.store == J.Memory
      ensures this.cfg == cfg && this.journal == journal && this.nonces == nonces && this.provider == provider
    {
      this.cfg, this.journal, this.nonces, this.provider := cfg, journal, nonces, provider;
    }

    /** The machine state that the stores are in before any call. */
    ghost function Shared(): State
      reads journal, nonces, provider
    {
      State(journal.operations, provider.decisions, nonces.consumed, map[], map[], [])
    }

    /** The machine agrees with the stores, and with where this call is. */
    ghost predicate Agrees(s: State, pc: Pc, args: Args, settleCalls: nat)
      reads journal, nonces, provider
    {
      && s.journal == journal.operations && s.consumed == nonces.consumed && s.decisions == provider.decisions
      && Single(s, pc, args, settleCalls)
    }

    ghost function After(s: State, sky: Sky): State {
      Next(cfg, s, sky)
    }

    method PrepareOperation(args: Args, sky: Sky, ghost s: State, ghost n: nat) returns (ok: bool)
      requires cfg.store == J.Memory && journal.Valid() && Agrees(s, Preparing, args, n)
      modifies journal
      ensures journal.Valid()
      ensures Agrees(After(s, sky), if ok then LookingUp else Done(StateUnavailable), args, n)
    {
      if sky(Preparing).fault == LostRequest {
        return false;
      }
      var answer := journal.Prepare(PrepareCall(args, sky(Preparing).now));
      ok := sky(Preparing).fault == NoFault && answer.Operation?;
    }

    method ConsumeBeforeExecution(args: Args, sky: Sky, ghost s: State, ghost n: nat) returns (ok: bool)
      requires Agrees(s, LookingUp, args, n)
      modifies nonces
      ensures Agrees(After(After(s, sky), sky),
                     if !ok then Done(ConsumptionFailed) else if cfg.journalled then Starting else Calling, args, n)
    {
      hide Next, ConsumeIssued, Single;
      LookUpLeads(cfg, s, args, n, sky);
      if sky(LookingUp).fault != NoFault {
        DoneIdles(cfg, After(s, sky), args, n, sky, ConsumptionFailed);
        return false;
      }
      var id := args.decision.body.decisionId;
      var issued := if id in provider.decisions then Some(provider.decisions[id]) else None;
      ConsumeLeads(cfg, After(s, sky), args, n, sky, issued);
      var w := sky(Consuming(issued));
      if w.fault == LostRequest {
        return false;
      }
      var status := ConsumeDecision(nonces, issued, args.decision.body.actionHash, args.executionRef, w.now, w.refused);
      ok := w.fault == NoFault && (status == Consumed || status == Idempotent);
    }

    /** No outcome means that this call claimed the attempt. */
    method StartOperation(args: Args, sky: Sky, ghost s: State, ghost n: nat) returns (outcome: Option<Outcome>)
      requires cfg.store == J.Memory && journal.Valid() && Agrees(s, Starting, args, n)
      modifies journal
      ensures journal.Valid()
      ensures outcome.None? ==> Agrees(After(s, sky), Calling, args, n)
      ensures outcome.Some? ==> outcome.value != Settled
      ensures outcome.Some? ==> Agrees(After(After(s, sky), sky), Done(outcome.value), args, n)
    {
      hide Next, Single, J.Step;
      StartLeads(cfg, s, args, n, sky);
      ghost var t := After(s, sky);
      var answer;
      if sky(Starting).fault == NoFault {
        answer := journal.Start(Op(args.executionRef), Binding(args), sky(Starting).now);
        if answer.Claimed? {
          return None;
        }
        ReadLeads(cfg, t, args, n, sky);
        return Some(StartOutcome(answer));
      }
      DoneIdles(cfg, t, args, n, sky, StateUnavailable);
      if sky(Starting).fault == LostAnswer {
        answer := journal.Start(Op(args.executionRef), Binding(args), sky(Starting).now);
      }
      return Some(StateUnavailable);
    }

    /** Records what became of the started callback. */
    method MarkOperation(args: Args, sky: Sky, ghost s: State, ghost n: nat) returns (outcome: Outcome)
      requires cfg.store == J.Memory && cfg.journalled && journal.Valid() && Agrees(s, Settling, args, n)
      modifies journal
      ensures journal.Valid()
      ensures Agrees(After(After(s, sky), sky), Done(outcome), args, n)
      ensures outcome == Settled ==> sky(Settling).settle.Resolves?
    {
      hide Next, Single, J.Step;
      MarkLeads(cfg, s, args, n, sky);
      var op, binding := Op(args.executionRef), Binding(args);
      var (call, after) := MarkCall(args, sky);
      if sky(Marking(call, after)).fault == LostRequest {
        return Unreconciled;
      }
      var answer: J.Answer;
      match sky(Settling).settle {
        case Throws(name, final) =>
          var code := if |name| > 128 then name[..128] else name;
          if final {
            answer := journal.MarkFailedFinal(op, binding, code, sky(Settling).now);
            outcome := FailedFinal;
          } else {
            answer := journal.MarkOutcomeUnknown(op, binding, code, sky(Settling).now);
            outcome := OutcomeUnknown;
          }
        case Resolves =>
          answer := journal.MarkSucceeded(op, binding, args.executionRef, sky(Settling).now);
          outcome := Settled;
      }
      if sky(Marking(call, after)).fault == LostAnswer || !answer.Operation? {
        outcome := Unreconciled;
      }
    }

    /** The x402 guard's driver. Every path takes the steps of one machine call, in order and under the same faults:
        the stores end where the machine's stores end, with the same outcome, and settlement is called as often as
        the machine starts it. */
    method SettleIfAuthorised(args: Args, sky: Sky) returns (outcome: Outcome, settleCalls: nat, ghost steps: nat)
      requires cfg.store == J.Memory && journal.Valid()
      modifies journal, nonces
      ensures journal.Valid() && settleCalls <= 1
      ensures Agrees(Steered(cfg, Exec(cfg, old(Shared()), Begin(0, args)), sky, steps), Done(outcome), args, settleCalls)
      ensures outcome == Settled ==> settleCalls == 1
    {
      ghost var begun := Begun(args);
      hide Agrees, Next, Exec, J.Step;
      ghost var s := begun;
      steps := 0;
      VerifyAgrees(s, args, sky);
      s, steps := Moved(begun, s, steps, sky);
      if !cfg.verified(args, sky(Verifying).now) {
        return VerificationFailed, 0, steps;
      }
      if args.action.None? || HashAction(args.action.value) != args.decision.body.actionHash {
        return ActionMismatch, 0, steps;
      }
      if cfg.journalled {
        var ok := PrepareOperation(args, sky, s, 0);
        s, steps := Moved(begun, s, steps, sky);
        if !ok {
          return StateUnavailable, 0, steps;
        }
      }
      var ok := ConsumeBeforeExecution(args, sky, s, 0);
      s, steps := Moved(begun, s, steps, sky);
      s, steps := Moved(begun, s, steps, sky);
      if !ok {
        return ConsumptionFailed, 0, steps;
      }
      if cfg.journalled {
        var ended := StartOperation(args, sky, s, 0);
        s, steps := Moved(begun, s, steps, sky);
        if ended.Some? {
          s, steps := Moved(begun, s, steps, sky);
          return ended.value, 0, steps;
        }
      }
      CallAgrees(s, args, sky);
      s, steps := Moved(begun, s, steps, sky);
      settleCalls := 1;
      if !cfg.journalled {
        UnjournalledEnd(s, args, sky);
        s, steps := Moved(begun, s, steps, sky);
        return if sky(Settling).settle.Resolves? then Settled else SettleThrew, 1, steps;
      }
      outcome := MarkOperation(args, sky, s, 1);
      s, steps := Moved(begun, s, steps, sky);
      s, steps := Moved(begun, s, steps, sky);
    }

    ghost method Begun(args: Args) returns (s: State)
      ensures s == Exec(cfg, Shared(), Begin(0, args)) && Agrees(s, Verifying, args, 0)
    {
      s := Exec(cfg, Shared(), Begin(0, args));
    }

    ghost method Moved(begun: State, s: State, steps: nat, sky: Sky) returns (t: State, more: nat)
      requires s == Steered(cfg, begun, sky, steps)
      ensures t == After(s, sky) == Steered(cfg, begun, sky, more)
    {
      t, more := After(s, sky), steps + 1;
    }

    lemma VerifyAgrees(s: State, args: Args, sky: Sky)
      requires Agrees(s, Verifying, args, 0)
      ensures Agrees(After(s, sky),
                     if !cfg.verified(args, sky(Verifying).now) then Done(VerificationFailed)
                     else if args.action.None? || HashAction(args.action.value) != args.decision.body.actionHash
                       then Done(ActionMismatch)
                     else if cfg.journalled then Preparing else LookingUp, args, 0)
    {
    }

    lemma CallAgrees(s: State, args: Args, sky: Sky)
      requires Agrees(s, Calling, args, 0)
      ensures Agrees(After(s, sky), Settling, args, 1)
    {
    }

    lemma UnjournalledEnd(s: State, args: Args, sky: Sky)
      requires Agrees(s, Settling, args, 1) && !cfg.journalled
      ensures Agrees(After(s, sky), Done(if sky(Settling).settle.Resolves? then Settled else SettleThrew), args, 1)
    {
    }
  }
}
