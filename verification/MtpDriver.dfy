/** The in-memory MTP authorisation store and the composite provider's `consume`, in the form of the source. */
module MtpDriver {
  import opened Prelude
  import opened Decisions
  import G = Guard
  import GuardDriver
  import opened Mtp

  class InMemoryMtpAuthorityStateStore {
    var records: Records

    constructor ()
      ensures records == map[]
    {
      records := map[];
    }

    method SaveAuthorization(decisionId: string, authorization: Authorization) returns (answer: Answer)
      modifies this
      ensures (records, answer) == Apply(Memory, old(records), Save(decisionId, authorization))
    {
      if decisionId in records && records[decisionId].authorization != authorization {
        return Threw;
      }
      var existing := if decisionId in records then records[decisionId]
                      else Record(authorization, None, None, None, None);
      records := records[decisionId := existing];
      assert decisionId in old(records) ==> records == old(records);
      answer := Saved;
    }

    method GetAuthorization(decisionId: string) returns (record: Option<Record>)
      ensures (records, Found(record)) == Apply(Memory, records, Get(decisionId))
    {
      record := if decisionId in records then Some(records[decisionId]) else None;
    }

    /** The scan over the other records. */
    method Duplicate(decisionId: string, agentId: string, executionRef: string) returns (found: bool)
      ensures found == RefTaken(records, decisionId, agentId, executionRef)
    {
      var left := records.Keys;
      while left != {}
        invariant left <= records.Keys
        invariant forall id :: id in records && id !in left ==>
                    !(id != decisionId && records[id].authorization.agentId == agentId
                      && records[id].executionRef == Some(executionRef))
      {
        var id :| id in left;
        if id != decisionId && records[id].authorization.agentId == agentId
           && records[id].executionRef == Some(executionRef) {
          return true;
        }
        left := left - {id};
      }
      found := false;
    }

    method ClaimExecution(decisionId: string, actionHash: Digest, executionRef: string) returns (answer: Answer)
      modifies this
      ensures (records, answer) == Apply(Memory, old(records), Claim(decisionId, actionHash, executionRef))
    {
      if decisionId !in records {
        return Missing;
      }
      var record := records[decisionId];
      if record.authorization.actionHash != actionHash {
        return Conflict;
      }
      if record.executionRef.None? {
        var duplicate := Duplicate(decisionId, record.authorization.agentId, executionRef);
        if duplicate {
          return Conflict;
        }
        records := records[decisionId := record.(executionRef := Some(executionRef))];
        return Claimed;
      }
      answer := if record.executionRef.value == executionRef then Idempotent else Conflict;
    }

    method MarkMtpConsumed(decisionId: string, executionRef: string, receipt: Receipt) returns (answer: Answer)
      modifies this
      ensures (records, answer) == Apply(Memory, old(records), MarkConsumed(decisionId, executionRef, receipt))
    {
      if decisionId !in records || records[decisionId].executionRef != Some(executionRef)
         || receipt.executionRef != executionRef {
        return Threw;
      }
      var record := records[decisionId];
      if record.auditId.Some? && record.auditId.value != receipt.auditId {
        return Threw;
      }
      records := records[decisionId := record.(auditId := Some(receipt.auditId), status := Some(receipt.status))];
      answer := Saved;
    }

    method MarkComplete(decisionId: string, executionRef: string, at: int) returns (answer: Answer)
      modifies this
      ensures (records, answer) == Apply(Memory, old(records), Mtp.MarkComplete(decisionId, executionRef, at))
    {
      if decisionId !in records || records[decisionId].executionRef != Some(executionRef)
         || records[decisionId].auditId.None? {
        return Threw;
      }
      if records[decisionId].completedAt.None? {
        records := records[decisionId := records[decisionId].(completedAt := Some(at))];
      }
      assert records == Apply(Memory, old(records), Mtp.MarkComplete(decisionId, executionRef, at)).0;
      answer := Saved;
    }
  }

  /** The MTP service, as far as one agent's approvals go. */
  class MtpAuthority {
    const cfg: Config
    var uses: map<string, Use>

    constructor (cfg: Config)
      ensures this.cfg == cfg && uses == map[]
    {
      this.cfg, uses := cfg, map[];
    }

    method Consume(args: Args, w: Weather) returns (receipt: Option<Receipt>)
      modifies this
      ensures (uses, receipt) == Present(cfg, old(uses), args, w)
    {
      receipt := Present(cfg, uses, args, w).1;
      uses := Present(cfg, uses, args, w).0;
    }
  }

  /** The weather at each await of a call. */
  type Sky = Pc -> Weather

  class MtpCompositeDecisionProvider {
    const stateStore: InMemoryMtpAuthorityStateStore
    const client: MtpAuthority
    const nonces: GuardDriver.InMemoryNonceStore
    const provider: GuardDriver.IssuedDecisions

    constructor (stateStore: InMemoryMtpAuthorityStateStore, client: MtpAuthority,
                 nonces: GuardDriver.InMemoryNonceStore, provider: GuardDriver.IssuedDecisions)
      requires client.cfg.store == Memory
      ensures this.stateStore == stateStore && this.client == client
      ensures this.nonces == nonces && this.provider == provider
    {
      this.stateStore, this.client, this.nonces, this.provider := stateStore, client, nonces, provider;
    }

    /** The machine with this one call at `pc`, over what the stores hold now. */
    ghost function Now(args: Args, pc: Pc): State
      reads stateStore, client, nonces, provider
    {
      State(stateStore.records, client.uses, provider.decisions, nonces.consumed, map[0 := Thread(args, pc)])
    }

    /** `consume`, with any weather at each await: the stores and the outcome are those of the machine's call. */
    method Consume(args: Args, sky: Sky, ghost n: nat) returns (outcome: Outcome)
      requires client.cfg.store == Memory && n >= 10
      modifies stateStore, client, nonces
      ensures Now(args, Done(outcome)) == Steered(client.cfg, old(Now(args, Entering)), sky, n)
    {
      hide Apply, Present, G.ConsumeIssued, Steered, UsableRef, Advance;
      ghost var start := Now(args, Entering);
      var pc := Enter(args, sky(Entering));
      Took(client.cfg, start, start, 0, Now(args, pc), sky, n);
      if pc.Done? {
        return pc.outcome;
      }
      ghost var s := Now(args, Looking);
      pc := CheckAuthorization(args, sky(Looking));
      Took(client.cfg, start, s, 1, Now(args, pc), sky, n);
      if pc.Done? {
        return pc.outcome;
      }
      s := Now(args, Claiming);
      pc := ClaimExecution(args, sky(Claiming));
      Took(client.cfg, start, s, 2, Now(args, pc), sky, n);
      if pc.Done? {
        return pc.outcome;
      }
      s := Now(args, Rereading);
      pc := CheckReceipt(args, sky(Rereading));
      Took(client.cfg, start, s, 3, Now(args, pc), sky, n);
      if pc.Done? {
        return pc.outcome;
      }
      ghost var k := 4;
      if pc.Calling? {
        pc, k := UseApproval(args, sky, start, 4, n);
        if pc.Done? {
          return pc.outcome;
        }
      }
      s := Now(args, LookingUp);
      pc := FindDecision(args, sky(LookingUp));
      Took(client.cfg, start, s, k, Now(args, pc), sky, n);
      if pc.Done? {
        return pc.outcome;
      }
      outcome := Finish(args, sky, start, k + 1, n, pc.issued);
    }

    /** MTP, then the checkpoint. */
    method UseApproval(args: Args, sky: Sky, ghost start: State, ghost k: nat, ghost n: nat) returns (pc: Pc, ghost m: nat)
      requires client.cfg.store == Memory && 0 in start.calls && k + 2 <= n
      requires Steered(client.cfg, start, sky, n) == Steered(client.cfg, Now(args, Calling), sky, n - k)
      modifies stateStore, client
      ensures (pc.Done? || pc.LookingUp?) && m == k + 2
      ensures pc.Done? ==> Steered(client.cfg, start, sky, n) == Now(args, pc)
      ensures pc.LookingUp? ==> Steered(client.cfg, start, sky, n) == Steered(client.cfg, Now(args, pc), sky, n - m)
    {
      hide Apply, Present, G.ConsumeIssued, Steered, UsableRef, Advance;
      m := k + 2;
      ghost var s := Now(args, Calling);
      pc := ConsumeAtMtp(args, sky(Calling));
      Took(client.cfg, start, s, k, Now(args, pc), sky, n);
      if pc.Marking? {
        s := Now(args, pc);
        pc := CheckpointReceipt(args, sky(pc), pc.receipt);
        Took(client.cfg, start, s, k + 1, Now(args, pc), sky, n);
      }
    }

    /** The last two awaits. */
    method Finish(args: Args, sky: Sky, ghost start: State, ghost k: nat, ghost n: nat, issued: Option<Body>)
      returns (outcome: Outcome)
      requires client.cfg.store == Memory && 0 in start.calls && k + 2 <= n
      requires Steered(client.cfg, start, sky, n) == Steered(client.cfg, Now(args, Consuming(issued)), sky, n - k)
      modifies stateStore, nonces
      ensures Now(args, Done(outcome)) == Steered(client.cfg, start, sky, n)
    {
      hide Apply, Present, G.ConsumeIssued, Steered, UsableRef, Advance;
      ghost var s := Now(args, Consuming(issued));
      var pc := ConsumeDecision(args, sky(Consuming(issued)), issued);
      Took(client.cfg, start, s, k, Now(args, pc), sky, n);
      if pc.Done? {
        return pc.outcome;
      }
      s := Now(args, Completing);
      pc := MarkComplete(args, sky(Completing));
      Took(client.cfg, start, s, k + 1, Now(args, pc), sky, n);
      outcome := pc.outcome;
    }

    method Enter(args: Args, w: Weather) returns (pc: Pc)
      ensures Now(args, pc) == Advance(client.cfg, Now(args, Entering), 0, w) && (pc.Done? || pc.Looking?)
    {
      hide UsableRef;
      pc := if UsableRef(args.executionRef) then Looking else Done(BadReference);
      Equal(Now(args, pc), Advance(client.cfg, Now(args, Entering), 0, w));
    }

    /** The authorisation is on file and for this action. */
    method CheckAuthorization(args: Args, w: Weather) returns (pc: Pc)
      requires client.cfg.store == Memory
      ensures Now(args, pc) == Advance(client.cfg, old(Now(args, Looking)), 0, w)
      ensures pc.Done? || pc.Claiming?
    {
      hide Advance, Present, G.ConsumeIssued;
      ghost var s := Now(args, Looking);
      LookMoves(client.cfg, s, args, w);
      var authorization := stateStore.GetAuthorization(args.decisionId);
      pc := if w.fault != NoFault then Done(Failed)
            else match authorization
                 case None => Done(Unavailable)
                 case Some(r) => if r.authorization.actionHash == args.actionHash then Claiming else Done(HashMismatch);
      Equal(Now(args, pc), Advance(client.cfg, s, 0, w));
    }

    /** The reference is claimed for the decision. */
    method ClaimExecution(args: Args, w: Weather) returns (pc: Pc)
      requires client.cfg.store == Memory
      modifies stateStore
      ensures Now(args, pc) == Advance(client.cfg, old(Now(args, Claiming)), 0, w)
      ensures pc.Done? || pc.Rereading?
    {
      hide Advance, Apply, Present, G.ConsumeIssued;
      ghost var s := Now(args, Claiming);
      ClaimMoves(client.cfg, s, args, w);
      MemoryClaims(s.records, args);
      pc := Done(Failed);
      if w.fault != LostRequest {
        var claim := stateStore.ClaimExecution(args.decisionId, args.actionHash, args.executionRef);
        if w.fault == NoFault {
          pc := if claim.Missing? then Done(Unavailable) else if claim.Conflict? then Done(NonceConflict) else Rereading;
        }
      }
      Equal(Now(args, pc), Advance(client.cfg, s, 0, w));
    }

    /** A receipt on file means that MTP was consumed before. */
    method CheckReceipt(args: Args, w: Weather) returns (pc: Pc)
      requires client.cfg.store == Memory
      ensures Now(args, pc) == Advance(client.cfg, old(Now(args, Rereading)), 0, w)
      ensures pc.Done? || pc.Calling? || pc.LookingUp?
    {
      hide Advance, Present, G.ConsumeIssued;
      ghost var s := Now(args, Rereading);
      RereadMoves(client.cfg, s, args, w);
      var authorization := stateStore.GetAuthorization(args.decisionId);
      pc := if w.fault != NoFault then Done(Failed)
            else match authorization
                 case None => Done(Unavailable)
                 case Some(r) => if r.auditId.None? then Calling else LookingUp;
      Equal(Now(args, pc), Advance(client.cfg, s, 0, w));
    }

    /** MTP's consumption of the approval. */
    method ConsumeAtMtp(args: Args, w: Weather) returns (pc: Pc)
      requires client.cfg.store == Memory
      modifies client
      ensures Now(args, pc) == Advance(client.cfg, old(Now(args, Calling)), 0, w)
      ensures pc.Done? || pc.Marking?
    {
      hide Advance, Apply, Present, G.ConsumeIssued;
      ghost var s := Now(args, Calling);
      MtpMoves(client.cfg, s, args, w);
      pc := Done(Failed);
      if w.fault != LostRequest {
        var receipt := client.Consume(args, w);
        if w.fault == NoFault {
          pc := if receipt.None? then Done(NotAllow) else Marking(receipt.value);
        }
      }
      Equal(Now(args, pc), Advance(client.cfg, s, 0, w));
    }

    /** The receipt is written before the decision is consumed. */
    method CheckpointReceipt(args: Args, w: Weather, receipt: Receipt) returns (pc: Pc)
      requires client.cfg.store == Memory
      modifies stateStore
      ensures Now(args, pc) == Advance(client.cfg, old(Now(args, Marking(receipt))), 0, w)
      ensures pc.Done? || pc.LookingUp?
    {
      hide Advance, Apply, Present, G.ConsumeIssued;
      ghost var s := Now(args, Marking(receipt));
      MarkMoves(client.cfg, s, args, w, receipt);
      pc := Done(Failed);
      if w.fault != LostRequest {
        var marked := stateStore.MarkMtpConsumed(args.decisionId, args.executionRef, receipt);
        if w.fault == NoFault && marked.Saved? {
          pc := LookingUp;
        }
      }
      Equal(Now(args, pc), Advance(client.cfg, s, 0, w));
    }

    /** The local provider's stored decision. */
    method FindDecision(args: Args, w: Weather) returns (pc: Pc)
      requires client.cfg.store == Memory
      ensures Now(args, pc) == Advance(client.cfg, old(Now(args, LookingUp)), 0, w)
      ensures pc.Done? || pc.Consuming?
    {
      hide Advance, Apply, Present, G.ConsumeIssued;
      ghost var s := Now(args, LookingUp);
      FindMoves(client.cfg, s, args, w);
      var id := args.decisionId;
      pc := if w.fault != NoFault then Done(Failed)
            else Consuming(if id in provider.decisions then Some(provider.decisions[id]) else None);
      Equal(Now(args, pc), Advance(client.cfg, s, 0, w));
    }

    method InnerConsume(args: Args, w: Weather, issued: Option<Body>) returns (success: bool)
      modifies nonces
      ensures (nonces.consumed, success)
           == G.ConsumeIssued(old(nonces.consumed), issued, args.actionHash, args.executionRef, w.now, w.refused)
    {
      hide G.ConsumeIssued;
      var status := GuardDriver.ConsumeDecision(nonces, issued, args.actionHash, args.executionRef, w.now, w.refused);
      success := status == GuardDriver.Consumed || status == GuardDriver.Idempotent;
    }

    /** The local provider's consumption. */
    method ConsumeDecision(args: Args, w: Weather, issued: Option<Body>) returns (pc: Pc)
      requires client.cfg.store == Memory
      modifies nonces
      ensures Now(args, pc) == Advance(client.cfg, old(Now(args, Consuming(issued))), 0, w)
      ensures pc.Done? || pc.Completing?
    {
      hide Advance, Apply, Present, G.ConsumeIssued;
      ghost var s := Now(args, Consuming(issued));
      pc := Done(Failed);
      ConsumeMoves(client.cfg, s, args, w, issued);
      if w.fault != LostRequest {
        var success := InnerConsume(args, w, issued);
        if w.fault == NoFault {
          pc := if success then Completing else Done(InnerRejected);
        }
      }
      Equal(Now(args, pc), Advance(client.cfg, s, 0, w));
    }

    /** Completion, once the decision is consumed. */
    method MarkComplete(args: Args, w: Weather) returns (pc: Pc)
      requires client.cfg.store == Memory
      modifies stateStore
      ensures Now(args, pc) == Advance(client.cfg, old(Now(args, Completing)), 0, w)
      ensures pc.Done?
    {
      hide Advance, Apply, Present, G.ConsumeIssued;
      ghost var s := Now(args, Completing);
      CompleteMoves(client.cfg, s, args, w);
      pc := Done(Failed);
      if w.fault != LostRequest {
        var completed := stateStore.MarkComplete(args.decisionId, args.executionRef, w.now);
        if w.fault == NoFault && completed.Saved? {
          pc := Done(Succeeded);
        }
      }
      Equal(Now(args, pc), Advance(client.cfg, s, 0, w));
    }
  }

  /** The one call of `s` is at `pc`. */
  predicate Alone(s: State, args: Args, pc: Pc) {
    s.calls.Keys == {0} && s.calls[0] == Thread(args, pc)
  }

  // ----- where each await leads, on values

  lemma LookMoves(cfg: Config, s: State, args: Args, w: Weather)
    requires Alone(s, args, Looking)
    ensures var t := Advance(cfg, s, 0, w);
            && t.records == s.records && t.mtp == s.mtp && t.decisions == s.decisions && t.consumed == s.consumed
            && Alone(t, args, if w.fault != NoFault then Done(Failed)
                              else if args.decisionId !in s.records then Done(Unavailable)
                              else if s.records[args.decisionId].authorization.actionHash == args.actionHash
                              then Claiming else Done(HashMismatch))
  {
    var (t, answer) := Ask(cfg, s, Get(args.decisionId), w.fault);
    assert w.fault == NoFault ==>
        answer == Found(if args.decisionId in s.records then Some(s.records[args.decisionId]) else None);
  }

  lemma ClaimMoves(cfg: Config, s: State, args: Args, w: Weather)
    requires cfg.store == Memory && Alone(s, args, Claiming)
    ensures var (records, answer) := Apply(Memory, s.records, Claim(args.decisionId, args.actionHash, args.executionRef));
            var t := Advance(cfg, s, 0, w);
            && t.records == (if w.fault == LostRequest then s.records else records)
            && t.mtp == s.mtp && t.decisions == s.decisions && t.consumed == s.consumed
            && Alone(t, args, if w.fault != NoFault then Done(Failed)
                              else if answer.Missing? then Done(Unavailable)
                              else if answer.Conflict? then Done(NonceConflict) else Rereading)
  {
    hide RefTaken;
  }

  lemma RereadMoves(cfg: Config, s: State, args: Args, w: Weather)
    requires Alone(s, args, Rereading)
    ensures var t := Advance(cfg, s, 0, w);
            && t.records == s.records && t.mtp == s.mtp && t.decisions == s.decisions && t.consumed == s.consumed
            && Alone(t, args, if w.fault != NoFault then Done(Failed)
                              else if args.decisionId !in s.records then Done(Unavailable)
                              else if s.records[args.decisionId].auditId.None? then Calling else LookingUp)
  {
    var (t, answer) := Ask(cfg, s, Get(args.decisionId), w.fault);
    assert w.fault == NoFault ==>
        answer == Found(if args.decisionId in s.records then Some(s.records[args.decisionId]) else None);
  }

  lemma MtpMoves(cfg: Config, s: State, args: Args, w: Weather)
    requires Alone(s, args, Calling)
    ensures var (mtp, receipt) := Present(cfg, s.mtp, args, w);
            var t := Advance(cfg, s, 0, w);
            && t.records == s.records && t.mtp == (if w.fault == LostRequest then s.mtp else mtp)
            && t.decisions == s.decisions && t.consumed == s.consumed
            && Alone(t, args, if w.fault != NoFault then Done(Failed)
                              else if receipt.None? then Done(NotAllow) else Marking(receipt.value))
  {
    hide Present;
  }

  lemma MarkMoves(cfg: Config, s: State, args: Args, w: Weather, receipt: Receipt)
    requires cfg.store == Memory && Alone(s, args, Marking(receipt))
    ensures var (records, answer) := Apply(Memory, s.records, MarkConsumed(args.decisionId, args.executionRef, receipt));
            var t := Advance(cfg, s, 0, w);
            && t.records == (if w.fault == LostRequest then s.records else records)
            && t.mtp == s.mtp && t.decisions == s.decisions && t.consumed == s.consumed
            && Alone(t, args, if w.fault == NoFault && answer.Saved? then LookingUp else Done(Failed))
  {
    hide Apply;
  }

  lemma FindMoves(cfg: Config, s: State, args: Args, w: Weather)
    requires Alone(s, args, LookingUp)
    ensures var id := args.decisionId;
            var t := Advance(cfg, s, 0, w);
            && t.records == s.records && t.mtp == s.mtp && t.decisions == s.decisions && t.consumed == s.consumed
            && Alone(t, args, if w.fault != NoFault then Done(Failed)
                              else Consuming(if id in s.decisions then Some(s.decisions[id]) else None))
  {
  }

  lemma ConsumeMoves(cfg: Config, s: State, args: Args, w: Weather, issued: Option<Body>)
    requires Alone(s, args, Consuming(issued))
    ensures var (consumed, success) := G.ConsumeIssued(s.consumed, issued, args.actionHash, args.executionRef, w.now,
                                                       w.refused);
            var t := Advance(cfg, s, 0, w);
            t == State(s.records, s.mtp, s.decisions, if w.fault == LostRequest then s.consumed else consumed,
                       map[0 := Thread(args, if w.fault != NoFault then Done(Failed)
                                             else if success then Completing else Done(InnerRejected))])
  {
    hide G.ConsumeIssued;
  }

  lemma CompleteMoves(cfg: Config, s: State, args: Args, w: Weather)
    requires cfg.store == Memory && Alone(s, args, Completing)
    ensures var (records, answer) := Apply(Memory, s.records, MarkComplete(args.decisionId, args.executionRef, w.now));
            var t := Advance(cfg, s, 0, w);
            && t.records == (if w.fault == LostRequest then s.records else records)
            && t.mtp == s.mtp && t.decisions == s.decisions && t.consumed == s.consumed
            && Alone(t, args, Done(if w.fault == NoFault && answer.Saved? then Succeeded else Failed))
  {
    hide Apply;
  }

  // ----- a call moving alone

  /** The machine, moving call 0 alone through this weather. */
  function Steered(cfg: Config, s: State, sky: Sky, n: nat): State
    requires 0 in s.calls
    decreases n
  {
    if n == 0 then s else Steered(cfg, Advance(cfg, s, 0, sky(s.calls[0].pc)), sky, n - 1)
  }

  lemma {:induction false} EndStays(cfg: Config, s: State, sky: Sky, n: nat)
    requires 0 in s.calls && s.calls[0].pc.Done?
    ensures Steered(cfg, s, sky, n) == s
  {
    if n > 0 {
      EndStays(cfg, s, sky, n - 1);
    }
  }

  ghost predicate Same(s: State, t: State) {
    && s.records == t.records && s.mtp == t.mtp && s.decisions == t.decisions && s.consumed == t.consumed
    && s.calls.Keys == {0} == t.calls.Keys && s.calls[0] == t.calls[0]
  }

  lemma Equal(s: State, t: State)
    requires Same(s, t)
    ensures s == t
  {
    assert s.calls == t.calls;
  }

  /** From `s`, where the machine stands after `k` steps, one step further. */
  lemma Took(cfg: Config, start: State, s: State, k: nat, t: State, sky: Sky, n: nat)
    requires 0 in start.calls && 0 in s.calls && k < n && t == Advance(cfg, s, 0, sky(s.calls[0].pc))
    requires Steered(cfg, start, sky, n) == Steered(cfg, s, sky, n - k)
    ensures Steered(cfg, start, sky, n) == Steered(cfg, t, sky, n - (k + 1))
    ensures t.calls[0].pc.Done? ==> Steered(cfg, start, sky, n) == t
  {
    hide Advance;
    if t.calls[0].pc.Done? {
      EndStays(cfg, t, sky, n - (k + 1));
    }
  }

  /** The in-memory claim answers at once. */
  lemma MemoryClaims(records: Records, args: Args)
    ensures var answer := Apply(Memory, records, Claim(args.decisionId, args.actionHash, args.executionRef)).1;
            answer.Claimed? || answer.Idempotent? || answer.Missing? || answer.Conflict?
  {
  }
}
