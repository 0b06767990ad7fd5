/**
 * Consume, claim, execute, finish, complete: the driver that the AP2 gate, the wallet gate and the A2A gate share
 * (packages/ap2-runtime-gate/src/gate.ts, packages/wallet-signing-gate/src/gate.ts,
 * packages/a2a-settlement-gate/src/gate.ts), over one journal keyed by what must happen once.
 *
 * To execute is to run the delegate or to sign; to finish is to sign the receipt or to broadcast.
 */
module ClaimOnce {
  import opened Prelude
  import opened Decisions
  import G = Guard

  // ----- the journal

  /** What a completed record keeps besides its binding, field by field. */
  type Payload = seq<string>

  datatype Execution = Claimed(binding: Digest) | Completed(binding: Digest, payload: Payload)

  datatype Answer = Yours | InProgress | Conflict | Replay(payload: Payload)

  function Claim(journal: map<string, Execution>, key: string, binding: Digest): (map<string, Execution>, Answer) {
    if key !in journal then (journal[key := Claimed(binding)], Yours)
    else (journal,
          if journal[key].binding != binding then Conflict
          else match journal[key] case Claimed(_) => InProgress case Completed(_, p) => Replay(p))
  }

  /** Completion, and whether the journal accepted it. */
  function Complete(journal: map<string, Execution>, key: string, binding: Digest, payload: Payload)
    : (map<string, Execution>, bool)
  {
    if key in journal && journal[key].Claimed? && journal[key].binding == binding
    then (journal[key := Completed(binding, payload)], true)
    else (journal, false)
  }

  /** A free key is the caller's. A taken one answers by its record: another binding is a conflict, the same binding
      replays the payload that a completion stored and is unresolved until then. Only a free key changes. */
  lemma ClaimAnswers(journal: map<string, Execution>, key: string, binding: Digest)
    ensures var (next, answer) := Claim(journal, key, binding);
            && (answer == Yours <==> key !in journal)
            && (answer == Conflict <==> key in journal && journal[key].binding != binding)
            && (answer == InProgress <==> key in journal && journal[key] == Claimed(binding))
            && (forall payload :: answer == Replay(payload) <==> key in journal && journal[key] == Completed(binding, payload))
            && (key in journal ==> next == journal)
            && (key !in journal ==> next == journal[key := Claimed(binding)])
  {
  }

  /** A completion is accepted exactly on a claim under its own binding; then the record holds its payload, and no other
      record changes. */
  lemma CompletesOnlyItsClaim(journal: map<string, Execution>, key: string, binding: Digest, payload: Payload)
    ensures var (next, accepted) := Complete(journal, key, binding, payload);
            && (accepted <==> key in journal && journal[key] == Claimed(binding))
            && next == if accepted then journal[key := Completed(binding, payload)] else journal
  {
  }

  // ----- the machine

  /** `payload` is what a call would store from the two external results. */
  datatype Config = Config(payload: (Args, string, string) -> Payload)

  /** `fixed` are the fields of the payload that the call has before it executes. */
  datatype Args = Args(key: string, binding: Digest, decisionId: string, actionHash: Digest, executionRef: string,
                       fixed: seq<string>)

  datatype Outcome =
    | NotConsumed
    | ConflictingBinding
    | UnresolvedAttempt
    | Replayed(payload: Payload)
    | Executed(payload: Payload)
    | Failed
    | Crashed

  datatype Pc =
    | LookingUp
    | Consuming(issued: Option<Body>)
    | Claiming
    | Executing
    | Finishing(result: string)
    | Completing(payload: Payload)
    | Done(outcome: Outcome)

  datatype Thread = Thread(args: Args, pc: Pc)

  datatype Entry = Entry(pid: nat, args: Args)

  /** `executed` and `finished` log the two external calls, `owner` who claimed, `made` what each call would store. */
  datatype State = State(journal: map<string, Execution>, decisions: map<string, Body>,
                            consumed: map<(string, string), G.Consumption>, calls: map<nat, Thread>,
                            owner: map<string, nat>, executed: seq<Entry>, finished: seq<Entry>, made: map<nat, Payload>)

  /** No external result means that the call threw or gave something invalid. */
  datatype Weather = Weather(now: int, fault: Fault, refused: bool, result: Option<string>)

  datatype Label =
    | Begin(pid: nat, args: Args)
    | Go(pid: nat, w: Weather)
    | Crash(pid: nat)
    | Issue(body: Body)
    | OtherConsume(decisionId: string, actionHash: Digest, executionRef: string, now: int)

  function At(s: State, pid: nat, pc: Pc): (t: State)
    requires pid in s.calls
    ensures pid in t.calls && t.calls[pid].args == s.calls[pid].args
  {
    s.(calls := s.calls[pid := s.calls[pid].(pc := pc)])
  }

  function Issued(s: State, id: string): Option<Body> {
    if id in s.decisions then Some(s.decisions[id]) else None
  }

  function Consume(s: State, pid: nat, issued: Option<Body>, w: Weather): (t: State)
    requires pid in s.calls
    ensures pid in t.calls && t.calls[pid].args == s.calls[pid].args
  {
    var args := s.calls[pid].args;
    if w.fault == LostRequest then At(s, pid, Done(NotConsumed))
    else
      var (consumed, success) := G.ConsumeIssued(s.consumed, issued, args.actionHash, args.executionRef, w.now, w.refused);
      At(s.(consumed := consumed), pid, if w.fault == NoFault && success then Claiming else Done(NotConsumed))
  }

  function ClaimStep(s: State, pid: nat, fault: Fault): (t: State)
    requires pid in s.calls
    ensures pid in t.calls && t.calls[pid].args == s.calls[pid].args
  {
    var args := s.calls[pid].args;
    var (journal, answer) := Claim(s.journal, args.key, args.binding);
    if fault == LostRequest then At(s, pid, Done(Failed))
    else
      var owner := if answer.Yours? then s.owner[args.key := pid] else s.owner;
      At(s.(journal := journal, owner := owner), pid,
         if fault == LostAnswer then Done(Failed)
         else match answer
           case Yours => Executing
           case InProgress => Done(UnresolvedAttempt)
           case Conflict => Done(ConflictingBinding)
           case Replay(p) => Done(Replayed(p)))
  }

  function CompleteStep(s: State, pid: nat, payload: Payload, fault: Fault): (t: State)
    requires pid in s.calls
    ensures pid in t.calls && t.calls[pid].args == s.calls[pid].args
  {
    var args := s.calls[pid].args;
    var (journal, accepted) := Complete(s.journal, args.key, args.binding, payload);
    if fault == LostRequest then At(s, pid, Done(Failed))
    else At(s.(journal := journal), pid,
            Done(if fault == NoFault && accepted then Executed(payload) else Failed))
  }

  function Execute(s: State, pid: nat, result: Option<string>): (t: State)
    requires pid in s.calls
    ensures pid in t.calls && t.calls[pid].args == s.calls[pid].args
  {
    At(s.(executed := s.executed + [Entry(pid, s.calls[pid].args)]), pid,
       if result.Some? then Finishing(result.value) else Done(Failed))
  }

  function Finish(cfg: Config, s: State, pid: nat, first: string, second: Option<string>): (t: State)
    requires pid in s.calls
    ensures pid in t.calls && t.calls[pid].args == s.calls[pid].args
  {
    var args := s.calls[pid].args;
    var u := s.(finished := s.finished + [Entry(pid, args)]);
    if second.None? then At(u, pid, Done(Failed))
    else
      var payload := cfg.payload(args, first, second.value);
      At(u.(made := s.made[pid := payload]), pid, Completing(payload))
  }

  function Advance(cfg: Config, s: State, pid: nat, w: Weather): (t: State)
    requires pid in s.calls
    ensures pid in t.calls && t.calls[pid].args == s.calls[pid].args
  {
    match s.calls[pid].pc
    case LookingUp =>
      At(s, pid, if w.fault != NoFault then Done(NotConsumed) else Consuming(Issued(s, s.calls[pid].args.decisionId)))
    case Consuming(issued) => Consume(s, pid, issued, w)
    case Claiming => ClaimStep(s, pid, w.fault)
    case Executing => Execute(s, pid, w.result)
    case Finishing(first) => Finish(cfg, s, pid, first, w.result)
    case Completing(payload) => CompleteStep(s, pid, payload, w.fault)
    case Done(_) => s
  }

  lemma FailedStoreEnds(s: State, pid: nat, w: Weather, issued: Option<Body>, payload: Payload)
    requires pid in s.calls && w.fault != NoFault
    ensures Consume(s, pid, issued, w).calls[pid].pc == Done(NotConsumed)
    ensures ClaimStep(s, pid, w.fault).calls[pid].pc == Done(Failed)
    ensures CompleteStep(s, pid, payload, w.fault).calls[pid].pc == Done(Failed)
  {
    hide G.ConsumeIssued, Claim, Complete;
  }

  /** A store or provider that failed to answer ends the call: as not consumed before the claim, as failed from then on;
      and so does an external call without a result. */
  lemma FailedAwaitsEnd(cfg: Config, s: State, pid: nat, w: Weather)
    requires pid in s.calls && w.fault != NoFault && w.result == None
    ensures var next := Advance(cfg, s, pid, w).calls[pid].pc;
            match s.calls[pid].pc
            case LookingUp => next == Done(NotConsumed)
            case Consuming(_) => next == Done(NotConsumed)
            case Done(_) => true
            case _ => next == Done(Failed)
  {
    hide Consume, ClaimStep, CompleteStep;
    match s.calls[pid].pc
    case Consuming(issued) => FailedStoreEnds(s, pid, w, issued, []);
    case Claiming => FailedStoreEnds(s, pid, w, None, []);
    case Completing(payload) => FailedStoreEnds(s, pid, w, None, payload);
    case _ =>
  }

  function Exec(cfg: Config, s: State, l: Label): State {
    match l
    case Begin(pid, args) => if pid in s.calls then s else s.(calls := s.calls[pid := Thread(args, LookingUp)])
    case Go(pid, w) => if pid in s.calls then Advance(cfg, s, pid, w) else s
    case Crash(pid) => if pid in s.calls && !s.calls[pid].pc.Done? then At(s, pid, Done(Crashed)) else s
    case Issue(body) =>
      if body.decisionId in s.decisions then s else s.(decisions := s.decisions[body.decisionId := body])
    case OtherConsume(id, hash, ref, now) =>
      s.(consumed := G.ConsumeIssued(s.consumed, Issued(s, id), hash, ref, now, false).0)
  }

  function Run(cfg: Config, s: State, labels: seq<Label>): State
    decreases |labels|
  {
    if labels == [] then s else Run(cfg, Exec(cfg, s, labels[0]), labels[1..])
  }

  function Initial(): State {
    State(map[], map[], map[], map[], map[], [], [], map[])
  }

  // ----- the invariant

  function Phase(pc: Pc): nat {
    match pc
    case Executing => 1
    case Finishing(_) => 2
    case Completing(_) => 3
    case Done(_) => 4
    case _ => 0
  }

  /** The decision of the call is an issued ALLOW of its action, consumed under its reference. */
  predicate ConsumedFor(s: State, args: Args) {
    && args.decisionId in s.decisions
    && s.decisions[args.decisionId].verdict == Allow && s.decisions[args.decisionId].actionHash == args.actionHash
    && var key := (args.decisionId, s.decisions[args.decisionId].nonce);
       key in s.consumed && s.consumed[key] == G.Consumption(args.actionHash, args.executionRef)
  }

  predicate Owns(s: State, pid: nat, args: Args) {
    && args.key in s.owner && s.owner[args.key] == pid
    && args.key in s.journal && s.journal[args.key].binding == args.binding
    && ConsumedFor(s, args)
  }

  ghost predicate EntryOk(s: State, e: Entry, phase: nat) {
    && e.pid in s.calls && s.calls[e.pid].args == e.args && Phase(s.calls[e.pid].pc) >= phase
    && Owns(s, e.pid, e.args)
  }

  /** A completed record holds what its one owner made. */
  ghost predicate RecordOk(s: State, key: string)
    requires key in s.journal
  {
    && key in s.owner && s.owner[key] in s.calls && s.calls[s.owner[key]].args.key == key
    && (s.journal[key].Completed? ==>
          && s.owner[key] in s.made && s.made[s.owner[key]] == s.journal[key].payload
          && Phase(s.calls[s.owner[key]].pc) == 4
          && exists i :: 0 <= i < |s.executed| && s.executed[i].pid == s.owner[key])
  }

  ghost predicate ThreadInv(s: State, pid: nat, t: Thread) {
    && (t.pc.Consuming? && t.pc.issued.Some? ==>
          t.args.decisionId in s.decisions && s.decisions[t.args.decisionId] == t.pc.issued.value)
    && (t.pc.Claiming? ==> ConsumedFor(s, t.args))
    && (1 <= Phase(t.pc) <= 3 ==> Owns(s, pid, t.args))
    && (2 <= Phase(t.pc) <= 3 ==> exists i :: 0 <= i < |s.executed| && s.executed[i].pid == pid)
    && (t.pc.Completing? ==> pid in s.made && s.made[pid] == t.pc.payload)
    && (t.pc.Done? && (t.pc.outcome.Replayed? || t.pc.outcome.Executed?) ==>
          t.args.key in s.journal && s.journal[t.args.key] == Completed(t.args.binding, t.pc.outcome.payload))
  }

  ghost predicate LogInv(s: State, log: seq<Entry>, phase: nat) {
    && (forall i :: 0 <= i < |log| ==> EntryOk(s, log[i], phase))
    && (forall i, j :: 0 <= i < j < |log| ==> log[i].pid != log[j].pid)
  }

  ghost predicate Inv(s: State) {
    && (forall id :: id in s.decisions ==> s.decisions[id].decisionId == id)
    && s.owner.Keys == s.journal.Keys
    && (forall key :: key in s.journal ==> RecordOk(s, key))
    && LogInv(s, s.executed, 2) && LogInv(s, s.finished, 3)
    && (forall pid :: pid in s.calls ==> ThreadInv(s, pid, s.calls[pid]))
  }

  // ----- nothing is taken back

  ghost predicate Extends<K, V>(a: map<K, V>, b: map<K, V>) {
    forall k :: k in a ==> k in b && a[k] == b[k]
  }

  ghost predicate Grows(s: State, t: State) {
    && Extends(s.decisions, t.decisions) && Extends(s.consumed, t.consumed) && Extends(s.owner, t.owner)
    && (forall key :: key in s.journal ==>
          && key in t.journal && t.journal[key].binding == s.journal[key].binding
          && (s.journal[key].Completed? ==> t.journal[key] == s.journal[key]))
    && s.executed <= t.executed && s.finished <= t.finished
    && (forall p :: p in s.calls ==> p in t.calls && t.calls[p].args == s.calls[p].args
                                     && Phase(s.calls[p].pc) <= Phase(t.calls[p].pc))
    && (forall p :: p in s.made && p in s.calls && Phase(s.calls[p].pc) >= 3 ==> p in t.made && t.made[p] == s.made[p])
  }

  /** A log is as it was, or has one more entry, of a call that was in the phase before. */
  ghost predicate Logged(s: State, t: State, pid: nat, before: seq<Entry>, after: seq<Entry>, phase: nat) {
    after == before
    || (pid in s.calls && Phase(s.calls[pid].pc) < phase && |after| == |before| + 1 && before <= after
        && after[|before|].pid == pid && EntryOk(t, after[|before|], phase))
  }

  ghost predicate OthersStand(s: State, t: State, pid: nat) {
    forall p :: p in t.calls && p != pid ==> p in s.calls && t.calls[p] == s.calls[p]
  }

  ghost predicate RecordsMove(s: State, t: State) {
    && (forall id :: id in t.decisions ==> t.decisions[id].decisionId == id)
    && t.owner.Keys == t.journal.Keys
    && (forall key :: key in t.journal ==> (key in s.journal && t.journal[key] == s.journal[key]) || RecordOk(t, key))
  }

  ghost predicate Moved(s: State, t: State, pid: nat) {
    && Grows(s, t)
    && OthersStand(s, t, pid)
    && (pid in t.calls ==> ThreadInv(t, pid, t.calls[pid]))
    && RecordsMove(s, t)
    && Logged(s, t, pid, s.executed, t.executed, 2)
    && Logged(s, t, pid, s.finished, t.finished, 3)
  }

  lemma EntrySurvives(s: State, t: State, e: Entry, phase: nat)
    requires Grows(s, t) && EntryOk(s, e, phase)
    ensures EntryOk(t, e, phase)
  {
  }

  lemma RanSurvives(s: State, t: State, pid: nat)
    requires Grows(s, t) && exists i :: 0 <= i < |s.executed| && s.executed[i].pid == pid
    ensures exists i :: 0 <= i < |t.executed| && t.executed[i].pid == pid
  {
    var i :| 0 <= i < |s.executed| && s.executed[i].pid == pid;
    assert t.executed[i] == s.executed[i];
  }

  lemma RecordSurvives(s: State, t: State, key: string)
    requires Grows(s, t) && key in s.journal && key in t.journal && t.journal[key] == s.journal[key] && RecordOk(s, key)
    ensures RecordOk(t, key)
  {
    if s.journal[key].Completed? { RanSurvives(s, t, s.owner[key]); }
  }

  lemma ThreadSurvives(s: State, t: State, pid: nat)
    requires Grows(s, t) && pid in s.calls && pid in t.calls && t.calls[pid] == s.calls[pid]
    requires ThreadInv(s, pid, s.calls[pid])
    ensures ThreadInv(t, pid, t.calls[pid])
  {
    if 2 <= Phase(s.calls[pid].pc) <= 3 { RanSurvives(s, t, pid); }
  }

  lemma LogMoves(s: State, t: State, pid: nat, before: seq<Entry>, after: seq<Entry>, phase: nat)
    requires LogInv(s, before, phase) && Grows(s, t) && Logged(s, t, pid, before, after, phase)
    ensures LogInv(t, after, phase)
  {
    forall i | 0 <= i < |before| ensures after[i] == before[i] && EntryOk(t, after[i], phase) {
      EntrySurvives(s, t, before[i], phase);
    }
    hide Grows;
    forall i, j | 0 <= i < j < |after| ensures after[i].pid != after[j].pid {
      assert EntryOk(s, before[i], phase);
    }
  }

  lemma MovesKeepInv(s: State, t: State, pid: nat)
    requires Inv(s) && Moved(s, t, pid)
    ensures Inv(t)
  {
    LogMoves(s, t, pid, s.executed, t.executed, 2);
    LogMoves(s, t, pid, s.finished, t.finished, 3);
    hide LogInv, Grows, Logged;
    forall key | key in t.journal ensures RecordOk(t, key) {
      if key in s.journal && t.journal[key] == s.journal[key] { RecordSurvives(s, t, key); }
    }
    hide RecordOk;
    forall p | p in t.calls ensures ThreadInv(t, p, t.calls[p]) {
      if p != pid { ThreadSurvives(s, t, p); }
    }
  }

  // ----- each step moves so

  /** A step of `pid` that leaves the journal alone. */
  lemma GrowsAt(s: State, t: State, pid: nat, pc: Pc)
    requires pid in s.calls && t.calls == s.calls[pid := s.calls[pid].(pc := pc)] && Phase(s.calls[pid].pc) <= Phase(pc)
    requires t.decisions == s.decisions && t.owner == s.owner && t.journal == s.journal && Extends(s.consumed, t.consumed)
    requires s.executed <= t.executed && s.finished <= t.finished
    requires t.made == s.made
          || (Phase(s.calls[pid].pc) < 3
              && forall p :: p in s.made && p != pid ==> p in t.made && t.made[p] == s.made[p])
    ensures Grows(s, t) && OthersStand(s, t, pid)
  {
    hide Phase;
  }

  /** A thread's invariant reads the stores only. */
  lemma SameStores(s: State, t: State, pid: nat, u: Thread)
    requires t == s.(calls := t.calls) && ThreadInv(s, pid, u)
    ensures ThreadInv(t, pid, u)
  {
  }

  /** A step that leaves the journal alone. */
  lemma LogsMove(s: State, t: State, pid: nat)
    requires Grows(s, t) && OthersStand(s, t, pid) && (pid in t.calls ==> ThreadInv(t, pid, t.calls[pid]))
    requires (forall id :: id in t.decisions ==> t.decisions[id].decisionId == id) && s.owner.Keys == s.journal.Keys
    requires t.journal == s.journal && t.owner == s.owner
    requires Logged(s, t, pid, s.executed, t.executed, 2) && Logged(s, t, pid, s.finished, t.finished, 3)
    ensures Moved(s, t, pid)
  {
    hide Grows, OthersStand, ThreadInv, RecordOk, Logged;
  }

  /** A step that leaves the journal and both logs alone. */
  lemma QuietMoves(s: State, t: State, pid: nat)
    requires Grows(s, t) && OthersStand(s, t, pid) && (pid in t.calls ==> ThreadInv(t, pid, t.calls[pid]))
    requires (forall id :: id in t.decisions ==> t.decisions[id].decisionId == id) && s.owner.Keys == s.journal.Keys
    requires t.journal == s.journal && t.owner == s.owner && t.executed == s.executed && t.finished == s.finished
    ensures Moved(s, t, pid)
  {
    hide Grows, OthersStand, ThreadInv, Moved, EntryOk;
    LogsMove(s, t, pid);
  }

  lemma Shifts(s: State, pid: nat, pc: Pc)
    requires Inv(s) && pid in s.calls && Phase(s.calls[pid].pc) <= Phase(pc)
    requires ThreadInv(s, pid, s.calls[pid].(pc := pc))
    ensures Moved(s, At(s, pid, pc), pid)
  {
    var t := At(s, pid, pc);
    About(s, pid);
    GrowsAt(s, t, pid, pc);
    hide Inv, Grows, OthersStand, ThreadInv, RecordOk, Moved;
    SameStores(s, t, pid, t.calls[pid]);
    QuietMoves(s, t, pid);
  }

  lemma ConsumptionExtends(consumed: map<(string, string), G.Consumption>, issued: Option<Body>, hash: Digest, ref: string,
                           now: int, refused: bool)
    ensures var (after, success) := G.ConsumeIssued(consumed, issued, hash, ref, now, refused);
            && Extends(consumed, after)
            && (success ==> && issued.Some? && issued.value.verdict == Allow && issued.value.actionHash == hash
                            && var key := (issued.value.decisionId, issued.value.nonce);
                               key in after && after[key] == G.Consumption(hash, ref))
  {
  }

  lemma ConsumeMoves(s: State, pid: nat, issued: Option<Body>, w: Weather)
    requires Inv(s) && pid in s.calls && s.calls[pid].pc == Consuming(issued)
    ensures Moved(s, Consume(s, pid, issued, w), pid)
  {
    var args := s.calls[pid].args;
    if w.fault == LostRequest {
      Shifts(s, pid, Done(NotConsumed));
    } else {
      ConsumptionExtends(s.consumed, issued, args.actionHash, args.executionRef, w.now, w.refused);
      var t := Consume(s, pid, issued, w);
      About(s, pid);
      ConsumeKeeps(s, pid, issued, w);
      GrowsAt(s, t, pid, t.calls[pid].pc);
      hide Inv, Grows, OthersStand, G.ConsumeIssued, ThreadInv, RecordOk, Moved;
      QuietMoves(s, t, pid);
    }
  }

  lemma ConsumeKeeps(s: State, pid: nat, issued: Option<Body>, w: Weather)
    requires pid in s.calls && s.calls[pid].pc == Consuming(issued) && ThreadInv(s, pid, s.calls[pid])
    requires w.fault != LostRequest && forall id :: id in s.decisions ==> s.decisions[id].decisionId == id
    ensures var t := Consume(s, pid, issued, w); ThreadInv(t, pid, t.calls[pid])
  {
    var args := s.calls[pid].args;
    ConsumptionExtends(s.consumed, issued, args.actionHash, args.executionRef, w.now, w.refused);
    hide G.ConsumeIssued, Owns;
  }

  /** What `Inv` says about one call and its record. */
  lemma About(s: State, pid: nat)
    requires Inv(s) && pid in s.calls
    ensures ThreadInv(s, pid, s.calls[pid])
    ensures s.calls[pid].args.key in s.journal ==> RecordOk(s, s.calls[pid].args.key)
    ensures (forall id :: id in s.decisions ==> s.decisions[id].decisionId == id) && s.owner.Keys == s.journal.Keys
  {
  }

  lemma ClaimGrows(s: State, pid: nat, fault: Fault)
    requires pid in s.calls && s.calls[pid].pc.Claiming? && s.owner.Keys == s.journal.Keys
    requires s.calls[pid].args.key !in s.journal && fault != LostRequest
    ensures Grows(s, ClaimStep(s, pid, fault)) && OthersStand(s, ClaimStep(s, pid, fault), pid)
  {
  }

  lemma FreshClaim(s: State, pid: nat, fault: Fault)
    requires pid in s.calls && s.calls[pid].pc.Claiming? && ThreadInv(s, pid, s.calls[pid])
    requires s.calls[pid].args.key !in s.journal && s.owner.Keys == s.journal.Keys && fault != LostRequest
    ensures var t := ClaimStep(s, pid, fault);
            && Grows(s, t) && OthersStand(s, t, pid) && ThreadInv(t, pid, t.calls[pid])
            && s.calls[pid].args.key in t.journal && RecordOk(t, s.calls[pid].args.key) && t.owner.Keys == t.journal.Keys
            && t.decisions == s.decisions && t.executed == s.executed && t.finished == s.finished
            && forall key :: key in t.journal && key != s.calls[pid].args.key ==>
                 key in s.journal && t.journal[key] == s.journal[key]
  {
    var t := ClaimStep(s, pid, fault);
    ClaimGrows(s, pid, fault);
    hide Grows, OthersStand, Phase;
    assert t.owner.Keys == t.journal.Keys;
  }

  /** A claim that does not take the key leaves everything but the call as it was. */
  lemma ClaimAnswered(s: State, pid: nat, fault: Fault)
    requires pid in s.calls && (fault == LostRequest || s.calls[pid].args.key in s.journal)
    ensures var t := ClaimStep(s, pid, fault);
            && t == At(s, pid, t.calls[pid].pc) && t.calls[pid].pc.Done?
            && ThreadInv(s, pid, s.calls[pid].(pc := t.calls[pid].pc))
  {
    assert s.(journal := s.journal, owner := s.owner) == s;
    hide Owns, ConsumedFor;
  }

  /** A step that changes one journal record and logs nothing. */
  lemma OneRecordMoves(s: State, t: State, pid: nat)
    requires pid in t.calls && Grows(s, t) && OthersStand(s, t, pid) && ThreadInv(t, pid, t.calls[pid])
    requires t.calls[pid].args.key in t.journal && RecordOk(t, t.calls[pid].args.key) && t.owner.Keys == t.journal.Keys
    requires t.decisions == s.decisions && t.executed == s.executed && t.finished == s.finished
    requires forall id :: id in s.decisions ==> s.decisions[id].decisionId == id
    requires forall key :: key in t.journal && key != t.calls[pid].args.key ==>
               key in s.journal && t.journal[key] == s.journal[key]
    ensures Moved(s, t, pid)
  {
    hide Grows, OthersStand, ThreadInv, RecordOk, EntryOk;
  }

  lemma ClaimMoves(s: State, pid: nat, fault: Fault)
    requires Inv(s) && pid in s.calls && s.calls[pid].pc.Claiming?
    ensures Moved(s, ClaimStep(s, pid, fault), pid)
  {
    About(s, pid);
    hide Inv, Grows, OthersStand, ThreadInv, RecordOk, EntryOk, LogInv, ConsumedFor, Owns, ClaimStep;
    if fault == LostRequest || s.calls[pid].args.key in s.journal {
      ClaimAnswered(s, pid, fault);
      hide Moved;
      Shifts(s, pid, ClaimStep(s, pid, fault).calls[pid].pc);
    } else {
      FreshClaim(s, pid, fault);
      hide Moved;
      OneRecordMoves(s, ClaimStep(s, pid, fault), pid);
    }
  }

  lemma ExecuteKeeps(s: State, pid: nat, result: Option<string>)
    requires pid in s.calls && s.calls[pid].pc.Executing? && ThreadInv(s, pid, s.calls[pid])
    ensures var t := Execute(s, pid, result);
            && Grows(s, t) && OthersStand(s, t, pid) && ThreadInv(t, pid, t.calls[pid])
            && |t.executed| == |s.executed| + 1 && s.executed <= t.executed && t.executed[|s.executed|].pid == pid
            && EntryOk(t, t.executed[|s.executed|], 2)
            && t.journal == s.journal && t.owner == s.owner && t.decisions == s.decisions && t.finished == s.finished
  {
    var t := Execute(s, pid, result);
    assert t.executed[|s.executed|].pid == pid;
    GrowsAt(s, t, pid, t.calls[pid].pc);
    hide Grows, OthersStand;
  }

  lemma ExecuteMoves(s: State, pid: nat, result: Option<string>)
    requires Inv(s) && pid in s.calls && s.calls[pid].pc.Executing?
    ensures Moved(s, Execute(s, pid, result), pid)
  {
    About(s, pid);
    ExecuteKeeps(s, pid, result);
    hide Inv, Grows, OthersStand, ThreadInv, RecordOk, EntryOk, Execute, Moved;
    LogsMove(s, Execute(s, pid, result), pid);
  }

  lemma FinishKeeps(cfg: Config, s: State, pid: nat, first: string, second: Option<string>)
    requires pid in s.calls && s.calls[pid].pc == Finishing(first) && ThreadInv(s, pid, s.calls[pid])
    ensures var t := Finish(cfg, s, pid, first, second);
            && Grows(s, t) && OthersStand(s, t, pid) && ThreadInv(t, pid, t.calls[pid])
            && |t.finished| == |s.finished| + 1 && s.finished <= t.finished && t.finished[|s.finished|].pid == pid
            && EntryOk(t, t.finished[|s.finished|], 3)
            && t.journal == s.journal && t.owner == s.owner && t.decisions == s.decisions && t.executed == s.executed
  {
    var t := Finish(cfg, s, pid, first, second);
    GrowsAt(s, t, pid, t.calls[pid].pc);
    hide Grows, OthersStand;
  }

  lemma FinishMoves(cfg: Config, s: State, pid: nat, first: string, second: Option<string>)
    requires Inv(s) && pid in s.calls && s.calls[pid].pc == Finishing(first)
    ensures Moved(s, Finish(cfg, s, pid, first, second), pid)
  {
    About(s, pid);
    FinishKeeps(cfg, s, pid, first, second);
    hide Inv, Grows, OthersStand, ThreadInv, RecordOk, EntryOk, Finish, Moved;
    LogsMove(s, Finish(cfg, s, pid, first, second), pid);
  }

  lemma CompleteKeeps(s: State, pid: nat, payload: Payload, fault: Fault)
    requires pid in s.calls && s.calls[pid].pc == Completing(payload) && ThreadInv(s, pid, s.calls[pid])
    requires s.calls[pid].args.key in s.journal && RecordOk(s, s.calls[pid].args.key)
    requires s.owner.Keys == s.journal.Keys && fault != LostRequest
    ensures var t := CompleteStep(s, pid, payload, fault);
            && Grows(s, t) && OthersStand(s, t, pid) && ThreadInv(t, pid, t.calls[pid])
            && s.calls[pid].args.key in t.journal && RecordOk(t, s.calls[pid].args.key) && t.owner.Keys == t.journal.Keys
            && t.decisions == s.decisions && t.executed == s.executed && t.finished == s.finished
            && forall key :: key in t.journal && key != s.calls[pid].args.key ==>
                 key in s.journal && t.journal[key] == s.journal[key]
  {
    var t := CompleteStep(s, pid, payload, fault);
    assert s.journal[s.calls[pid].args.key].Claimed?;
    assert Grows(s, t) by { hide ThreadInv, RecordOk; }
    hide Grows;
    assert t.owner.Keys == t.journal.Keys;
  }

  lemma CompleteMoves(s: State, pid: nat, payload: Payload, fault: Fault)
    requires Inv(s) && pid in s.calls && s.calls[pid].pc == Completing(payload)
    ensures Moved(s, CompleteStep(s, pid, payload, fault), pid)
  {
    About(s, pid);
    OwnsItsKey(s, pid);
    hide Inv, Grows, OthersStand, ThreadInv, RecordOk, EntryOk, LogInv, ConsumedFor, Owns, CompleteStep;
    if fault == LostRequest {
      CompleteLost(s, pid, payload);
    } else {
      CompleteKeeps(s, pid, payload, fault);
      hide Moved;
      OneRecordMoves(s, CompleteStep(s, pid, payload, fault), pid);
    }
  }

  lemma OwnsItsKey(s: State, pid: nat)
    requires pid in s.calls && ThreadInv(s, pid, s.calls[pid]) && 1 <= Phase(s.calls[pid].pc) <= 3
    ensures s.calls[pid].args.key in s.journal
  {
  }

  lemma CompleteLost(s: State, pid: nat, payload: Payload)
    requires Inv(s) && pid in s.calls && s.calls[pid].pc == Completing(payload)
    ensures Moved(s, CompleteStep(s, pid, payload, LostRequest), pid)
  {
    hide Moved, Inv;
    Shifts(s, pid, Done(Failed));
  }

  lemma MovedGrows(s: State, t: State, pid: nat)
    requires Moved(s, t, pid)
    ensures Grows(s, t)
  {
  }

  lemma CrashMoves(s: State, pid: nat)
    requires Inv(s) && pid in s.calls && !s.calls[pid].pc.Done?
    ensures Moved(s, At(s, pid, Done(Crashed)), pid)
  {
    hide Moved, Inv;
    Shifts(s, pid, Done(Crashed));
  }

  lemma ExecKeepsInv(cfg: Config, s: State, l: Label)
    requires Inv(s)
    ensures Inv(Exec(cfg, s, l)) && Grows(s, Exec(cfg, s, l))
  {
    hide Inv, Moved, Advance, Grows;
    var t := Exec(cfg, s, l);
    if l.Begin? || l.Issue? || l.OtherConsume? {
      OthersKeepInv(cfg, s, l);
    } else if l.pid in s.calls && (l.Go? || !s.calls[l.pid].pc.Done?) {
      if l.Go? {
        AdvanceMoves(cfg, s, l.pid, l.w);
      } else {
        CrashMoves(s, l.pid);
      }
      MovesKeepInv(s, t, l.pid);
      MovedGrows(s, t, l.pid);
    } else {
      GrowsAround(s, s);
    }
  }

  lemma AdvanceMoves(cfg: Config, s: State, pid: nat, w: Weather)
    requires Inv(s) && pid in s.calls
    ensures Moved(s, Advance(cfg, s, pid, w), pid)
  {
    hide Moved;
    match s.calls[pid].pc
    case LookingUp =>
      var pc := Advance(cfg, s, pid, w).calls[pid].pc;
      assert ThreadInv(s, pid, s.calls[pid].(pc := pc));
      Shifts(s, pid, pc);
    case Consuming(issued) => ConsumeMoves(s, pid, issued, w);
    case Claiming => ClaimMoves(s, pid, w.fault);
    case Executing => ExecuteMoves(s, pid, w.result);
    case Finishing(first) => FinishMoves(cfg, s, pid, first, w.result);
    case Completing(payload) => CompleteMoves(s, pid, payload, w.fault);
    case Done(o) =>
      assert At(s, pid, Done(o)) == s by { assert s.calls[pid := s.calls[pid]] == s.calls; }
      Shifts(s, pid, Done(o));
  }

  /** The history others leave alone: only decisions, consumptions and newly begun calls come in. */
  lemma GrowsAround(s: State, t: State)
    requires t.journal == s.journal && t.owner == s.owner && t.executed == s.executed && t.finished == s.finished
    requires t.made == s.made && Extends(s.decisions, t.decisions) && Extends(s.consumed, t.consumed)
    requires Extends(s.calls, t.calls)
    ensures Grows(s, t)
  {
    hide Phase;
  }

  lemma OthersGrow(cfg: Config, s: State, l: Label)
    requires l.Begin? || l.Issue? || l.OtherConsume?
    requires forall id :: id in s.decisions ==> s.decisions[id].decisionId == id
    ensures var t := Exec(cfg, s, l);
            && Grows(s, t) && t.journal == s.journal && t.owner == s.owner && t.executed == s.executed
            && t.finished == s.finished && (forall id :: id in t.decisions ==> t.decisions[id].decisionId == id)
            && t.calls == if l.Begin? && l.pid !in s.calls then s.calls[l.pid := Thread(l.args, LookingUp)] else s.calls
  {
    hide G.ConsumeIssued, Issued, Advance, Grows;
    if l.OtherConsume? {
      ConsumptionExtends(s.consumed, Issued(s, l.decisionId), l.actionHash, l.executionRef, l.now, false);
    }
    GrowsAround(s, Exec(cfg, s, l));
  }

  lemma OthersKeepInv(cfg: Config, s: State, l: Label)
    requires Inv(s) && (l.Begin? || l.Issue? || l.OtherConsume?)
    ensures Inv(Exec(cfg, s, l)) && Grows(s, Exec(cfg, s, l))
  {
    OthersGrow(cfg, s, l);
    var t := Exec(cfg, s, l);
    var pid: nat := if l.Begin? then l.pid else 0;
    if pid in s.calls { About(s, pid); }
    hide Exec, Grows, RecordOk;
    assert s.owner.Keys == s.journal.Keys && OthersStand(s, t, pid);
    hide Inv, OthersStand, Owns, ConsumedFor, Moved;
    if pid in s.calls { ThreadSurvives(s, t, pid); }
    QuietMoves(s, t, pid);
    MovesKeepInv(s, t, pid);
  }

  lemma {:induction false} RunKeepsInv(cfg: Config, s: State, labels: seq<Label>)
    requires Inv(s)
    ensures Inv(Run(cfg, s, labels))
    decreases |labels|
  {
    hide Inv, Exec;
    if labels != [] {
      ExecKeepsInv(cfg, s, labels[0]);
      RunKeepsInv(cfg, Exec(cfg, s, labels[0]), labels[1..]);
    }
  }
}
