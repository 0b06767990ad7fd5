/**
 * Human approval (packages/policy-engine/src/local-provider.ts, packages/policy-engine/src/decision-store.ts): a
 * pending decision is superseded, at most once, by a new decision after policy is evaluated again.  Any number of
 * calls interleave, one step per `await`.
 */
module Approval {
  import opened Prelude
  import opened Decisions
  import P = Policy

  const DEFAULT_REQUEST_TTL_SECONDS := 900

  /** `request` and `moment` read what the policy needs of an action and of an instant; `dayOf` keys the spending. */
  datatype Config = Config(rules: P.Rules, requestTtlSeconds: Option<nat>, request: Action -> P.Request,
                           moment: int -> P.Moment, dayOf: (Action, int) -> string)

  /** What a decision rests on: an order to block, one evaluation at an instant and on a spending, or a human's answer
      in a window found open, with such an evaluation after it. */
  datatype Evidence =
    | Ordered
    | FirstEvaluated(evaluatedAt: int, spent: nat)
    | Reevaluated(granted: bool, openAt: int, evaluatedAt: int, spent: nat)

  datatype Issued = Issued(verdict: Verdict, action: Action, issuedAt: int, supersedes: Option<string>,
                           codes: seq<Reason>, evidence: Evidence, maker: nat)

  datatype Request =
    | Evaluate(action: Action)
    | IssueBlock(action: Action, codes: seq<Reason>)
    | Resolve(decisionId: string, granted: bool, replacement: Option<Action>)

  datatype Outcome = Made(id: string) | Rejected(reason: Reason) | Failed | Crashed

  /** What is about to be signed. */
  datatype Draft = Draft(verdict: Verdict, action: Action, supersedes: Option<string>, codes: seq<Reason>,
                         evidence: Evidence)

  datatype Pc =
    | Starting
    | Claiming(pending: Issued, action: Action, openAt: int)
    | Evaluating(pending: Issued, action: Action, openAt: int)
    | Signing(draft: Draft)
    | Saving(id: string, issued: Issued)
    | Done(outcome: Outcome)

  datatype Thread = Thread(request: Request, pc: Pc)

  /** `claimer` and `minter` are history: who claimed an approval, and who made an id. */
  datatype State = State(decisions: map<string, Issued>, claimed: set<string>, spent: map<string, nat>,
                         claimer: map<string, nat>, minter: map<string, nat>, calls: map<nat, Thread>)

  datatype Weather = Weather(now: int, fault: Fault, id: string)

  datatype Label =
    | Begin(pid: nat, request: Request)
    | Go(pid: nat, w: Weather)
    | Crash(pid: nat)
    | Spend(day: string, amount: nat)

  function At(s: State, pid: nat, pc: Pc): (t: State)
    requires pid in s.calls
    ensures pid in t.calls && t.calls[pid].request == s.calls[pid].request
  {
    s.(calls := s.calls[pid := s.calls[pid].(pc := pc)])
  }

  // ----- the provider's rules

  /** The replacement may differ in its extensions only. */
  predicate SameAction(a: Action, b: Action) {
    && a.principalId == b.principalId && a.agentId == b.agentId && a.rail == b.rail
    && a.transaction == b.transaction && a.reference == b.reference
  }

  function ClosesAt(cfg: Config, issuedAt: int): int {
    issuedAt + (if cfg.requestTtlSeconds.Some? then cfg.requestTtlSeconds.value else DEFAULT_REQUEST_TTL_SECONDS) * 1000
  }

  function SpentOn(s: State, day: string): nat {
    if day in s.spent then s.spent[day] else 0
  }

  function Evaluated(cfg: Config, action: Action, now: int, spent: nat): P.Evaluation {
    P.EvaluatePolicy(cfg.rules, cfg.request(action), cfg.moment(now), spent)
  }

  function WithoutRequired(codes: seq<Reason>): seq<Reason>
    decreases |codes|
  {
    if codes == [] then []
    else (if codes[0] == HumanApprovalRequired then [] else [codes[0]]) + WithoutRequired(codes[1..])
  }

  /** The answer of a human together with current policy. */
  function Resolved(pendingId: string, action: Action, evaluation: P.Evaluation, evidence: Evidence): Draft
    requires evidence.Reevaluated?
  {
    if !evidence.granted then Draft(Block, action, Some(pendingId), [HumanApprovalRefused], evidence)
    else if evaluation.verdict == Block then Draft(Block, action, Some(pendingId), evaluation.codes, evidence)
    else Draft(Allow, action, Some(pendingId), WithoutRequired(evaluation.codes) + [HumanApprovalGranted], evidence)
  }

  // ----- steps

  /** Reads the pending decision and checks it, the replacement action and the window. */
  function Open(cfg: Config, s: State, pid: nat, w: Weather): Pc
    requires pid in s.calls && s.calls[pid].request.Resolve?
  {
    var r := s.calls[pid].request;
    if w.fault != NoFault then Done(Failed)
    else if r.decisionId !in s.decisions || s.decisions[r.decisionId].verdict != RequireApproval
      then Done(Rejected(ApprovalNotPending))
    else
      var pending := s.decisions[r.decisionId];
      var action := if r.replacement.Some? then r.replacement.value else pending.action;
      if r.replacement.Some? && !SameAction(action, pending.action) then Done(Rejected(ActionHashMismatch))
      else if w.now >= ClosesAt(cfg, pending.issuedAt) then Done(Rejected(DecisionExpired))
      else Claiming(pending, action, w.now)
  }

  function Start(cfg: Config, s: State, pid: nat, w: Weather): (t: State)
    requires pid in s.calls
    ensures pid in t.calls && t.calls[pid].request == s.calls[pid].request
  {
    match s.calls[pid].request
    case Evaluate(action) =>
      var spent := SpentOn(s, cfg.dayOf(action, w.now));
      var e := Evaluated(cfg, action, w.now, spent);
      At(s, pid, if w.fault != NoFault then Done(Failed)
                 else Signing(Draft(e.verdict, action, None, e.codes, FirstEvaluated(w.now, spent))))
    case IssueBlock(action, codes) =>
      At(s, pid, if codes == [] then Done(Failed) else Signing(Draft(Block, action, None, codes, Ordered)))
    case Resolve(_, _, _) => At(s, pid, Open(cfg, s, pid, w))
  }

  /** A compare-and-set. */
  function Claim(s: State, pid: nat, id: string, fault: Fault, next: Pc): (t: State)
    requires pid in s.calls
    ensures pid in t.calls && t.calls[pid].request == s.calls[pid].request
  {
    if fault == LostRequest then At(s, pid, Done(Failed))
    else if id in s.claimed || id !in s.decisions then
      At(s, pid, if fault == NoFault then Done(Rejected(ApprovalAlreadyResolved)) else Done(Failed))
    else
      At(s.(claimed := s.claimed + {id}, claimer := s.claimer[id := pid]), pid,
         if fault == NoFault then next else Done(Failed))
  }

  function Mint(s: State, pid: nat, draft: Draft, w: Weather): (t: State)
    requires pid in s.calls
    ensures pid in t.calls && t.calls[pid].request == s.calls[pid].request
  {
    if w.id in s.minter then At(s, pid, Done(Failed))
    else
      var issued := Issued(draft.verdict, draft.action, w.now, draft.supersedes, draft.codes, draft.evidence, pid);
      At(s.(minter := s.minter[w.id := pid]), pid, Saving(w.id, issued))
  }

  function Save(s: State, pid: nat, id: string, issued: Issued, fault: Fault): (t: State)
    requires pid in s.calls
    ensures pid in t.calls && t.calls[pid].request == s.calls[pid].request
  {
    if fault == LostRequest then At(s, pid, Done(Failed))
    else At(s.(decisions := s.decisions[id := issued]), pid, Done(if fault == NoFault then Made(id) else Failed))
  }

  function Reevaluate(cfg: Config, s: State, pid: nat, w: Weather): (t: State)
    requires pid in s.calls && s.calls[pid].pc.Evaluating?
    ensures pid in t.calls && t.calls[pid].request == s.calls[pid].request
  {
    var pc := s.calls[pid].pc;
    if w.fault != NoFault || !s.calls[pid].request.Resolve? then At(s, pid, Done(Failed))
    else
      var r := s.calls[pid].request;
      var spent := SpentOn(s, cfg.dayOf(pc.action, w.now));
      At(s, pid, Signing(Resolved(r.decisionId, pc.action, Evaluated(cfg, pc.action, w.now, spent),
                                  Reevaluated(r.granted, pc.openAt, w.now, spent))))
  }

  function Advance(cfg: Config, s: State, pid: nat, w: Weather): (t: State)
    requires pid in s.calls
    ensures pid in t.calls && t.calls[pid].request == s.calls[pid].request
  {
    match s.calls[pid].pc
    case Starting => Start(cfg, s, pid, w)
    case Claiming(pending, action, openAt) =>
      if !s.calls[pid].request.Resolve? then At(s, pid, Done(Failed))
      else Claim(s, pid, s.calls[pid].request.decisionId, w.fault, Evaluating(pending, action, openAt))
    case Evaluating(_, _, _) => Reevaluate(cfg, s, pid, w)
    case Signing(draft) => Mint(s, pid, draft, w)
    case Saving(id, issued) => Save(s, pid, id, issued, w.fault)
    case Done(_) => s
  }

  function Exec(cfg: Config, s: State, l: Label): State {
    match l
    case Begin(pid, request) => if pid in s.calls then s else s.(calls := s.calls[pid := Thread(request, Starting)])
    case Go(pid, w) => if pid in s.calls then Advance(cfg, s, pid, w) else s
    case Crash(pid) => if pid in s.calls && !s.calls[pid].pc.Done? then At(s, pid, Done(Crashed)) else s
    case Spend(day, amount) => s.(spent := s.spent[day := SpentOn(s, day) + amount])
  }

  function Run(cfg: Config, s: State, labels: seq<Label>): State
    decreases |labels|
  {
    if labels == [] then s else Run(cfg, Exec(cfg, s, labels[0]), labels[1..])
  }

  const INITIAL := State(map[], {}, map[], map[], map[], map[])

  // ----- the invariant

  predicate Pending(s: State, id: string) {
    id in s.decisions && s.decisions[id].verdict == RequireApproval
  }

  /** The action that an answer decides on. */
  function Decided(request: Request, pending: Issued): Action
    requires request.Resolve?
  {
    if request.replacement.Some? then request.replacement.value else pending.action
  }

  /** Why a superseding decision, or its draft, is what it is. */
  predicate Justified(cfg: Config, s: State, request: Request, verdict: Verdict, action: Action, codes: seq<Reason>,
                      evidence: Evidence)
    requires request.Resolve?
  {
    && Pending(s, request.decisionId) && action == Decided(request, s.decisions[request.decisionId])
    && SameAction(action, s.decisions[request.decisionId].action)
    && evidence.Reevaluated? && evidence.openAt < ClosesAt(cfg, s.decisions[request.decisionId].issuedAt)
    && evidence.granted == request.granted
    && var e := Evaluated(cfg, action, evidence.evaluatedAt, evidence.spent);
       && verdict != RequireApproval && (verdict == Allow <==> request.granted && e.verdict != Block)
       && codes == if !request.granted then [HumanApprovalRefused] else if e.verdict == Block then e.codes
                   else WithoutRequired(e.codes) + [HumanApprovalGranted]
  }

  predicate Claimed(s: State, pid: nat, request: Request) {
    request.Resolve? && request.decisionId in s.claimer && s.claimer[request.decisionId] == pid
  }

  /** A decision, or its draft, is what its request and its evidence make it. */
  predicate MadeFor(cfg: Config, s: State, pid: nat, request: Request, verdict: Verdict, action: Action,
                    supersedes: Option<string>, codes: seq<Reason>, evidence: Evidence) {
    match request
    case Evaluate(asked) =>
      && supersedes.None? && action == asked && evidence.FirstEvaluated?
      && var e := Evaluated(cfg, action, evidence.evaluatedAt, evidence.spent); verdict == e.verdict && codes == e.codes
    case IssueBlock(asked, given) =>
      supersedes.None? && action == asked && evidence.Ordered? && verdict == Block && codes == given && given != []
    case Resolve(decisionId, _, _) =>
      && supersedes == Some(decisionId) && Claimed(s, pid, request)
      && Justified(cfg, s, request, verdict, action, codes, evidence)
  }

  predicate DecisionOk(cfg: Config, s: State, id: string)
    requires id in s.decisions
  {
    var d := s.decisions[id];
    && id in s.minter && s.minter[id] == d.maker
    && d.maker in s.calls && s.calls[d.maker].pc.Done?
    && MadeFor(cfg, s, d.maker, s.calls[d.maker].request, d.verdict, d.action, d.supersedes, d.codes, d.evidence)
  }

  predicate OpenFor(cfg: Config, s: State, request: Request, pending: Issued, action: Action, openAt: int) {
    && request.Resolve? && Pending(s, request.decisionId) && s.decisions[request.decisionId] == pending
    && action == Decided(request, pending)
    && SameAction(action, pending.action) && openAt < ClosesAt(cfg, pending.issuedAt)
  }

  predicate ThreadInv(cfg: Config, s: State, pid: nat, t: Thread) {
    match t.pc
    case Starting => true
    case Claiming(pending, action, openAt) => OpenFor(cfg, s, t.request, pending, action, openAt)
    case Evaluating(pending, action, openAt) =>
      OpenFor(cfg, s, t.request, pending, action, openAt) && Claimed(s, pid, t.request)
    case Signing(d) => MadeFor(cfg, s, pid, t.request, d.verdict, d.action, d.supersedes, d.codes, d.evidence)
    case Saving(id, d) =>
      && MadeFor(cfg, s, pid, t.request, d.verdict, d.action, d.supersedes, d.codes, d.evidence)
      && id in s.minter && s.minter[id] == pid && d.maker == pid
    case Done(_) => true
  }

  ghost predicate Inv(cfg: Config, s: State) {
    && s.claimer.Keys == s.claimed
    && (forall id :: id in s.decisions ==> DecisionOk(cfg, s, id))
    && (forall a, b :: a in s.decisions && b in s.decisions && a != b ==> s.decisions[a].maker != s.decisions[b].maker)
    && (forall pid :: pid in s.calls ==> ThreadInv(cfg, s, pid, s.calls[pid]))
  }

  // ----- nothing is taken back

  ghost predicate Extends<K, V>(a: map<K, V>, b: map<K, V>) {
    forall k :: k in a ==> k in b && a[k] == b[k]
  }

  ghost predicate Grows(s: State, t: State) {
    && Extends(s.decisions, t.decisions) && Extends(s.claimer, t.claimer) && Extends(s.minter, t.minter)
    && (forall p :: p in s.calls ==> p in t.calls && t.calls[p].request == s.calls[p].request
                                     && (s.calls[p].pc.Done? ==> t.calls[p].pc.Done?))
  }

  lemma ThreadSurvives(cfg: Config, s: State, t: State, pid: nat, u: Thread)
    requires Grows(s, t) && ThreadInv(cfg, s, pid, u)
    ensures ThreadInv(cfg, t, pid, u)
  {
    hide Evaluated, SameAction, ClosesAt;
  }

  lemma DecisionSurvives(cfg: Config, s: State, t: State, id: string)
    requires Grows(s, t) && id in s.decisions && id in t.decisions && DecisionOk(cfg, s, id)
    ensures DecisionOk(cfg, t, id)
  {
    hide Evaluated, SameAction, ClosesAt;
  }

  /** A new decision of call `pid`, which had made none. */
  ghost predicate DecisionAdded(cfg: Config, s: State, t: State, pid: nat) {
    exists id :: && id !in s.decisions && id in t.decisions && t.decisions.Keys == s.decisions.Keys + {id}
                 && t.decisions[id].maker == pid && DecisionOk(cfg, t, id)
  }

  ghost predicate Moved(cfg: Config, s: State, t: State, pid: nat) {
    && Grows(s, t) && t.claimer.Keys == t.claimed
    && (forall p :: p in t.calls && p != pid ==> p in s.calls && t.calls[p] == s.calls[p])
    && (pid in t.calls ==> ThreadInv(cfg, t, pid, t.calls[pid]))
    && (t.decisions == s.decisions
        || (pid in s.calls && !s.calls[pid].pc.Done? && DecisionAdded(cfg, s, t, pid)))
  }

  lemma MovesKeepInv(cfg: Config, s: State, t: State, pid: nat)
    requires Inv(cfg, s) && Moved(cfg, s, t, pid)
    ensures Inv(cfg, t)
  {
    hide Evaluated, SameAction, ClosesAt, Justified, MadeFor, OpenFor;
    forall id | id in t.decisions ensures DecisionOk(cfg, t, id) {
      if id in s.decisions { DecisionSurvives(cfg, s, t, id); }
    }
    forall a, b | a in t.decisions && b in t.decisions && a != b ensures t.decisions[a].maker != t.decisions[b].maker {
      assert a in s.decisions ==> DecisionOk(cfg, s, a);
      assert b in s.decisions ==> DecisionOk(cfg, s, b);
    }
    hide DecisionOk, DecisionAdded;
    forall p | p in t.calls ensures ThreadInv(cfg, t, p, t.calls[p]) {
      if p != pid { ThreadSurvives(cfg, s, t, p, s.calls[p]); }
    }
  }

  // ----- each step moves so

  lemma Shifts(cfg: Config, s: State, pid: nat, pc: Pc)
    requires s.claimer.Keys == s.claimed && pid in s.calls && (s.calls[pid].pc.Done? ==> pc.Done?)
    requires ThreadInv(cfg, s, pid, s.calls[pid].(pc := pc))
    ensures Moved(cfg, s, At(s, pid, pc), pid)
  {
    hide Justified, OpenFor, DecisionAdded, MadeFor;
    ThreadSurvives(cfg, s, At(s, pid, pc), pid, s.calls[pid].(pc := pc));
  }

  lemma StartMoves(cfg: Config, s: State, pid: nat, w: Weather)
    requires s.claimer.Keys == s.claimed && pid in s.calls && s.calls[pid].pc.Starting?
    ensures Moved(cfg, s, Start(cfg, s, pid, w), pid)
  {
    hide Moved, Evaluated, ClosesAt;
    var pc := Start(cfg, s, pid, w).calls[pid].pc;
    assert Start(cfg, s, pid, w) == At(s, pid, pc);
    Shifts(cfg, s, pid, pc);
  }

  lemma ClaimMoves(cfg: Config, s: State, pid: nat, pending: Issued, action: Action, openAt: int, fault: Fault)
    requires s.claimer.Keys == s.claimed && pid in s.calls
    requires s.calls[pid].pc == Claiming(pending, action, openAt) && ThreadInv(cfg, s, pid, s.calls[pid])
    ensures Moved(cfg, s, Claim(s, pid, s.calls[pid].request.decisionId, fault, Evaluating(pending, action, openAt)), pid)
  {
    var id := s.calls[pid].request.decisionId;
    var t := Claim(s, pid, id, fault, Evaluating(pending, action, openAt));
    if fault == LostRequest || id in s.claimed {
      Shifts(cfg, s, pid, t.calls[pid].pc);
    } else {
      assert t.claimer.Keys == t.claimed;
      hide Justified, DecisionAdded, Evaluated, SameAction, ClosesAt;
    }
  }

  lemma ReevaluateMoves(cfg: Config, s: State, pid: nat, w: Weather)
    requires s.claimer.Keys == s.claimed && pid in s.calls && s.calls[pid].pc.Evaluating?
    requires ThreadInv(cfg, s, pid, s.calls[pid])
    ensures Moved(cfg, s, Reevaluate(cfg, s, pid, w), pid)
  {
    hide Moved, Evaluated, ClosesAt, SameAction, WithoutRequired;
    Shifts(cfg, s, pid, Reevaluate(cfg, s, pid, w).calls[pid].pc);
  }

  lemma MintMoves(cfg: Config, s: State, pid: nat, draft: Draft, w: Weather)
    requires s.claimer.Keys == s.claimed && pid in s.calls && s.calls[pid].pc == Signing(draft)
    requires ThreadInv(cfg, s, pid, s.calls[pid])
    ensures Moved(cfg, s, Mint(s, pid, draft, w), pid)
  {
    hide DecisionAdded, Evaluated, SameAction, ClosesAt, WithoutRequired;
    if w.id in s.minter {
      Shifts(cfg, s, pid, Done(Failed));
    }
  }

  /** What a call that is about to save knows: its id is its own and unsaved. */
  lemma SavingIsNew(cfg: Config, s: State, pid: nat, id: string, issued: Issued)
    requires Inv(cfg, s) && pid in s.calls && s.calls[pid].pc == Saving(id, issued)
    ensures ThreadInv(cfg, s, pid, s.calls[pid]) && id !in s.decisions && s.claimer.Keys == s.claimed
  {
    assert ThreadInv(cfg, s, pid, s.calls[pid]);
    assert id in s.decisions ==> DecisionOk(cfg, s, id);
  }

  lemma SaveMoves(cfg: Config, s: State, pid: nat, id: string, issued: Issued, fault: Fault)
    requires Inv(cfg, s) && pid in s.calls && s.calls[pid].pc == Saving(id, issued)
    ensures Moved(cfg, s, Save(s, pid, id, issued, fault), pid)
  {
    SavingIsNew(cfg, s, pid, id, issued);
    hide Inv;
    if fault == LostRequest {
      Shifts(cfg, s, pid, Done(Failed));
    } else {
      SaveGrows(s, pid, id, issued, fault);
      SaveIsFine(cfg, s, pid, id, issued, fault);
      hide DecisionOk, DecisionAdded, ThreadInv, Grows;
    }
  }

  lemma SaveGrows(s: State, pid: nat, id: string, issued: Issued, fault: Fault)
    requires pid in s.calls && id !in s.decisions && s.calls[pid].pc.Saving?
    ensures Grows(s, Save(s, pid, id, issued, fault))
  {
  }

  lemma SaveIsFine(cfg: Config, s: State, pid: nat, id: string, issued: Issued, fault: Fault)
    requires pid in s.calls && s.calls[pid].pc == Saving(id, issued) && ThreadInv(cfg, s, pid, s.calls[pid])
    requires id !in s.decisions && fault != LostRequest
    ensures var t := Save(s, pid, id, issued, fault);
            ThreadInv(cfg, t, pid, t.calls[pid]) && DecisionAdded(cfg, s, t, pid)
  {
    hide Evaluated, SameAction, ClosesAt;
    var t := Save(s, pid, id, issued, fault);
    assert t.decisions.Keys == s.decisions.Keys + {id};
    assert DecisionOk(cfg, t, id);
  }

  lemma ExecKeepsInv(cfg: Config, s: State, l: Label)
    requires Inv(cfg, s)
    ensures Inv(cfg, Exec(cfg, s, l)) && Grows(s, Exec(cfg, s, l))
  {
    var t := Exec(cfg, s, l);
    hide Moved, DecisionOk, ThreadInv;
    match l
    case Go(pid, w) =>
      if pid in s.calls {
        AdvanceMoves(cfg, s, pid, w);
        MovesKeepInv(cfg, s, t, pid);
        MovedGrows(cfg, s, t, pid);
      }
    case Crash(pid) =>
      if pid in s.calls && !s.calls[pid].pc.Done? {
        EndIsFine(cfg, s, pid, Crashed);
        Shifts(cfg, s, pid, Done(Crashed));
        MovesKeepInv(cfg, s, t, pid);
        MovedGrows(cfg, s, t, pid);
      }
    case _ => OthersKeepInv(cfg, s, l);
  }

  lemma MovedGrows(cfg: Config, s: State, t: State, pid: nat)
    requires Moved(cfg, s, t, pid)
    ensures Grows(s, t)
  {
  }

  lemma EndIsFine(cfg: Config, s: State, pid: nat, o: Outcome)
    requires pid in s.calls
    ensures ThreadInv(cfg, s, pid, s.calls[pid].(pc := Done(o)))
  {
  }

  lemma AdvanceMoves(cfg: Config, s: State, pid: nat, w: Weather)
    requires Inv(cfg, s) && pid in s.calls
    ensures Moved(cfg, s, Advance(cfg, s, pid, w), pid)
  {
    assert ThreadInv(cfg, s, pid, s.calls[pid]);
    hide Moved, Start, Claim, Reevaluate, Mint, Save, DecisionOk, Justified;
    match s.calls[pid].pc
    case Starting => StartMoves(cfg, s, pid, w);
    case Claiming(pending, action, openAt) => ClaimMoves(cfg, s, pid, pending, action, openAt, w.fault);
    case Evaluating(_, _, _) => ReevaluateMoves(cfg, s, pid, w);
    case Signing(draft) => MintMoves(cfg, s, pid, draft, w);
    case Saving(id, issued) => SaveMoves(cfg, s, pid, id, issued, w.fault);
    case Done(o) =>
      assert s.calls[pid := s.calls[pid]] == s.calls;
      Shifts(cfg, s, pid, Done(o));
  }

  lemma OthersKeepInv(cfg: Config, s: State, l: Label)
    requires Inv(cfg, s) && (l.Begin? || l.Spend?)
    ensures Inv(cfg, Exec(cfg, s, l)) && Grows(s, Exec(cfg, s, l))
  {
    var t := Exec(cfg, s, l);
    hide Justified, MadeFor, OpenFor;
    assert Grows(s, t) by { hide ThreadInv, DecisionOk; }
    forall id | id in t.decisions ensures DecisionOk(cfg, t, id) {
      DecisionSurvives(cfg, s, t, id);
    }
    hide DecisionOk;
    forall p | p in t.calls ensures ThreadInv(cfg, t, p, t.calls[p]) {
      if p in s.calls { ThreadSurvives(cfg, s, t, p, s.calls[p]); }
    }
  }

  lemma {:induction false} RunKeepsInv(cfg: Config, s: State, labels: seq<Label>)
    requires Inv(cfg, s)
    ensures Inv(cfg, Run(cfg, s, labels)) && Grows(s, Run(cfg, s, labels))
    decreases |labels|
  {
    hide Inv, Exec;
    if labels != [] {
      ExecKeepsInv(cfg, s, labels[0]);
      RunKeepsInv(cfg, Exec(cfg, s, labels[0]), labels[1..]);
    }
  }

  // ----- safety of every run

  /** A superseding decision supersedes a pending one that supersedes nothing, and is itself never pending, so chains
      have length one; each pending decision is superseded at most once. */
  lemma SupersededOnce(cfg: Config, labels: seq<Label>, child: string)
    requires var s := Run(cfg, INITIAL, labels); child in s.decisions && s.decisions[child].supersedes.Some?
    ensures var s := Run(cfg, INITIAL, labels);
            var parent := s.decisions[child].supersedes.value;
            && Pending(s, parent) && s.decisions[parent].supersedes.None?
            && s.decisions[child].verdict != RequireApproval
            && (forall other :: other in s.decisions && s.decisions[other].supersedes == Some(parent) ==> other == child)
  {
    RunKeepsInv(cfg, INITIAL, labels);
    var s := Run(cfg, INITIAL, labels);
    var parent := s.decisions[child].supersedes.value;
    assert DecisionOk(cfg, s, child) && DecisionOk(cfg, s, parent);
    forall other | other in s.decisions && s.decisions[other].supersedes == Some(parent) ensures other == child {
      assert DecisionOk(cfg, s, other);
    }
  }

  /** Decisions are never altered; a pending one stays pending, so it can never be consumed. */
  lemma DecisionsAreImmutable(cfg: Config, labels: seq<Label>, more: seq<Label>, id: string)
    requires id in Run(cfg, INITIAL, labels).decisions
    ensures var s := Run(cfg, INITIAL, labels);
            var t := Run(cfg, s, more);
            && id in t.decisions && t.decisions[id] == s.decisions[id]
            && (Pending(s, id) ==> t.decisions[id].verdict != Allow)
  {
    RunKeepsInv(cfg, INITIAL, labels);
    RunKeepsInv(cfg, Run(cfg, INITIAL, labels), more);
  }

  lemma {:induction false} WithoutRequiredKeeps(codes: seq<Reason>)
    ensures forall code :: code in WithoutRequired(codes) <==> code in codes && code != HumanApprovalRequired
    decreases |codes|
  {
    if codes != [] {
      WithoutRequiredKeeps(codes[1..]);
      assert codes == [codes[0]] + codes[1..];
    }
  }

  /** What a decision of a call that has ended rests on. */
  lemma MakerKnows(cfg: Config, labels: seq<Label>, id: string)
    requires id in Run(cfg, INITIAL, labels).decisions
    ensures var s := Run(cfg, INITIAL, labels);
            var d := s.decisions[id];
            && d.maker in s.calls
            && MadeFor(cfg, s, d.maker, s.calls[d.maker].request, d.verdict, d.action, d.supersedes, d.codes, d.evidence)
  {
    hide MadeFor, Run, Exec;
    RunKeepsInv(cfg, INITIAL, labels);
    assert DecisionOk(cfg, Run(cfg, INITIAL, labels), id);
  }

  /** A superseding decision allows exactly when a grant came and policy, evaluated again after it, did not block; the
      window was open, and principal, agent, rail, transaction and reference are those of the request. A refusal gives
      its own code; a grant drops the code that asked for approval and adds its own. */
  lemma AllowedOnlyWhenGranted(cfg: Config, labels: seq<Label>, child: string)
    requires var s := Run(cfg, INITIAL, labels); child in s.decisions && s.decisions[child].supersedes.Some?
    ensures var s := Run(cfg, INITIAL, labels);
            var d := s.decisions[child];
            && Pending(s, d.supersedes.value) && d.evidence.Reevaluated?
            && d.maker in s.calls && s.calls[d.maker].request.Resolve?
            && d.evidence.granted == s.calls[d.maker].request.granted
            && (d.verdict == Allow <==>
                  d.evidence.granted
                  && P.Permitted(cfg.rules, cfg.request(d.action), cfg.moment(d.evidence.evaluatedAt), d.evidence.spent))
            && (!d.evidence.granted ==> d.codes == [HumanApprovalRefused])
            && (d.verdict == Allow ==> HumanApprovalGranted in d.codes && HumanApprovalRequired !in d.codes)
    ensures var s := Run(cfg, INITIAL, labels);
            var d, parent := s.decisions[child], s.decisions[s.decisions[child].supersedes.value];
            var ttl := if cfg.requestTtlSeconds.Some? then cfg.requestTtlSeconds.value else 900;
            && d.action.(extensions := parent.action.extensions) == parent.action
            && d.evidence.openAt < parent.issuedAt + ttl * 1000
  {
    hide P.EvaluatePolicy, P.Permitted, Run, Exec;
    var s := Run(cfg, INITIAL, labels);
    var d := s.decisions[child];
    MakerKnows(cfg, labels, child);
    if d.evidence.Reevaluated? {
      P.NotBlockedExactlyWhen(cfg.rules, cfg.request(d.action), cfg.moment(d.evidence.evaluatedAt), d.evidence.spent);
      WithoutRequiredKeeps(Evaluated(cfg, d.action, d.evidence.evaluatedAt, d.evidence.spent).codes);
    }
    hide WithoutRequired;
  }

  /** What policy says of an action at an instant, after a spending. */
  predicate Follows(cfg: Config, verdict: Verdict, action: Action, at: int, spent: nat) {
    var request := cfg.request(action);
    var permitted := P.Permitted(cfg.rules, request, cfg.moment(at), spent);
    && (verdict == Allow <==> permitted && request.amount <= cfg.rules.humanAbove)
    && (verdict == RequireApproval <==> permitted && request.amount > cfg.rules.humanAbove)
    && (verdict == Block <==> !permitted)
  }

  lemma VerdictFollows(cfg: Config, action: Action, at: int, spent: nat)
    ensures Follows(cfg, Evaluated(cfg, action, at, spent).verdict, action, at, spent)
  {
    hide P.EvaluatePolicy, P.Permitted;
    P.NotBlockedExactlyWhen(cfg.rules, cfg.request(action), cfg.moment(at), spent);
  }

  /** Over every run each decision is of the call that made it. An evaluation decides on its own action and supersedes
      nothing: it allows exactly when every rule permits the amount and it is at most the threshold, asks for approval
      exactly when they permit it above, and blocks otherwise. A block that was ordered blocks its own action with the
      codes given, at least one. Only an answer supersedes, and it decides on the action that it names, or on that of
      the decision it answers. */
  lemma DecisionsFollowTheirRequests(cfg: Config, labels: seq<Label>, id: string)
    requires id in Run(cfg, INITIAL, labels).decisions
    ensures var s := Run(cfg, INITIAL, labels);
            var d := s.decisions[id];
            && d.maker in s.calls
            && match s.calls[d.maker].request
               case Evaluate(action) =>
                 && d.action == action && d.supersedes == None && d.evidence.FirstEvaluated?
                 && Follows(cfg, d.verdict, action, d.evidence.evaluatedAt, d.evidence.spent)
               case IssueBlock(action, codes) =>
                 d.action == action && d.supersedes == None && d.verdict == Block && d.codes == codes && codes != []
               case Resolve(decisionId, _, replacement) =>
                 && d.supersedes == Some(decisionId) && Pending(s, decisionId)
                 && d.action == if replacement.Some? then replacement.value else s.decisions[decisionId].action
  {
    hide Run, Exec, Evaluated, Follows, SameAction, ClosesAt;
    MakerKnows(cfg, labels, id);
    var d := Run(cfg, INITIAL, labels).decisions[id];
    if d.evidence.FirstEvaluated? { VerdictFollows(cfg, d.action, d.evidence.evaluatedAt, d.evidence.spent); }
  }

  // ----- what was evaluated on is what was there

  /** A move of the call at that instant, in a state with that spending. */
  ghost predicate Grounded(cfg: Config, labels: seq<Label>, pid: nat, action: Action, at: int, spent: nat) {
    exists k :: 0 <= k < |labels| && GroundedAt(cfg, labels, k, pid, action, at, spent)
  }

  predicate GroundedAt(cfg: Config, labels: seq<Label>, k: nat, pid: nat, action: Action, at: int, spent: nat) {
    && k < |labels| && labels[k].Go? && labels[k].pid == pid && labels[k].w.now == at
    && spent == SpentOn(Run(cfg, INITIAL, labels[..k]), cfg.dayOf(action, at))
  }

  ghost predicate EvidenceGrounded(cfg: Config, labels: seq<Label>, pid: nat, action: Action, evidence: Evidence) {
    !evidence.Ordered? ==> Grounded(cfg, labels, pid, action, evidence.evaluatedAt, evidence.spent)
  }

  ghost predicate AllGrounded(cfg: Config, labels: seq<Label>, s: State) {
    && (forall id :: id in s.decisions ==>
          EvidenceGrounded(cfg, labels, s.decisions[id].maker, s.decisions[id].action, s.decisions[id].evidence))
    && (forall pid :: pid in s.calls ==> PcGrounded(cfg, labels, pid, s.calls[pid].pc))
  }

  ghost predicate PcGrounded(cfg: Config, labels: seq<Label>, pid: nat, pc: Pc) {
    match pc
    case Signing(draft) => EvidenceGrounded(cfg, labels, pid, draft.action, draft.evidence)
    case Saving(_, issued) => issued.maker == pid && EvidenceGrounded(cfg, labels, pid, issued.action, issued.evidence)
    case _ => true
  }

  lemma GroundedStill(cfg: Config, labels: seq<Label>, l: Label, pid: nat, action: Action, evidence: Evidence)
    requires EvidenceGrounded(cfg, labels, pid, action, evidence)
    ensures EvidenceGrounded(cfg, labels + [l], pid, action, evidence)
  {
    hide Run;
    if !evidence.Ordered? {
      var k :| 0 <= k < |labels| && GroundedAt(cfg, labels, k, pid, action, evidence.evaluatedAt, evidence.spent);
      assert (labels + [l])[..k] == labels[..k];
      assert GroundedAt(cfg, labels + [l], k, pid, action, evidence.evaluatedAt, evidence.spent);
    }
  }

  lemma GroundedNow(cfg: Config, labels: seq<Label>, l: Label, action: Action, spent: nat)
    requires l.Go? && spent == SpentOn(Run(cfg, INITIAL, labels), cfg.dayOf(action, l.w.now))
    ensures Grounded(cfg, labels + [l], l.pid, action, l.w.now, spent)
  {
    hide Run;
    assert (labels + [l])[..|labels|] == labels;
    assert GroundedAt(cfg, labels + [l], |labels|, l.pid, action, l.w.now, spent);
  }

  /** What a move of the call does to its drafts: they are those it had, or evaluated now. */
  predicate DraftsMoved(cfg: Config, s: State, t: State, pid: nat, w: Weather)
    requires pid in s.calls && pid in t.calls
  {
    && t.calls == s.calls[pid := t.calls[pid]]
    && (t.calls[pid].pc.Signing? ==>
          var d := t.calls[pid].pc.draft;
          d.evidence.Ordered? || (d.evidence.evaluatedAt == w.now
                                  && d.evidence.spent == SpentOn(s, cfg.dayOf(d.action, w.now))))
    && (t.calls[pid].pc.Saving? ==>
          && s.calls[pid].pc.Signing? && t.calls[pid].pc.issued.maker == pid
          && t.calls[pid].pc.issued.action == s.calls[pid].pc.draft.action
          && t.calls[pid].pc.issued.evidence == s.calls[pid].pc.draft.evidence)
    && (t.decisions == s.decisions
        || (s.calls[pid].pc.Saving? && t.decisions == s.decisions[s.calls[pid].pc.id := s.calls[pid].pc.issued]))
  }

  lemma EvaluatedDrafts(cfg: Config, s: State, pid: nat, w: Weather)
    requires pid in s.calls
    ensures DraftsMoved(cfg, s, Start(cfg, s, pid, w), pid, w)
    ensures s.calls[pid].pc.Evaluating? ==> DraftsMoved(cfg, s, Reevaluate(cfg, s, pid, w), pid, w)
  {
    hide Evaluated, SameAction, ClosesAt, WithoutRequired;
  }

  lemma CarriedDrafts(cfg: Config, s: State, pid: nat, w: Weather)
    requires pid in s.calls
    ensures s.calls[pid].pc.Claiming? && s.calls[pid].request.Resolve? ==>
              var pc := s.calls[pid].pc;
              DraftsMoved(cfg, s, Claim(s, pid, s.calls[pid].request.decisionId, w.fault,
                                        Evaluating(pc.pending, pc.action, pc.openAt)), pid, w)
    ensures s.calls[pid].pc.Signing? ==> DraftsMoved(cfg, s, Mint(s, pid, s.calls[pid].pc.draft, w), pid, w)
    ensures s.calls[pid].pc.Saving? ==>
              DraftsMoved(cfg, s, Save(s, pid, s.calls[pid].pc.id, s.calls[pid].pc.issued, w.fault), pid, w)
  {
  }

  lemma DraftsMove(cfg: Config, s: State, pid: nat, w: Weather)
    requires pid in s.calls
    ensures DraftsMoved(cfg, s, Advance(cfg, s, pid, w), pid, w)
  {
    hide Start, Reevaluate, Claim, Mint, Save, DraftsMoved;
    EvaluatedDrafts(cfg, s, pid, w);
    CarriedDrafts(cfg, s, pid, w);
    if s.calls[pid].pc.Done? || (s.calls[pid].pc.Claiming? && !s.calls[pid].request.Resolve?) {
      EndedDrafts(cfg, s, pid, w);
    }
  }

  lemma EndedDrafts(cfg: Config, s: State, pid: nat, w: Weather)
    requires pid in s.calls
    ensures s.calls[pid].pc.Done? ==> DraftsMoved(cfg, s, s, pid, w)
    ensures DraftsMoved(cfg, s, At(s, pid, Done(Failed)), pid, w)
  {
    assert s.calls == s.calls[pid := s.calls[pid]];
  }

  lemma MoveGrounded(cfg: Config, labels: seq<Label>, s: State, pid: nat, w: Weather)
    requires s == Run(cfg, INITIAL, labels) && pid in s.calls && AllGrounded(cfg, labels, s)
    ensures AllGrounded(cfg, labels + [Go(pid, w)], Advance(cfg, s, pid, w))
  {
    hide Run, Advance, EvidenceGrounded;
    var l := Go(pid, w);
    var t := Advance(cfg, s, pid, w);
    DraftsMove(cfg, s, pid, w);
    forall id | id in t.decisions
      ensures EvidenceGrounded(cfg, labels + [l], t.decisions[id].maker, t.decisions[id].action, t.decisions[id].evidence)
    {
      var d := t.decisions[id];
      assert PcGrounded(cfg, labels, pid, s.calls[pid].pc);
      GroundedStill(cfg, labels, l, d.maker, d.action, d.evidence);
    }
    forall p | p in t.calls ensures PcGrounded(cfg, labels + [l], p, t.calls[p].pc) {
      if p != pid {
        StaysGrounded(cfg, labels, l, p, s.calls[p].pc);
      } else {
        OwnGrounded(cfg, labels, s, pid, w);
      }
    }
  }

  lemma StaysGrounded(cfg: Config, labels: seq<Label>, l: Label, pid: nat, pc: Pc)
    requires PcGrounded(cfg, labels, pid, pc)
    ensures PcGrounded(cfg, labels + [l], pid, pc)
  {
    hide EvidenceGrounded;
    match pc
    case Signing(d) => GroundedStill(cfg, labels, l, pid, d.action, d.evidence);
    case Saving(_, d) => GroundedStill(cfg, labels, l, pid, d.action, d.evidence);
    case _ =>
  }

  lemma OwnGrounded(cfg: Config, labels: seq<Label>, s: State, pid: nat, w: Weather)
    requires s == Run(cfg, INITIAL, labels) && pid in s.calls && PcGrounded(cfg, labels, pid, s.calls[pid].pc)
    ensures PcGrounded(cfg, labels + [Go(pid, w)], pid, Advance(cfg, s, pid, w).calls[pid].pc)
  {
    hide Run, Advance, Grounded;
    DraftsMove(cfg, s, pid, w);
    match Advance(cfg, s, pid, w).calls[pid].pc
    case Signing(d) =>
      if !d.evidence.Ordered? { GroundedNow(cfg, labels, Go(pid, w), d.action, d.evidence.spent); }
    case Saving(_, d) => GroundedStill(cfg, labels, Go(pid, w), pid, d.action, d.evidence);
    case _ =>
  }

  lemma QuietGrounded(cfg: Config, labels: seq<Label>, l: Label, s: State, t: State)
    requires AllGrounded(cfg, labels, s) && t.decisions == s.decisions
    requires forall p :: p in t.calls ==> (p in s.calls && t.calls[p] == s.calls[p])
                                          || t.calls[p].pc.Starting? || t.calls[p].pc.Done?
    ensures AllGrounded(cfg, labels + [l], t)
  {
    hide EvidenceGrounded;
    forall id | id in t.decisions
      ensures EvidenceGrounded(cfg, labels + [l], t.decisions[id].maker, t.decisions[id].action, t.decisions[id].evidence)
    {
      GroundedStill(cfg, labels, l, t.decisions[id].maker, t.decisions[id].action, t.decisions[id].evidence);
    }
    forall p | p in t.calls ensures PcGrounded(cfg, labels + [l], p, t.calls[p].pc) {
      if p in s.calls && t.calls[p] == s.calls[p] { StaysGrounded(cfg, labels, l, p, s.calls[p].pc); }
    }
  }

  lemma {:induction false} RunLast(cfg: Config, s: State, labels: seq<Label>, l: Label)
    ensures Run(cfg, s, labels + [l]) == Exec(cfg, Run(cfg, s, labels), l)
    decreases |labels|
  {
    hide Exec;
    if labels == [] {
      assert ([] + [l])[1..] == [];
    } else {
      assert (labels + [l])[1..] == labels[1..] + [l];
      RunLast(cfg, Exec(cfg, s, labels[0]), labels[1..], l);
    }
  }

  lemma {:induction false} RunGrounded(cfg: Config, labels: seq<Label>)
    ensures AllGrounded(cfg, labels, Run(cfg, INITIAL, labels))
    decreases |labels|
  {
    hide Advance, PcGrounded, EvidenceGrounded;
    if labels != [] {
      var before, l := labels[..|labels| - 1], labels[|labels| - 1];
      assert labels == before + [l];
      RunGrounded(cfg, before);
      RunLast(cfg, INITIAL, before, l);
      var s := Run(cfg, INITIAL, before);
      hide Run, AllGrounded;
      if l.Go? && l.pid in s.calls {
        MoveGrounded(cfg, before, s, l.pid, l.w);
      } else {
        QuietGrounded(cfg, before, l, s, Exec(cfg, s, l));
      }
    }
  }

  /** The evaluation behind a decision was a move of the call that made it, at that instant, and the spending it went by
      is what was recorded then for the action's principal and day. */
  lemma EvidenceIsReal(cfg: Config, labels: seq<Label>, id: string)
    requires id in Run(cfg, INITIAL, labels).decisions
    ensures var d := Run(cfg, INITIAL, labels).decisions[id];
            !d.evidence.Ordered? ==> Grounded(cfg, labels, d.maker, d.action, d.evidence.evaluatedAt, d.evidence.spent)
  {
    RunGrounded(cfg, labels);
    hide Run, Grounded;
  }

  // ----- a resolution that runs undisturbed

  function Alone(cfg: Config, s: State, pid: nat, w: Weather): State
    requires pid in s.calls
  {
    var a := Advance(cfg, s, pid, w);
    var b := Advance(cfg, a, pid, w);
    var c := Advance(cfg, b, pid, w);
    var d := Advance(cfg, c, pid, w);
    Advance(cfg, d, pid, w)
  }

  /** What makes an undisturbed resolution supersede its request. */
  predicate Resolvable(cfg: Config, s: State, r: Request, now: int)
    requires r.Resolve?
  {
    && Pending(s, r.decisionId) && r.decisionId !in s.claimed
    && (r.replacement.Some? ==> SameAction(r.replacement.value, s.decisions[r.decisionId].action))
    && now < ClosesAt(cfg, s.decisions[r.decisionId].issuedAt)
  }

  /** Why an answer is turned away, or that it is taken. */
  predicate Answered(cfg: Config, s: State, r: Request, now: int, id: string, outcome: Outcome)
    requires r.Resolve?
  {
    var pending := Pending(s, r.decisionId);
    var same := pending && (r.replacement.Some? ==> SameAction(r.replacement.value, s.decisions[r.decisionId].action));
    var open := same && now < ClosesAt(cfg, s.decisions[r.decisionId].issuedAt);
    && (outcome == Rejected(ApprovalNotPending) <==> !pending)
    && (outcome == Rejected(ActionHashMismatch) <==> pending && !same)
    && (outcome == Rejected(DecisionExpired) <==> same && !open)
    && (outcome == Rejected(ApprovalAlreadyResolved) <==> open && r.decisionId in s.claimed)
    && (outcome == Made(id) <==> open && r.decisionId !in s.claimed)
  }

  /** An undisturbed resolution with a new id makes a decision exactly when its request is pending, unclaimed, in its
      window and for the same action, and is turned away for the first of these that fails; that decision allows exactly
      when it was granted and policy permits the action now. */
  lemma ResolvesExactlyWhen(cfg: Config, s: State, pid: nat, w: Weather)
    requires pid in s.calls && s.calls[pid].pc.Starting? && s.calls[pid].request.Resolve?
    requires w.fault == NoFault && w.id !in s.minter
    ensures var r := s.calls[pid].request;
            var t := Alone(cfg, s, pid, w);
            && pid in t.calls && t.calls[pid].pc.Done?
            && (t.calls[pid].pc == Done(Made(w.id)) <==> Resolvable(cfg, s, r, w.now))
            && Answered(cfg, s, r, w.now, w.id, t.calls[pid].pc.outcome)
            && (Resolvable(cfg, s, r, w.now) ==>
                  && w.id in t.decisions && t.decisions[w.id].supersedes == Some(r.decisionId)
                  && (t.decisions[w.id].verdict == Allow <==>
                        var action := if r.replacement.Some? then r.replacement.value else s.decisions[r.decisionId].action;
                        r.granted && P.Permitted(cfg.rules, cfg.request(action), cfg.moment(w.now),
                                                 SpentOn(s, cfg.dayOf(action, w.now)))))
  {
    hide P.EvaluatePolicy, P.Permitted, SameAction, ClosesAt;
    var r := s.calls[pid].request;
    var a := Advance(cfg, s, pid, w);
    if a.calls[pid].pc.Claiming? {
      var action := a.calls[pid].pc.action;
      P.NotBlockedExactlyWhen(cfg.rules, cfg.request(action), cfg.moment(w.now), SpentOn(s, cfg.dayOf(action, w.now)));
      var b := Advance(cfg, a, pid, w);
      if b.calls[pid].pc.Evaluating? {
        FromEvaluating(cfg, b, pid, w);
        assert SpentOn(b, cfg.dayOf(action, w.now)) == SpentOn(s, cfg.dayOf(action, w.now));
      }
    }
  }

  lemma FromEvaluating(cfg: Config, s: State, pid: nat, w: Weather)
    requires pid in s.calls && s.calls[pid].pc.Evaluating? && s.calls[pid].request.Resolve?
    requires w.fault == NoFault && w.id !in s.minter
    ensures var t := Advance(cfg, Advance(cfg, Advance(cfg, s, pid, w), pid, w), pid, w);
            var action := s.calls[pid].pc.action;
            && pid in t.calls && t.calls[pid].pc == Done(Made(w.id)) && w.id in t.decisions
            && t.decisions[w.id].supersedes == Some(s.calls[pid].request.decisionId)
            && (t.decisions[w.id].verdict == Allow <==>
                  s.calls[pid].request.granted
                  && Evaluated(cfg, action, w.now, SpentOn(s, cfg.dayOf(action, w.now))).verdict != Block)
  {
    hide Evaluated, Start, Claim;
    var a := Advance(cfg, s, pid, w);
    assert a.calls[pid].pc.Signing?;
    var b := Advance(cfg, a, pid, w);
    assert b.calls[pid].pc.Saving?;
  }

  /** An undisturbed evaluation with a new id stores one decision, which follows policy now, on the spending of the day;
      an ordered block one that blocks, unless it has no code. */
  lemma EvaluatesExactlyWhen(cfg: Config, s: State, pid: nat, w: Weather)
    requires pid in s.calls && s.calls[pid].pc.Starting? && !s.calls[pid].request.Resolve?
    requires w.fault == NoFault && w.id !in s.minter
    ensures var r := s.calls[pid].request;
            var t := Advance(cfg, Advance(cfg, Advance(cfg, s, pid, w), pid, w), pid, w);
            && (t.calls[pid].pc == Done(Made(w.id)) <==> r.Evaluate? || r.codes != [])
            && (t.calls[pid].pc == Done(Failed) <==> r.IssueBlock? && r.codes == [])
            && (t.calls[pid].pc == Done(Made(w.id)) ==>
                  && w.id in t.decisions && t.decisions == s.decisions[w.id := t.decisions[w.id]]
                  && var d := t.decisions[w.id];
                     && d.action == r.action && d.issuedAt == w.now && d.supersedes == None && d.maker == pid
                     && match r
                        case Evaluate(action) => Follows(cfg, d.verdict, action, w.now, SpentOn(s, cfg.dayOf(action, w.now)))
                        case IssueBlock(_, codes) => d.verdict == Block && d.codes == codes)
            && t.claimed == s.claimed
  {
    hide Evaluated, Follows, Open, Claim, Reevaluate;
    var r := s.calls[pid].request;
    if r.Evaluate? { VerdictFollows(cfg, r.action, w.now, SpentOn(s, cfg.dayOf(r.action, w.now))); }
    var a := Advance(cfg, s, pid, w);
    if a.calls[pid].pc.Signing? {
      var b := Advance(cfg, a, pid, w);
      assert b.calls[pid].pc.Saving?;
    }
  }

  /** A store that failed to answer ends the call, which then made nothing that it knows of. */
  lemma FailedAwaitsEnd(cfg: Config, s: State, pid: nat, w: Weather)
    requires pid in s.calls && w.fault != NoFault
    requires match s.calls[pid].pc
             case Starting => !s.calls[pid].request.IssueBlock?
             case Signing(_) => false
             case Done(_) => false
             case _ => true
    ensures Advance(cfg, s, pid, w).calls[pid].pc == Done(Failed)
  {
    hide Evaluated, SameAction, ClosesAt, WithoutRequired;
  }

  // ----- the provider

  class InMemoryDecisionStateStore {
    var decisions: map<string, Issued>
    var claimedApprovals: set<string>

    constructor ()
      ensures decisions == map[] && claimedApprovals == {}
    {
      decisions, claimedApprovals := map[], {};
    }

    method Save(id: string, issued: Issued)
      modifies `decisions
      ensures decisions == old(decisions)[id := issued]
    {
      decisions := decisions[id := issued];
    }

    method Get(id: string) returns (issued: Option<Issued>)
      ensures issued == if id in decisions then Some(decisions[id]) else None
    {
      issued := if id in decisions then Some(decisions[id]) else None;
    }

    method ClaimApproval(id: string) returns (claimed: bool)
      modifies `claimedApprovals
      ensures claimed <==> id !in old(claimedApprovals)
      ensures claimedApprovals == old(claimedApprovals) + {id}
    {
      if id in claimedApprovals {
        return false;
      }
      claimedApprovals := claimedApprovals + {id};
      claimed := true;
    }
  }

  class LocalDecisionProvider {
    const cfg: Config
    const store: InMemoryDecisionStateStore
    var spent: map<string, nat>

    constructor (cfg: Config, store: InMemoryDecisionStateStore)
      ensures this.cfg == cfg && this.store == store && spent == map[]
    {
      this.cfg, this.store, spent := cfg, store, map[];
    }

    /** The stores as the machine sees them. */
    ghost function Seen(): State
      reads this, store
    {
      State(store.decisions, store.claimedApprovals, spent, map[], map[], map[])
    }

    /** Evaluates once and saves what it decides. */
    method Evaluate(action: Action, now: int, newId: string)
      modifies store
      ensures && newId in store.decisions
              && store.decisions == old(store.decisions)[newId := store.decisions[newId]]
              && store.claimedApprovals == old(store.claimedApprovals)
      ensures var d := store.decisions[newId];
              var available := SpentOn(old(Seen()), cfg.dayOf(action, now));
              && d.action == action && d.issuedAt == now && d.supersedes == None
              && d.evidence == FirstEvaluated(now, available)
              && d.codes == Evaluated(cfg, action, now, available).codes
              && Follows(cfg, d.verdict, action, now, available)
    {
      hide P.EvaluatePolicy, Follows;
      var day := cfg.dayOf(action, now);
      var available := if day in spent then spent[day] else 0;
      var evaluation := Evaluated(cfg, action, now, available);
      VerdictFollows(cfg, action, now, available);
      store.Save(newId, Issued(evaluation.verdict, action, now, None, evaluation.codes, FirstEvaluated(now, available), 0));
    }

    /** A signed block needs a reason. */
    method IssueBlock(action: Action, codes: seq<Reason>, now: int, newId: string) returns (outcome: Outcome)
      modifies store
      ensures outcome == Made(newId) <==> codes != []
      ensures outcome != Made(newId) ==> store.decisions == old(store.decisions)
      ensures outcome == Made(newId) ==>
                && store.decisions == old(store.decisions)[newId := Issued(Block, action, now, None, codes, Ordered, 0)]
      ensures store.claimedApprovals == old(store.claimedApprovals)
    {
      if codes == [] {
        return Failed;
      }
      store.Save(newId, Issued(Block, action, now, None, codes, Ordered, 0));
      outcome := Made(newId);
    }

    /** The codes of a granted approval: all but the one that asked for it. */
    method Granted(codes: seq<Reason>) returns (kept: seq<Reason>)
      ensures kept == WithoutRequired(codes) + [HumanApprovalGranted]
    {
      kept := [];
      assert codes[0..] == codes;
      for i := 0 to |codes|
        invariant kept + WithoutRequired(codes[i..]) == WithoutRequired(codes)
      {
        assert codes[i..][1..] == codes[i + 1..];
        if codes[i] != HumanApprovalRequired {
          kept := kept + [codes[i]];
        }
      }
      assert codes[|codes|..] == [];
      kept := kept + [HumanApprovalGranted];
    }

    /** Supersedes a pending decision; every early return but the claim leaves both stores as they were. */
    method ResolveApproval(r: Request, now: int, newId: string) returns (outcome: Outcome)
      requires r.Resolve?
      modifies store
      ensures outcome == Made(newId) <==> old(Resolvable(cfg, Seen(), r, now))
      ensures Answered(cfg, old(Seen()), r, now, newId, outcome)
      ensures outcome == Made(newId) ==>
                var action := if r.replacement.Some? then r.replacement.value else old(store.decisions)[r.decisionId].action;
                var available := SpentOn(old(Seen()), cfg.dayOf(action, now));
                var d := Resolved(r.decisionId, action, Evaluated(cfg, action, now, available),
                                  Reevaluated(r.granted, now, now, available));
                && store.claimedApprovals == old(store.claimedApprovals) + {r.decisionId}
                && store.decisions == old(store.decisions)[newId :=
                     Issued(d.verdict, d.action, now, d.supersedes, d.codes, d.evidence, 0)]
      ensures outcome != Made(newId) ==>
                && store.decisions == old(store.decisions) && outcome.Rejected?
                && store.claimedApprovals == old(store.claimedApprovals)
    {
      hide P.EvaluatePolicy;
      var stored := store.Get(r.decisionId);
      if stored.None? || stored.value.verdict != RequireApproval {
        return Rejected(ApprovalNotPending);
      }
      var pending := stored.value;
      var action := if r.replacement.Some? then r.replacement.value else pending.action;
      if r.replacement.Some? && !SameAction(action, pending.action) {
        return Rejected(ActionHashMismatch);
      }
      if now >= ClosesAt(cfg, pending.issuedAt) {
        return Rejected(DecisionExpired);
      }
      var claimed := store.ClaimApproval(r.decisionId);
      if !claimed {
        return Rejected(ApprovalAlreadyResolved);
      }
      var day := cfg.dayOf(action, now);
      var available := if day in spent then spent[day] else 0;
      var evaluation := Evaluated(cfg, action, now, available);
      var evidence := Reevaluated(r.granted, now, now, available);
      var verdict, codes;
      if !r.granted {
        verdict, codes := Block, [HumanApprovalRefused];
      } else if evaluation.verdict == Block {
        verdict, codes := Block, evaluation.codes;
      } else {
        codes := Granted(evaluation.codes);
        verdict := Allow;
      }
      store.Save(newId, Issued(verdict, action, now, Some(r.decisionId), codes, evidence, 0));
      outcome := Made(newId);
    }
  }
}
