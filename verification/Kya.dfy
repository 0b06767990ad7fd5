/**
 * The KYA authority gate (packages/kya-os-authority/src/gate.ts): evaluate, resolve an approval, consume.  Any number
 * of calls interleave, one step per `await`, over shared nonce, authority and revalidation stores and an inner
 * provider whose answers the run chooses.
 */
module Kya {
  import opened Prelude
  import N = KyaNonces

  datatype Backend = Memory | Database

  /** What `sameAuthorityIdentity` compares, and everything else a verified binding holds. */
  datatype Binding = Binding(agentDid: string, responsiblePartyDid: string, principalDid: Option<string>,
                             invocationTarget: string, allowedAction: string, currency: Option<string>,
                             authorityPolicyHash: string, evidence: string)

  predicate SameIdentity(a: Binding, b: Binding) {
    && a.agentDid == b.agentDid
    && a.responsiblePartyDid == b.responsiblePartyDid
    && a.principalDid == b.principalDid
    && a.invocationTarget == b.invocationTarget
    && a.allowedAction == b.allowedAction
    && a.currency == b.currency
    && a.authorityPolicyHash == b.authorityPolicyHash
  }

  /** The identity is everything but the evidence. */
  lemma IdentityIsAllButEvidence(a: Binding, b: Binding)
    ensures SameIdentity(a, b) <==> a.(evidence := b.evidence) == b
  {
  }

  /** An action without its reserved extension, and the extension. An action stands for its own hash. */
  datatype Action = Action(core: string, kya: Option<Binding>)

  /** A presentation that verified, after its nonce was consumed as fresh. */
  datatype Proof = Proof(pid: nat, key: N.Key, at: int, expiresAt: int, binding: Binding)

  datatype Authority = Authority(actionHash: Action, action: Action, binding: Binding, proof: nat)

  datatype Kind = Approval | Consumption

  /** `proof` is the index of the verification behind a verified record. */
  datatype Revalidation = Revalidation(decisionId: string, actionHash: Action, kind: Kind, executionRef: Option<string>,
                                       verified: Option<nat>)

  /** A call of the inner provider's `consume`, when the log of revalidations had `after` entries. */
  datatype InnerCall = InnerCall(decisionId: string, actionHash: Action, executionRef: string, after: nat)

  datatype Request =
    | Evaluate(core: string)
    | Resolve(decisionId: string)
    | Consume(decisionId: string, actionHash: Action, executionRef: string)

  datatype Pc =
    | Starting
    | Evaluating(proof: nat)
    | Blocking
    | SavingFirst(proof: nat, id: string, hash: Action)
    | VerifyingApproval(stored: Authority)
    | Noting(stored: Authority)
    | AppendingApproval(stored: Authority, proof: nat)
    | Resolving(stored: Authority, proof: nat)
    | SavingNext(stored: Authority, proof: nat, id: string, hash: Action)
    | FindingPrior(stored: Authority)
    | VerifyingConsumption(stored: Authority)
    | Checking(stored: Authority, proof: nat)
    | Pushing(stored: Authority, proof: nat)
    | CallingInner
    | Done(passed: bool)

  datatype Thread = Thread(request: Request, pc: Pc)

  /** `issued` holds every decision the provider made, with the request it supersedes. */
  datatype State = State(clock: int, nonces: N.Nonces, proofs: seq<Proof>, authorities: map<string, Authority>,
                         revalidations: seq<Revalidation>, issued: map<string, Option<string>>,
                         inner: seq<InnerCall>, calls: map<nat, Thread>)

  /** What the verifier finds: a proof that fails before or after its nonce is consumed, or one that holds. */
  datatype Presentation = Bad | Presented(key: N.Key, expiresAt: int, failsLater: bool, binding: Binding)

  /** The provider's next decision, if any: a new id and an action hash. */
  datatype Weather = Weather(fault: Fault, presentation: Presentation, decision: Option<(string, Action)>)

  datatype Label =
    | Begin(pid: nat, request: Request)
    | Go(pid: nat, w: Weather)
    | Crash(pid: nat)
    | Tick(millis: nat)
    | PurgeNonces(at: int)
    | OtherProof(key: N.Key, expiresAt: int)

  // ----- steps

  function At(s: State, pid: nat, pc: Pc): (t: State)
    requires pid in s.calls
    ensures pid in t.calls && t.calls[pid].request == s.calls[pid].request
  {
    s.(calls := s.calls[pid := s.calls[pid].(pc := pc)])
  }

  /** Nothing is appended to the log of revalidations, and no other call moves. */
  predicate Quiet(s: State, t: State, pid: nat)
    requires pid in t.calls
  {
    t.revalidations == s.revalidations && t.calls == s.calls[pid := t.calls[pid]]
  }

  /** The verifier, with the axiom that it accepts only after the nonce store called the nonce fresh. */
  function Verify(s: State, pid: nat, p: Presentation): (State, Option<nat>) {
    if p.Bad? then (s, None)
    else
      var (nonces, accepted) := N.Step(s.nonces, N.Consume(p.key, s.clock, p.expiresAt));
      if !accepted || p.failsLater then (s.(nonces := nonces), None)
      else (s.(nonces := nonces, proofs := s.proofs + [Proof(pid, p.key, s.clock, p.expiresAt, p.binding)]),
            Some(|s.proofs|))
  }

  function Bound(core: string, binding: Binding): Action {
    Action(core, Some(binding))
  }

  function Start(s: State, pid: nat, w: Weather): (t: State)
    requires pid in s.calls
    ensures pid in t.calls && t.calls[pid].request == s.calls[pid].request
    ensures Quiet(s, t, pid) && !t.calls[pid].pc.Pushing?
  {
    match s.calls[pid].request
    case Evaluate(_) =>
      var (t, proof) := Verify(s, pid, w.presentation);
      At(t, pid, if proof.Some? then Evaluating(proof.value) else Blocking)
    case Resolve(id) =>
      At(s, pid, if w.fault != NoFault || id !in s.authorities then Done(false) else VerifyingApproval(s.authorities[id]))
    case Consume(id, hash, _) =>
      At(s, pid, if w.fault != NoFault || id !in s.authorities then Done(false)
                 else if s.authorities[id].actionHash != hash || s.authorities[id].action != s.authorities[id].actionHash
                   then Done(false)
                 else FindingPrior(s.authorities[id]))
  }

  /** The provider evaluates the bound action, resolves the approval for it, or issues a BLOCK for what was rejected. */
  function AskProvider(s: State, pid: nat, w: Weather, parent: Option<string>, otherwise: Pc,
                       saving: (string, Action) -> Pc): (t: State)
    requires pid in s.calls
    ensures pid in t.calls && t.calls[pid].request == s.calls[pid].request
    ensures Quiet(s, t, pid)
  {
    if w.fault == LostRequest || w.decision.None? || w.decision.value.0 in s.issued then At(s, pid, otherwise)
    else
      var (id, hash) := w.decision.value;
      At(s.(issued := s.issued[id := parent]), pid, if w.fault == LostAnswer then Done(false) else saving(id, hash))
  }

  function SaveAuthority(s: State, pid: nat, fault: Fault, id: string, record: Authority): (t: State)
    requires pid in s.calls
    ensures pid in t.calls && t.calls[pid].request == s.calls[pid].request
    ensures Quiet(s, t, pid) && !t.calls[pid].pc.Pushing?
  {
    if fault == LostRequest || (id in s.authorities && s.authorities[id] != record) then At(s, pid, Done(false))
    else At(s.(authorities := s.authorities[id := record]), pid, Done(fault == NoFault))
  }

  function Core(a: Authority): string { a.action.core }

  function FreshAuthority(s: State, pid: nat, w: Weather, stored: Authority, pc: nat -> Pc): (t: State)
    requires pid in s.calls
    ensures pid in t.calls && t.calls[pid].request == s.calls[pid].request
    ensures Quiet(s, t, pid)
  {
    var (t, proof) := Verify(s, pid, w.presentation);
    if proof.None? then At(t, pid, Noting(stored))
    else At(t, pid, if SameIdentity(stored.binding, t.proofs[proof.value].binding) then pc(proof.value) else Noting(stored))
  }

  function Append(s: State, pid: nat, fault: Fault, record: Revalidation, pc: Pc): (t: State)
    requires pid in s.calls
    ensures pid in t.calls && t.calls[pid].request == s.calls[pid].request
  {
    if fault == LostRequest then At(s, pid, Done(false))
    else At(s.(revalidations := s.revalidations + [record]), pid, if fault == NoFault then pc else Done(false))
  }

  predicate Revalidates(r: Revalidation, id: string, hash: Action, ref: string) {
    && r.kind == Consumption && r.verified.Some?
    && r.decisionId == id && r.actionHash == hash && r.executionRef == Some(ref)
  }

  predicate Revalidated(log: seq<Revalidation>, id: string, hash: Action, ref: string) {
    exists k :: 0 <= k < |log| && Revalidates(log[k], id, hash, ref)
  }

  /** The record a rejected or verified presentation leaves. */
  function RecordFor(request: Request, stored: Authority, verified: Option<nat>): Revalidation
    requires !request.Evaluate?
  {
    match request
    case Resolve(id) => Revalidation(id, stored.actionHash, Approval, None, verified)
    case Consume(id, hash, ref) => Revalidation(id, hash, Consumption, Some(ref), verified)
  }

  function Advance(b: Backend, s: State, pid: nat, w: Weather): (t: State)
    requires pid in s.calls
    ensures pid in t.calls && t.calls[pid].request == s.calls[pid].request
  {
    var request := s.calls[pid].request;
    match s.calls[pid].pc
    case Starting => Start(s, pid, w)
    case Evaluating(n) => AskProvider(s, pid, w, None, Done(false), (id, hash) => SavingFirst(n, id, hash))
    case Blocking => AskProvider(s, pid, w, None, Done(false), (id, hash) => Done(false))
    case SavingFirst(n, id, hash) =>
      if !request.Evaluate? || n >= |s.proofs| then At(s, pid, Done(false))
      else SaveAuthority(s, pid, w.fault, id,
                         Authority(hash, Bound(request.core, s.proofs[n].binding), s.proofs[n].binding, n))
    case VerifyingApproval(stored) => FreshAuthority(s, pid, w, stored, (n: nat) => AppendingApproval(stored, n))
    case Noting(stored) =>
      if request.Evaluate? then At(s, pid, Done(false))
      else Append(s, pid, w.fault, RecordFor(request, stored, None), Done(false))
    case AppendingApproval(stored, n) =>
      if request.Evaluate? then At(s, pid, Done(false))
      else Append(s, pid, w.fault, RecordFor(request, stored, Some(n)), Resolving(stored, n))
    case Resolving(stored, n) =>
      if !request.Resolve? then At(s, pid, Done(false))
      else AskProvider(s, pid, w, Some(request.decisionId), Done(false), (id, hash) => SavingNext(stored, n, id, hash))
    case SavingNext(stored, n, id, hash) =>
      if n >= |s.proofs| then At(s, pid, Done(false))
      else SaveAuthority(s, pid, w.fault, id,
                         Authority(hash, Bound(Core(stored), s.proofs[n].binding), s.proofs[n].binding, n))
    case FindingPrior(stored) =>
      if !request.Consume? || w.fault != NoFault then At(s, pid, Done(false))
      else At(s, pid, if Revalidated(s.revalidations, request.decisionId, request.actionHash, request.executionRef)
                      then CallingInner else VerifyingConsumption(stored))
    case VerifyingConsumption(stored) => FreshAuthority(s, pid, w, stored, (n: nat) => Checking(stored, n))
    case Checking(stored, n) => Check(b, s, pid, w, stored, n)
    case Pushing(stored, n) =>
      if !request.Consume? then At(s, pid, Done(false))
      else Append(s, pid, w.fault, RecordFor(request, stored, Some(n)), CallingInner)
    case CallingInner => CallInner(s, pid)
    case Done(_) => s
  }

  /** The store looks for an earlier record of the triple. The SQL statement inserts in the same breath; the in-memory
      method awaits before it pushes. */
  function Check(b: Backend, s: State, pid: nat, w: Weather, stored: Authority, n: nat): (t: State)
    requires pid in s.calls
    ensures pid in t.calls && t.calls[pid].request == s.calls[pid].request
  {
    var request := s.calls[pid].request;
    if !request.Consume? || w.fault == LostRequest then At(s, pid, Done(false))
    else if Revalidated(s.revalidations, request.decisionId, request.actionHash, request.executionRef)
      then At(s, pid, if w.fault == NoFault then CallingInner else Done(false))
    else if b.Memory? then At(s, pid, Pushing(stored, n))
    else Append(s, pid, w.fault, RecordFor(request, stored, Some(n)), CallingInner)
  }

  function CallInner(s: State, pid: nat): (t: State)
    requires pid in s.calls
    ensures pid in t.calls && t.calls[pid].request == s.calls[pid].request
    ensures Quiet(s, t, pid) && !t.calls[pid].pc.Pushing?
  {
    var request := s.calls[pid].request;
    if !request.Consume? then At(s, pid, Done(false))
    else At(s.(inner := s.inner + [InnerCall(request.decisionId, request.actionHash, request.executionRef,
                                             |s.revalidations|)]), pid, Done(true))
  }

  function Exec(b: Backend, s: State, l: Label): State {
    match l
    case Begin(pid, request) => if pid in s.calls then s else s.(calls := s.calls[pid := Thread(request, Starting)])
    case Go(pid, w) => if pid in s.calls then Advance(b, s, pid, w) else s
    case Crash(pid) => if pid in s.calls then At(s, pid, Done(false)) else s
    case Tick(millis) => s.(clock := s.clock + millis)
    case PurgeNonces(at) => if at <= s.clock then s.(nonces := N.Purged(s.nonces, at)) else s
    case OtherProof(key, expiresAt) => s.(nonces := N.Step(s.nonces, N.Consume(key, s.clock, expiresAt)).0)
  }

  function Run(b: Backend, s: State, labels: seq<Label>): State
    decreases |labels|
  {
    if labels == [] then s else Run(b, Exec(b, s, labels[0]), labels[1..])
  }

  const INITIAL := State(0, map[], [], map[], [], map[], [], map[])
}
