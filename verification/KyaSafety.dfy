/** What every run through the KYA gate keeps. */
module KyaSafety {
  import opened Prelude
  import N = KyaNonces
  import opened Kya

  // ----- one entry of each store

  /** How far a call has come: nothing verified yet, verified, ready to consume, done. */
  function Phase(pc: Pc): nat {
    match pc
    case Starting => 0
    case VerifyingApproval(_) => 0
    case FindingPrior(_) => 0
    case VerifyingConsumption(_) => 0
    case CallingInner => 2
    case Done(_) => 3
    case _ => 1
  }

  /** The nonce is spent, or was accepted for a time that has passed. */
  predicate Kept(s: State, key: N.Key, expiresAt: int) {
    expiresAt < s.clock || (key in s.nonces && s.nonces[key] >= expiresAt)
  }

  predicate ProofOk(s: State, p: Proof) {
    && p.at <= s.clock && Kept(s, p.key, p.expiresAt)
    && p.pid in s.calls && Phase(s.calls[p.pid].pc) >= 1
  }

  /** Two verifications are of different calls, and of one nonce only after its retention. */
  predicate Apart(p: Proof, q: Proof) {
    p.pid != q.pid && (p.key == q.key ==> p.expiresAt < q.at)
  }

  predicate AuthorityOk(s: State, id: string)
    requires id in s.authorities
  {
    var a := s.authorities[id];
    && id in s.issued && a.proof < |s.proofs| && s.proofs[a.proof].binding == a.binding
    && a.action == Bound(a.action.core, a.binding)
    && s.proofs[a.proof].pid in s.calls && Phase(s.calls[s.proofs[a.proof].pid].pc) == 3
    && (s.issued[id].Some? ==>
          && s.issued[id].value in s.authorities
          && SameIdentity(s.authorities[s.issued[id].value].binding, a.binding)
          && s.authorities[s.issued[id].value].action.core == a.action.core)
  }

  predicate RevalidationOk(s: State, r: Revalidation) {
    r.verified.Some? ==>
      && r.verified.value < |s.proofs| && r.decisionId in s.authorities
      && r.actionHash == s.authorities[r.decisionId].actionHash
      && SameIdentity(s.authorities[r.decisionId].binding, s.proofs[r.verified.value].binding)
      && (r.kind == Consumption ==>
            s.proofs[r.verified.value].pid in s.calls && Phase(s.calls[s.proofs[r.verified.value].pid].pc) >= 2)
  }

  predicate InnerOk(s: State, c: InnerCall) {
    && c.after <= |s.revalidations|
    && Revalidated(s.revalidations[..c.after], c.decisionId, c.actionHash, c.executionRef)
    && c.decisionId in s.authorities && s.authorities[c.decisionId].actionHash == c.actionHash
    && s.authorities[c.decisionId].action == c.actionHash
  }

  ghost predicate ProofsInv(s: State) {
    && (forall i :: 0 <= i < |s.proofs| ==> ProofOk(s, s.proofs[i]))
    && (forall i, j :: 0 <= i < j < |s.proofs| ==> Apart(s.proofs[i], s.proofs[j]))
  }

  ghost predicate AuthoritiesInv(s: State) {
    && (forall id :: id in s.authorities ==> AuthorityOk(s, id))
    && (forall a, b :: a in s.authorities && b in s.authorities && a != b ==>
          s.authorities[a].proof != s.authorities[b].proof)
  }

  predicate BothConsume(r: Revalidation, q: Revalidation) {
    r.kind == Consumption && q.kind == Consumption && r.verified.Some? && q.verified.Some?
  }

  ghost predicate RevalidationsInv(s: State) {
    && (forall k :: 0 <= k < |s.revalidations| ==> RevalidationOk(s, s.revalidations[k]))
    && (forall k, l :: 0 <= k < l < |s.revalidations| && BothConsume(s.revalidations[k], s.revalidations[l]) ==>
          s.revalidations[k].verified != s.revalidations[l].verified)
  }

  ghost predicate InnerInv(s: State) {
    forall i :: 0 <= i < |s.inner| ==> InnerOk(s, s.inner[i])
  }

  predicate Holds(s: State, pid: nat, n: nat) {
    n < |s.proofs| && s.proofs[n].pid == pid
  }

  predicate StoredFor(s: State, request: Request, stored: Authority) {
    match request
    case Evaluate(_) => false
    case Resolve(id) => id in s.authorities && s.authorities[id] == stored
    case Consume(id, hash, _) =>
      id in s.authorities && s.authorities[id] == stored && stored.actionHash == hash && stored.action == hash
  }

  predicate Joined(s: State, pid: nat, request: Request, stored: Authority, n: nat) {
    && StoredFor(s, request, stored) && Holds(s, pid, n)
    && SameIdentity(stored.binding, s.proofs[n].binding)
  }

  predicate ThreadInv(s: State, pid: nat, t: Thread) {
    match t.pc
    case Starting => true
    case Evaluating(n) => t.request.Evaluate? && Holds(s, pid, n)
    case Blocking => t.request.Evaluate?
    case SavingFirst(n, id, _) =>
      t.request.Evaluate? && Holds(s, pid, n) && id in s.issued && s.issued[id].None?
    case VerifyingApproval(stored) => t.request.Resolve? && StoredFor(s, t.request, stored)
    case Noting(stored) => StoredFor(s, t.request, stored)
    case AppendingApproval(stored, n) => t.request.Resolve? && Joined(s, pid, t.request, stored, n)
    case Resolving(stored, n) => t.request.Resolve? && Joined(s, pid, t.request, stored, n)
    case SavingNext(stored, n, id, _) =>
      && t.request.Resolve? && Joined(s, pid, t.request, stored, n)
      && id in s.issued && s.issued[id] == Some(t.request.decisionId)
    case FindingPrior(stored) => t.request.Consume? && StoredFor(s, t.request, stored)
    case VerifyingConsumption(stored) => t.request.Consume? && StoredFor(s, t.request, stored)
    case Checking(stored, n) => t.request.Consume? && Joined(s, pid, t.request, stored, n)
    case Pushing(stored, n) => t.request.Consume? && Joined(s, pid, t.request, stored, n)
    case CallingInner =>
      && t.request.Consume? && t.request.decisionId in s.authorities
      && StoredFor(s, t.request, s.authorities[t.request.decisionId])
      && Revalidated(s.revalidations, t.request.decisionId, t.request.actionHash, t.request.executionRef)
    case Done(_) => true
  }

  ghost predicate Inv(s: State) {
    && ProofsInv(s) && AuthoritiesInv(s) && RevalidationsInv(s) && InnerInv(s)
    && (forall pid :: pid in s.calls ==> ThreadInv(s, pid, s.calls[pid]))
  }

  // ----- nothing is taken back

  ghost predicate Extends<K, V>(a: map<K, V>, b: map<K, V>) {
    forall k :: k in a ==> k in b && a[k] == b[k]
  }

  ghost predicate Grows(s: State, t: State) {
    && s.clock <= t.clock
    && (forall key, e :: Kept(s, key, e) ==> Kept(t, key, e))
    && s.proofs <= t.proofs && s.revalidations <= t.revalidations && s.inner <= t.inner
    && Extends(s.authorities, t.authorities) && Extends(s.issued, t.issued)
    && (forall p :: p in s.calls ==> p in t.calls && t.calls[p].request == s.calls[p].request
                                     && Phase(s.calls[p].pc) <= Phase(t.calls[p].pc))
  }

  lemma RevalidatedGrows(log: seq<Revalidation>, more: seq<Revalidation>, id: string, hash: Action, ref: string)
    requires log <= more && Revalidated(log, id, hash, ref)
    ensures Revalidated(more, id, hash, ref)
  {
    var k :| 0 <= k < |log| && Revalidates(log[k], id, hash, ref);
    assert more[k] == log[k];
  }

  lemma ThreadSurvives(s: State, t: State, pid: nat)
    requires Grows(s, t) && pid in s.calls && pid in t.calls && t.calls[pid] == s.calls[pid]
    requires ThreadInv(s, pid, s.calls[pid])
    ensures ThreadInv(t, pid, t.calls[pid])
  {
    var request := s.calls[pid].request;
    if s.calls[pid].pc.CallingInner? {
      RevalidatedGrows(s.revalidations, t.revalidations, request.decisionId, request.actionHash, request.executionRef);
    }
    hide Revalidated, Kept, Phase;
  }

  lemma ProofSurvives(s: State, t: State, p: Proof)
    requires Grows(s, t) && ProofOk(s, p)
    ensures ProofOk(t, p)
  {
  }

  lemma AuthoritySurvives(s: State, t: State, id: string)
    requires Grows(s, t) && id in s.authorities && id in t.authorities && AuthorityOk(s, id)
    ensures AuthorityOk(t, id)
  {
    hide Kept;
    assert forall p :: p in s.calls && Phase(s.calls[p].pc) == 3 ==> Phase(t.calls[p].pc) == 3;
  }

  lemma RevalidationSurvives(s: State, t: State, r: Revalidation)
    requires Grows(s, t) && RevalidationOk(s, r)
    ensures RevalidationOk(t, r)
  {
    hide Kept;
  }

  lemma InnerSurvives(s: State, t: State, c: InnerCall)
    requires Grows(s, t) && InnerOk(s, c)
    ensures InnerOk(t, c)
  {
    hide Kept, Revalidated, Phase;
    assert t.revalidations[..c.after] == s.revalidations[..c.after];
  }

  /** A move of call `pid` that adds at most one entry to each store. */
  ghost predicate Moved(s: State, t: State, pid: nat) {
    && Grows(s, t)
    && (forall p :: p in t.calls && p != pid ==> p in s.calls && t.calls[p] == s.calls[p])
    && (pid in t.calls ==> ThreadInv(t, pid, t.calls[pid]))
    && (t.proofs == s.proofs || ProofAdded(s, t))
    && (t.authorities == s.authorities || AuthorityAdded(s, t, pid))
    && (t.revalidations == s.revalidations || RevalidationAdded(s, t, pid))
    && (t.inner == s.inner || InnerAdded(s, t))
  }

  ghost predicate ProofAdded(s: State, t: State) {
    && |t.proofs| == |s.proofs| + 1
    && ProofOk(t, t.proofs[|s.proofs|])
    && forall i :: 0 <= i < |s.proofs| ==> Apart(s.proofs[i], t.proofs[|s.proofs|])
  }

  /** The new authority rests on a verification of `pid`, which had not ended. */
  ghost predicate AuthorityAdded(s: State, t: State, pid: nat) {
    && pid in s.calls && Phase(s.calls[pid].pc) == 1
    && exists id :: && id !in s.authorities && id in t.authorities && t.authorities.Keys == s.authorities.Keys + {id}
                    && AuthorityOk(t, id) && Holds(t, pid, t.authorities[id].proof)
                    && t.proofs == s.proofs
  }

  ghost predicate RevalidationAdded(s: State, t: State, pid: nat) {
    && pid in s.calls && Phase(s.calls[pid].pc) == 1 && t.proofs == s.proofs
    && |t.revalidations| == |s.revalidations| + 1
    && var r := t.revalidations[|s.revalidations|];
       RevalidationOk(t, r) && (r.verified.Some? ==> Holds(s, pid, r.verified.value))
  }

  ghost predicate InnerAdded(s: State, t: State) {
    |t.inner| == |s.inner| + 1 && InnerOk(t, t.inner[|s.inner|])
  }

  lemma ProofsMove(s: State, t: State, pid: nat)
    requires Inv(s) && Moved(s, t, pid)
    ensures ProofsInv(t)
  {
    hide ThreadInv, AuthorityAdded, RevalidationAdded, InnerAdded, AuthoritiesInv, RevalidationsInv, InnerInv;
    forall i | 0 <= i < |t.proofs| ensures ProofOk(t, t.proofs[i]) {
      if i < |s.proofs| {
        assert t.proofs[i] == s.proofs[i];
        ProofSurvives(s, t, s.proofs[i]);
      }
    }
    hide Grows, ProofOk, Apart;
    assert s.proofs <= t.proofs by { GrowingProofs(s, t); }
    forall i, j | 0 <= i < j < |t.proofs| ensures Apart(t.proofs[i], t.proofs[j]) {
      assert t.proofs[i] == s.proofs[i];
      if j < |s.proofs| { assert t.proofs[j] == s.proofs[j]; }
    }
  }

  lemma GrowingProofs(s: State, t: State)
    requires Grows(s, t)
    ensures s.proofs <= t.proofs
  {
  }

  lemma AuthoritiesMove(s: State, t: State, pid: nat)
    requires Inv(s) && Moved(s, t, pid)
    ensures AuthoritiesInv(t)
  {
    hide ThreadInv, ProofAdded, RevalidationAdded, InnerAdded, ProofsInv, RevalidationsInv, InnerInv, Kept;
    if t.authorities == s.authorities {
      AuthoritiesStay(s, t);
    } else {
      AuthorityJoins(s, t, pid);
    }
  }

  lemma AuthoritiesStay(s: State, t: State)
    requires AuthoritiesInv(s) && Grows(s, t) && t.authorities == s.authorities
    ensures AuthoritiesInv(t)
  {
    hide Kept, AuthorityOk;
    forall id | id in t.authorities ensures AuthorityOk(t, id) {
      AuthoritySurvives(s, t, id);
    }
  }

  /** A proof held by a call that had not ended backs no stored authority. */
  lemma ProofIsNew(s: State, pid: nat, n: nat)
    requires AuthoritiesInv(s) && Holds(s, pid, n) && pid in s.calls && Phase(s.calls[pid].pc) == 1
    ensures forall a :: a in s.authorities ==> s.authorities[a].proof != n
  {
    forall a | a in s.authorities ensures s.authorities[a].proof != n {
      assert AuthorityOk(s, a);
    }
  }

  lemma AuthorityJoins(s: State, t: State, pid: nat)
    requires AuthoritiesInv(s) && Grows(s, t) && AuthorityAdded(s, t, pid)
    ensures AuthoritiesInv(t)
  {
    hide Kept, AuthorityOk;
    var id :| && id !in s.authorities && id in t.authorities && t.authorities.Keys == s.authorities.Keys + {id}
              && AuthorityOk(t, id) && Holds(t, pid, t.authorities[id].proof) && t.proofs == s.proofs;
    ProofIsNew(s, pid, t.authorities[id].proof);
    forall a | a in t.authorities ensures AuthorityOk(t, a) {
      if a != id { AuthoritySurvives(s, t, a); }
    }
    assert forall a :: a in s.authorities ==> t.authorities[a] == s.authorities[a];
  }

  lemma RevalidationsMove(s: State, t: State, pid: nat)
    requires Inv(s) && Moved(s, t, pid)
    ensures RevalidationsInv(t)
  {
    hide ThreadInv, ProofAdded, AuthorityAdded, InnerAdded, ProofsInv, AuthoritiesInv, InnerInv, Kept;
    forall k | 0 <= k < |t.revalidations| ensures RevalidationOk(t, t.revalidations[k]) {
      if k < |s.revalidations| {
        assert t.revalidations[k] == s.revalidations[k];
        RevalidationSurvives(s, t, s.revalidations[k]);
      }
    }
    forall k, l | 0 <= k < l < |t.revalidations| && BothConsume(t.revalidations[k], t.revalidations[l])
      ensures t.revalidations[k].verified != t.revalidations[l].verified
    {
      assert t.revalidations[k] == s.revalidations[k];
      if l < |s.revalidations| {
        assert t.revalidations[l] == s.revalidations[l];
      } else {
        assert RevalidationOk(s, s.revalidations[k]);
      }
    }
  }

  lemma InnerMoves(s: State, t: State, pid: nat)
    requires Inv(s) && Moved(s, t, pid)
    ensures InnerInv(t)
  {
    hide ThreadInv, ProofAdded, AuthorityAdded, RevalidationAdded, ProofsInv, AuthoritiesInv, RevalidationsInv, Kept;
    forall i | 0 <= i < |t.inner| ensures InnerOk(t, t.inner[i]) {
      if i < |s.inner| {
        assert t.inner[i] == s.inner[i];
        InnerSurvives(s, t, s.inner[i]);
      }
    }
  }

  lemma MovesKeepInv(s: State, t: State, pid: nat)
    requires Inv(s) && Moved(s, t, pid)
    ensures Inv(t)
  {
    ProofsMove(s, t, pid);
    AuthoritiesMove(s, t, pid);
    RevalidationsMove(s, t, pid);
    InnerMoves(s, t, pid);
    hide ProofsInv, AuthoritiesInv, RevalidationsInv, InnerInv, ProofAdded, AuthorityAdded, RevalidationAdded, InnerAdded;
    forall p | p in t.calls ensures ThreadInv(t, p, t.calls[p]) {
      if p != pid {
        ThreadSurvives(s, t, p);
      }
    }
  }

  // ----- each step moves so

  /** Only the program counter of `pid` changes, forwards. */
  lemma Shifts(s: State, pid: nat, pc: Pc)
    requires pid in s.calls && Phase(s.calls[pid].pc) <= Phase(pc) && ThreadInv(s, pid, s.calls[pid].(pc := pc))
    ensures Moved(s, At(s, pid, pc), pid)
  {
    hide ProofAdded, AuthorityAdded, RevalidationAdded, InnerAdded, Phase;
    var t := At(s, pid, pc);
    hide ThreadInv;
    SameThreads(s, t, pid, t.calls[pid]);
  }

  /** A thread's invariant reads the stores only. */
  lemma SameThreads(s: State, t: State, pid: nat, u: Thread)
    requires s.proofs == t.proofs && s.authorities == t.authorities && s.issued == t.issued
    requires s.revalidations == t.revalidations && ThreadInv(s, pid, u)
    ensures ThreadInv(t, pid, u)
  {
  }

  lemma VerifyKeeps(s: State, pid: nat, p: Presentation)
    ensures var (t, proof) := Verify(s, pid, p);
            && t == s.(nonces := t.nonces, proofs := t.proofs)
            && (forall key, e :: Kept(s, key, e) ==> Kept(t, key, e))
            && (proof.None? ==> t.proofs == s.proofs)
            && (proof.Some? ==>
                  && proof.value == |s.proofs| && |t.proofs| == |s.proofs| + 1 && s.proofs <= t.proofs
                  && var q := t.proofs[|s.proofs|];
                     && q.pid == pid && q.at == s.clock && Kept(t, q.key, q.expiresAt)
                     && (forall e :: Kept(s, q.key, e) ==> e < s.clock))
  {
  }

  lemma ProofJoins(s: State, t: State)
    requires ProofsInv(s) && |t.proofs| == |s.proofs| + 1
    requires var q := t.proofs[|s.proofs|];
             && ProofOk(t, q) && q.at == s.clock && (forall e :: Kept(s, q.key, e) ==> e < s.clock)
             && q.pid in s.calls && Phase(s.calls[q.pid].pc) == 0
    ensures ProofAdded(s, t)
  {
    forall i | 0 <= i < |s.proofs| ensures Apart(s.proofs[i], t.proofs[|s.proofs|]) {
      assert ProofOk(s, s.proofs[i]);
    }
  }

  /** What a verification does to the stores, and to the phase of its call. */
  lemma ProofMoves(s: State, pid: nat, p: Presentation, pc: Pc)
    requires ProofsInv(s) && pid in s.calls && Phase(s.calls[pid].pc) == 0 && Phase(pc) >= 1
    ensures var t := At(Verify(s, pid, p).0, pid, pc);
            && Grows(s, t) && (t.proofs == s.proofs || ProofAdded(s, t))
            && t.authorities == s.authorities && t.revalidations == s.revalidations && t.inner == s.inner
  {
    VerifyKeeps(s, pid, p);
    var (u, proof) := Verify(s, pid, p);
    var t := At(u, pid, pc);
    hide Verify, Phase, ProofAdded, ProofsInv;
    KeptBy(s, u, t);
    if proof.Some? {
      ProofJoins(s, t);
    }
    hide Kept;
  }

  /** A verification from phase 0 to a later one. */
  lemma VerifyMoves(s: State, pid: nat, p: Presentation, pc: Pc)
    requires Inv(s) && pid in s.calls && Phase(s.calls[pid].pc) == 0 && Phase(pc) >= 1
    requires ThreadInv(Verify(s, pid, p).0, pid, s.calls[pid].(pc := pc))
    ensures Moved(s, At(Verify(s, pid, p).0, pid, pc), pid)
  {
    ProofMoves(s, pid, p, pc);
    VerifyKeeps(s, pid, p);
    hide Verify, ThreadInv, Inv, Grows, Kept, ProofAdded, AuthorityAdded, RevalidationAdded, InnerAdded;
    var t := At(Verify(s, pid, p).0, pid, pc);
    SameThreads(Verify(s, pid, p).0, t, pid, t.calls[pid]);
  }

  lemma KeptBy(s: State, u: State, t: State)
    requires (forall key, e :: Kept(s, key, e) ==> Kept(u, key, e)) && t.nonces == u.nonces && t.clock == u.clock
    ensures forall key, e :: Kept(s, key, e) ==> Kept(t, key, e)
    ensures forall key, e :: Kept(u, key, e) ==> Kept(t, key, e)
  {
  }

  lemma SaveMoves(s: State, pid: nat, fault: Fault, id: string, record: Authority)
    requires pid in s.calls && Phase(s.calls[pid].pc) == 1 && Holds(s, pid, record.proof) && id in s.issued
    requires record.binding == s.proofs[record.proof].binding && record.action == Bound(record.action.core, record.binding)
    requires s.issued[id].Some? ==>
               && s.issued[id].value in s.authorities
               && SameIdentity(s.authorities[s.issued[id].value].binding, record.binding)
               && s.authorities[s.issued[id].value].action.core == record.action.core
    ensures Moved(s, SaveAuthority(s, pid, fault, id, record), pid)
  {
    var t := SaveAuthority(s, pid, fault, id, record);
    if fault == LostRequest || (id in s.authorities && s.authorities[id] != record) {
      Shifts(s, pid, Done(false));
    } else if id in s.authorities {
      assert s.authorities[id := record] == s.authorities;
      Shifts(s, pid, Done(fault == NoFault));
    } else {
      KeptBy(s, s, t);
      assert t.authorities.Keys == s.authorities.Keys + {id};
      assert AuthorityOk(t, id);
      hide ProofAdded, RevalidationAdded, InnerAdded, SameIdentity, Kept;
    }
  }

  lemma AppendMoves(s: State, pid: nat, fault: Fault, record: Revalidation, pc: Pc)
    requires pid in s.calls && Phase(s.calls[pid].pc) == 1 && Phase(pc) >= 1
    requires record.verified.Some? ==> Holds(s, pid, record.verified.value)
    requires var t := At(s.(revalidations := s.revalidations + [record]), pid, if fault == NoFault then pc else Done(false));
             RevalidationOk(t, record) && ThreadInv(t, pid, t.calls[pid])
    ensures Moved(s, Append(s, pid, fault, record, pc), pid)
  {
    var t := Append(s, pid, fault, record, pc);
    if fault == LostRequest {
      Shifts(s, pid, Done(false));
    } else {
      KeptBy(s, s, t);
      assert t.revalidations[|s.revalidations|] == record;
      hide ProofAdded, AuthorityAdded, InnerAdded, Kept, ThreadInv, RevalidationOk;
    }
  }

  lemma ProviderMoves(s: State, pid: nat, w: Weather, parent: Option<string>, saving: (string, Action) -> Pc)
    requires pid in s.calls && Phase(s.calls[pid].pc) == 1
    requires forall id, hash :: Phase(saving(id, hash)) >= 1
    requires forall id, hash :: id !in s.issued ==>
               ThreadInv(s.(issued := s.issued[id := parent]), pid, s.calls[pid].(pc := saving(id, hash)))
    ensures Moved(s, AskProvider(s, pid, w, parent, Done(false), saving), pid)
  {
    var t := AskProvider(s, pid, w, parent, Done(false), saving);
    if w.fault == LostRequest || w.decision.None? || w.decision.value.0 in s.issued {
      Shifts(s, pid, Done(false));
    } else {
      var (id, hash) := w.decision.value;
      var u := s.(issued := s.issued[id := parent]);
      KeptBy(s, s, t);
      if w.fault != LostAnswer { SameThreads(u, t, pid, t.calls[pid]); }
      hide ProofAdded, AuthorityAdded, RevalidationAdded, InnerAdded, Kept;
    }
  }

  lemma InnerCallMoves(s: State, pid: nat)
    requires pid in s.calls && s.calls[pid].pc.CallingInner? && ThreadInv(s, pid, s.calls[pid])
    ensures Moved(s, CallInner(s, pid), pid)
  {
    var t := CallInner(s, pid);
    KeptBy(s, s, t);
    assert s.revalidations[..|s.revalidations|] == s.revalidations;
    assert InnerOk(t, t.inner[|s.inner|]);
    hide ProofAdded, AuthorityAdded, RevalidationAdded, Kept, Revalidated;
  }

  lemma StartMoves(s: State, pid: nat, w: Weather)
    requires Inv(s) && pid in s.calls && s.calls[pid].pc.Starting?
    ensures Moved(s, Start(s, pid, w), pid)
  {
    match s.calls[pid].request
    case Evaluate(_) =>
      VerifyKeeps(s, pid, w.presentation);
      hide Verify;
      var (t, proof) := Verify(s, pid, w.presentation);
      VerifyMoves(s, pid, w.presentation, if proof.Some? then Evaluating(proof.value) else Blocking);
    case Resolve(id) =>
      hide Moved;
      Shifts(s, pid, Start(s, pid, w).calls[pid].pc);
    case Consume(id, hash, _) =>
      hide Moved;
      Shifts(s, pid, Start(s, pid, w).calls[pid].pc);
  }

  lemma FreshMoves(s: State, pid: nat, w: Weather, stored: Authority, pc: nat -> Pc)
    requires Inv(s) && pid in s.calls && Phase(s.calls[pid].pc) == 0 && StoredFor(s, s.calls[pid].request, stored)
    requires forall n: nat :: Phase(pc(n)) >= 1
    requires forall n: nat, u: State :: u.authorities == s.authorities && Joined(u, pid, s.calls[pid].request, stored, n) ==>
               ThreadInv(u, pid, s.calls[pid].(pc := pc(n)))
    ensures Moved(s, FreshAuthority(s, pid, w, stored, pc), pid)
  {
    VerifyKeeps(s, pid, w.presentation);
    hide Verify, Moved, Inv;
    var (t, proof) := Verify(s, pid, w.presentation);
    if proof.Some? && SameIdentity(stored.binding, t.proofs[proof.value].binding) {
      assert Joined(t, pid, s.calls[pid].request, stored, proof.value);
      VerifyMoves(s, pid, w.presentation, pc(proof.value));
    } else {
      VerifyMoves(s, pid, w.presentation, Noting(stored));
    }
  }

  lemma CheckMoves(b: Backend, s: State, pid: nat, w: Weather, stored: Authority, n: nat)
    requires pid in s.calls && s.calls[pid].pc == Checking(stored, n) && ThreadInv(s, pid, s.calls[pid])
    ensures Moved(s, Check(b, s, pid, w, stored, n), pid)
  {
    var request := s.calls[pid].request;
    if w.fault == LostRequest {
      Shifts(s, pid, Done(false));
    } else if Revalidated(s.revalidations, request.decisionId, request.actionHash, request.executionRef) {
      Shifts(s, pid, if w.fault == NoFault then CallingInner else Done(false));
    } else if b.Memory? {
      Shifts(s, pid, Pushing(stored, n));
    } else {
      PushMoves(s, pid, w.fault, stored, n);
    }
  }

  /** The verified record of a consumption goes in, and the call may consume. */
  lemma PushMoves(s: State, pid: nat, fault: Fault, stored: Authority, n: nat)
    requires pid in s.calls && s.calls[pid].request.Consume? && Phase(s.calls[pid].pc) == 1
    requires Joined(s, pid, s.calls[pid].request, stored, n)
    ensures Moved(s, Append(s, pid, fault, RecordFor(s.calls[pid].request, stored, Some(n)), CallingInner), pid)
  {
    var request := s.calls[pid].request;
    var record := RecordFor(request, stored, Some(n));
    var log := s.revalidations + [record];
    assert Revalidates(log[|s.revalidations|], request.decisionId, request.actionHash, request.executionRef);
    AppendMoves(s, pid, fault, record, CallingInner);
  }

  lemma AdvanceMoves(b: Backend, s: State, pid: nat, w: Weather)
    requires Inv(s) && pid in s.calls
    ensures Moved(s, Advance(b, s, pid, w), pid)
  {
    var request := s.calls[pid].request;
    assert ThreadInv(s, pid, s.calls[pid]);
    hide Moved, Verify, Revalidated, Start, Check, CallInner, FreshAuthority, AskProvider, SaveAuthority, Append, Inv;
    match s.calls[pid].pc
    case Starting => StartMoves(s, pid, w);
    case Evaluating(_) => AskMoves(b, s, pid, w);
    case Blocking => AskMoves(b, s, pid, w);
    case SavingFirst(_, _, _) => SavingMoves(b, s, pid, w);
    case VerifyingApproval(stored) => FreshMoves(s, pid, w, stored, (n: nat) => AppendingApproval(stored, n));
    case Noting(stored) => NotingMoves(s, pid, w.fault, stored);
    case AppendingApproval(stored, n) => ApprovalMoves(s, pid, w.fault, stored, n);
    case Resolving(_, _) => AskMoves(b, s, pid, w);
    case SavingNext(_, _, _, _) => SavingMoves(b, s, pid, w);
    case _ => ConsumingMoves(b, s, pid, w);
  }

  lemma ConsumingMoves(b: Backend, s: State, pid: nat, w: Weather)
    requires Inv(s) && pid in s.calls && ThreadInv(s, pid, s.calls[pid])
    requires var pc := s.calls[pid].pc;
             pc.FindingPrior? || pc.VerifyingConsumption? || pc.Checking? || pc.Pushing? || pc.CallingInner? || pc.Done?
    ensures Moved(s, Advance(b, s, pid, w), pid)
  {
    hide Moved, Verify, Revalidated, Start, Check, CallInner, FreshAuthority, AskProvider, SaveAuthority, Append, Inv;
    match s.calls[pid].pc
    case FindingPrior(stored) => PriorMoves(b, s, pid, w);
    case VerifyingConsumption(stored) => FreshMoves(s, pid, w, stored, (n: nat) => Checking(stored, n));
    case Checking(stored, n) => CheckMoves(b, s, pid, w, stored, n);
    case Pushing(stored, n) => PushMoves(s, pid, w.fault, stored, n);
    case CallingInner => InnerCallMoves(s, pid);
    case Done(passed) => Stays(s, pid);
  }

  lemma AskMoves(b: Backend, s: State, pid: nat, w: Weather)
    requires pid in s.calls && ThreadInv(s, pid, s.calls[pid])
    requires s.calls[pid].pc.Evaluating? || s.calls[pid].pc.Blocking? || s.calls[pid].pc.Resolving?
    ensures Moved(s, Advance(b, s, pid, w), pid)
  {
    hide Moved, AskProvider;
    match s.calls[pid].pc
    case Evaluating(n) => ProviderMoves(s, pid, w, None, (id, hash) => SavingFirst(n, id, hash));
    case Blocking => ProviderMoves(s, pid, w, None, (id, hash) => Done(false));
    case Resolving(stored, n) =>
      ProviderMoves(s, pid, w, Some(s.calls[pid].request.decisionId), (id, hash) => SavingNext(stored, n, id, hash));
  }

  lemma SavingMoves(b: Backend, s: State, pid: nat, w: Weather)
    requires pid in s.calls && ThreadInv(s, pid, s.calls[pid])
    requires s.calls[pid].pc.SavingFirst? || s.calls[pid].pc.SavingNext?
    ensures Moved(s, Advance(b, s, pid, w), pid)
  {
    hide Moved, SaveAuthority;
    match s.calls[pid].pc
    case SavingFirst(n, id, hash) =>
      SaveMoves(s, pid, w.fault, id,
                Authority(hash, Bound(s.calls[pid].request.core, s.proofs[n].binding), s.proofs[n].binding, n));
    case SavingNext(stored, n, id, hash) =>
      SaveMoves(s, pid, w.fault, id, Authority(hash, Bound(Core(stored), s.proofs[n].binding), s.proofs[n].binding, n));
  }

  lemma NotingMoves(s: State, pid: nat, fault: Fault, stored: Authority)
    requires pid in s.calls && s.calls[pid].pc == Noting(stored) && StoredFor(s, s.calls[pid].request, stored)
    ensures Moved(s, Append(s, pid, fault, RecordFor(s.calls[pid].request, stored, None), Done(false)), pid)
  {
    AppendMoves(s, pid, fault, RecordFor(s.calls[pid].request, stored, None), Done(false));
  }

  lemma ApprovalMoves(s: State, pid: nat, fault: Fault, stored: Authority, n: nat)
    requires pid in s.calls && s.calls[pid].request.Resolve? && Phase(s.calls[pid].pc) == 1
    requires Joined(s, pid, s.calls[pid].request, stored, n)
    ensures Moved(s, Append(s, pid, fault, RecordFor(s.calls[pid].request, stored, Some(n)), Resolving(stored, n)), pid)
  {
    AppendMoves(s, pid, fault, RecordFor(s.calls[pid].request, stored, Some(n)), Resolving(stored, n));
  }

  lemma PriorMoves(b: Backend, s: State, pid: nat, w: Weather)
    requires pid in s.calls && s.calls[pid].pc.FindingPrior? && ThreadInv(s, pid, s.calls[pid])
    ensures Moved(s, Advance(b, s, pid, w), pid)
  {
    hide Moved, Revalidated;
    Shifts(s, pid, Advance(b, s, pid, w).calls[pid].pc);
  }

  lemma Stays(s: State, pid: nat)
    requires pid in s.calls && ThreadInv(s, pid, s.calls[pid])
    ensures Moved(s, s, pid)
  {
  }

  lemma ExecKeepsInv(b: Backend, s: State, l: Label)
    requires Inv(s)
    ensures Inv(Exec(b, s, l)) && Grows(s, Exec(b, s, l))
  {
    var t := Exec(b, s, l);
    match l
    case Go(pid, w) =>
      if pid in s.calls {
        AdvanceMoves(b, s, pid, w);
        MovesKeepInv(s, t, pid);
      }
    case Crash(pid) =>
      if pid in s.calls {
        Shifts(s, pid, Done(false));
        MovesKeepInv(s, t, pid);
      }
    case Begin(pid, request) =>
      if pid !in s.calls {
        BeginMoves(s, pid, request);
        MovesKeepInv(s, t, pid);
      }
    case _ => TimeKeepsInv(b, s, l);
  }

  lemma BeginMoves(s: State, pid: nat, request: Request)
    requires Inv(s) && pid !in s.calls
    ensures Moved(s, s.(calls := s.calls[pid := Thread(request, Starting)]), pid)
  {
    KeptBy(s, s, s.(calls := s.calls[pid := Thread(request, Starting)]));
  }

  /** Clocks, purges and proofs presented elsewhere touch the clock and the nonces only. */
  lemma TimeKeepsInv(b: Backend, s: State, l: Label)
    requires Inv(s) && (l.Tick? || l.PurgeNonces? || l.OtherProof?)
    ensures Inv(Exec(b, s, l)) && Grows(s, Exec(b, s, l))
  {
    var t := Exec(b, s, l);
    forall key, e | Kept(s, key, e) ensures Kept(t, key, e) {
    }
    hide Inv, AuthorityOk, RevalidationOk, InnerOk, ThreadInv;
    assert Grows(s, t);
    Unhurt(s, t);
  }

  lemma Unhurt(s: State, t: State)
    requires Inv(s) && Grows(s, t) && t == s.(clock := t.clock, nonces := t.nonces)
    ensures Inv(t)
  {
    hide Kept;
    assert ProofsInv(t) by {
      forall i | 0 <= i < |t.proofs| ensures ProofOk(t, t.proofs[i]) {
        ProofSurvives(s, t, s.proofs[i]);
      }
    }
    assert forall pid :: pid in t.calls ==> ThreadInv(t, pid, t.calls[pid]) by {
      forall pid | pid in t.calls ensures ThreadInv(t, pid, t.calls[pid]) {
        SameThreads(s, t, pid, s.calls[pid]);
      }
    }
  }

  lemma {:induction false} RunKeepsInv(b: Backend, s: State, labels: seq<Label>)
    requires Inv(s)
    ensures Inv(Run(b, s, labels)) && Grows(s, Run(b, s, labels))
    decreases |labels|
  {
    hide Inv, Exec;
    if labels != [] {
      var t := Exec(b, s, labels[0]);
      ExecKeepsInv(b, s, labels[0]);
      RunKeepsInv(b, t, labels[1..]);
      GrowsOn(s, t, Run(b, s, labels));
    }
  }

  lemma GrowsOn(s: State, t: State, u: State)
    requires Grows(s, t) && Grows(t, u)
    ensures Grows(s, u)
  {
    hide Kept, Phase;
  }

  // ----- safety of every run

  /** Every inner consumption comes after a stored verified revalidation of exactly its decision, action and
      reference, whose verification has the identity the decision was made under. */
  lemma ConsumptionsAreRevalidated(b: Backend, labels: seq<Label>, c: InnerCall) returns (k: nat)
    requires c in Run(b, INITIAL, labels).inner
    ensures var s := Run(b, INITIAL, labels);
            && k < c.after <= |s.revalidations|
            && Revalidates(s.revalidations[k], c.decisionId, c.actionHash, c.executionRef)
            && c.decisionId in s.authorities && s.authorities[c.decisionId].actionHash == c.actionHash
            && s.revalidations[k].verified.value < |s.proofs|
            && SameIdentity(s.authorities[c.decisionId].binding, s.proofs[s.revalidations[k].verified.value].binding)
  {
    RunKeepsInv(b, INITIAL, labels);
    var s := Run(b, INITIAL, labels);
    var i :| 0 <= i < |s.inner| && s.inner[i] == c;
    assert InnerOk(s, s.inner[i]);
    k :| 0 <= k < c.after && Revalidates(s.revalidations[..c.after][k], c.decisionId, c.actionHash, c.executionRef);
    assert RevalidationOk(s, s.revalidations[k]);
  }

  /** A superseding decision has the identity and the action of the request it supersedes; both records are as first
      stored ever after. */
  lemma IdentitySurvivesSupersession(b: Backend, labels: seq<Label>, id: string)
    requires var s := Run(b, INITIAL, labels); id in s.authorities && id in s.issued && s.issued[id].Some?
    ensures var s := Run(b, INITIAL, labels);
            && s.issued[id].value in s.authorities
            && SameIdentity(s.authorities[s.issued[id].value].binding, s.authorities[id].binding)
            && s.authorities[s.issued[id].value].action.core == s.authorities[id].action.core
  {
    RunKeepsInv(b, INITIAL, labels);
    assert AuthorityOk(Run(b, INITIAL, labels), id);
  }

  lemma RecordsAreImmutable(b: Backend, labels: seq<Label>, more: seq<Label>, id: string)
    requires id in Run(b, INITIAL, labels).authorities
    ensures var s := Run(b, INITIAL, labels);
            var t := Run(b, s, more);
            id in t.authorities && t.authorities[id] == s.authorities[id] && s.revalidations <= t.revalidations
  {
    RunKeepsInv(b, INITIAL, labels);
    RunKeepsInv(b, Run(b, INITIAL, labels), more);
  }

  /** Each stored authority rests on a verification of its own, as does each verified consumption record, and no two
      verifications used one nonce within its retention. */
  lemma AuthoritiesHaveTheirOwnProofs(b: Backend, labels: seq<Label>, a: string, c: string)
    requires var s := Run(b, INITIAL, labels); a in s.authorities && c in s.authorities && a != c
    ensures var s := Run(b, INITIAL, labels);
            var m, n := s.authorities[a].proof, s.authorities[c].proof;
            && m < |s.proofs| && n < |s.proofs| && m != n
            && s.proofs[m].binding == s.authorities[a].binding && s.proofs[n].binding == s.authorities[c].binding
            && (m < n ==> Apart(s.proofs[m], s.proofs[n])) && (n < m ==> Apart(s.proofs[n], s.proofs[m]))
  {
    RunKeepsInv(b, INITIAL, labels);
    var s := Run(b, INITIAL, labels);
    assert AuthorityOk(s, a) && AuthorityOk(s, c);
    hide Apart, AuthorityOk;
  }

  lemma RevalidationsHaveTheirOwnProofs(b: Backend, labels: seq<Label>, k: nat, l: nat)
    requires var s := Run(b, INITIAL, labels);
             k < l < |s.revalidations| && BothConsume(s.revalidations[k], s.revalidations[l])
    ensures var s := Run(b, INITIAL, labels);
            var m, n := s.revalidations[k].verified.value, s.revalidations[l].verified.value;
            && m < |s.proofs| && n < |s.proofs| && m != n
            && (m < n ==> Apart(s.proofs[m], s.proofs[n])) && (n < m ==> Apart(s.proofs[n], s.proofs[m]))
  {
    RunKeepsInv(b, INITIAL, labels);
    var s := Run(b, INITIAL, labels);
    assert RevalidationOk(s, s.revalidations[k]) && RevalidationOk(s, s.revalidations[l]);
    hide Apart;
  }
}
