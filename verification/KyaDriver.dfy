/** The in-memory KYA authority store and the gate's three operations, in the form of the source, whatever their awaits
    meet. */
module KyaDriver {
  import opened Prelude
  import N = KyaNonces
  import opened Kya

  class InMemoryKyaAuthorityStateStore {
    var decisions: map<string, Authority>
    var revalidations: seq<Revalidation>

    constructor ()
      ensures decisions == map[] && revalidations == []
    {
      decisions, revalidations := map[], [];
    }

    /** Immutable: the same record again changes nothing, another one is refused. */
    method SaveDecisionAuthority(id: string, record: Authority) returns (saved: bool)
      modifies `decisions
      ensures saved <==> id in old(decisions) ==> old(decisions)[id] == record
      ensures decisions == if saved then old(decisions)[id := record] else old(decisions)
    {
      if id in decisions && decisions[id] != record {
        return false;
      }
      decisions := decisions[id := record];
      saved := true;
    }

    method GetDecisionAuthority(id: string) returns (record: Option<Authority>)
      ensures record == if id in decisions then Some(decisions[id]) else None
    {
      record := if id in decisions then Some(decisions[id]) else None;
    }

    /** The first verified consumption record of the triple. */
    method GetSuccessfulExecutionRevalidation(id: string, hash: Action, ref: string) returns (found: Option<Revalidation>)
      ensures found.Some? <==> Revalidated(revalidations, id, hash, ref)
      ensures found.Some? ==> exists k :: && 0 <= k < |revalidations| && revalidations[k] == found.value
                                          && Revalidates(revalidations[k], id, hash, ref)
                                          && !Revalidated(revalidations[..k], id, hash, ref)
    {
      for k := 0 to |revalidations|
        invariant !Revalidated(revalidations[..k], id, hash, ref)
      {
        if Revalidates(revalidations[k], id, hash, ref) {
          return Some(revalidations[k]);
        }
        assert revalidations[..k + 1] == revalidations[..k] + [revalidations[k]];
      }
      assert revalidations[..|revalidations|] == revalidations;
      found := None;
    }

    method AppendRevalidation(record: Revalidation)
      modifies `revalidations
      ensures var once := record.kind == Consumption && record.verified.Some? && record.executionRef.Some?
                          && Revalidated(old(revalidations), record.decisionId, record.actionHash, record.executionRef.value);
              revalidations == if once then old(revalidations) else old(revalidations) + [record]
    {
      if record.kind == Consumption && record.verified.Some? && record.executionRef.Some? {
        var existing := GetSuccessfulExecutionRevalidation(record.decisionId, record.actionHash, record.executionRef.value);
        if existing.Some? {
          return;
        }
      }
      Push(record);
    }

    /** The second half, after the await. */
    method Push(record: Revalidation)
      modifies `revalidations
      ensures revalidations == old(revalidations) + [record]
    {
      revalidations := revalidations + [record];
    }
  }

  /** The verifier: it accepts a presentation only after the nonce store called its nonce fresh. */
  class KyaAuthorityVerifier {
    const nonceStore: N.InMemoryKyaNonceStore
    var proofs: seq<Proof>

    constructor (nonceStore: N.InMemoryKyaNonceStore)
      ensures this.nonceStore == nonceStore && proofs == []
    {
      this.nonceStore, proofs := nonceStore, [];
    }

    /** The verifier's part of the machine's state. */
    ghost function Seen(now: int): State
      reads this, nonceStore
    {
      State(now, nonceStore.nonces, proofs, map[], [], map[], [], map[])
    }

    method Verify(pid: nat, p: Presentation, now: int) returns (proof: Option<nat>)
      modifies this, nonceStore
      ensures (Seen(now), proof) == Kya.Verify(old(Seen(now)), pid, p)
      ensures proof.Some? ==> proof.value < |proofs| && p.Presented? && proofs[proof.value].binding == p.binding
    {
      if p.Bad? {
        return None;
      }
      var consumed := nonceStore.Consume(p.key, now, p.expiresAt);
      if !consumed || p.failsLater {
        return None;
      }
      proof := Some(|proofs|);
      proofs := proofs + [Proof(pid, p.key, now, p.expiresAt, p.binding)];
    }
  }

  /** The wrapped provider: what it issued, and which consumptions reached it. */
  class InnerProvider {
    var issued: map<string, Option<string>>
    var consumed: seq<InnerCall>

    constructor ()
      ensures issued == map[] && consumed == []
    {
      issued, consumed := map[], [];
    }

    /** A new decision, unless the provider refuses. */
    method Issue(decision: Option<(string, Action)>, parent: Option<string>) returns (made: bool)
      modifies `issued
      ensures made <==> decision.Some? && decision.value.0 !in old(issued)
      ensures issued == if made then old(issued)[decision.value.0 := parent] else old(issued)
    {
      made := decision.Some? && decision.value.0 !in issued;
      if made {
        issued := issued[decision.value.0 := parent];
      }
    }

    method Consume(c: InnerCall)
      modifies `consumed
      ensures consumed == old(consumed) + [c]
    {
      consumed := consumed + [c];
    }
  }

  class KyaAuthorityGate {
    const verifier: KyaAuthorityVerifier
    const stateStore: InMemoryKyaAuthorityStateStore
    const provider: InnerProvider

    constructor (verifier: KyaAuthorityVerifier, stateStore: InMemoryKyaAuthorityStateStore, provider: InnerProvider)
      ensures this.verifier == verifier && this.stateStore == stateStore && this.provider == provider
    {
      this.verifier, this.stateStore, this.provider := verifier, stateStore, provider;
    }

    /** The machine with this one call at `pc`, over what the stores hold now. */
    ghost function Now(pid: nat, now: int, request: Request, pc: Pc): State
      reads verifier, verifier.nonceStore, stateStore, provider
    {
      State(now, verifier.nonceStore.nonces, verifier.proofs, stateStore.decisions, stateStore.revalidations,
            provider.issued, provider.consumed, map[pid := Thread(request, pc)])
    }

    // ----- one await each

    method VerifyPresentation(pid: nat, now: int, core: string, w: Weather) returns (pc: Pc)
      modifies verifier, verifier.nonceStore
      ensures Now(pid, now, Request.Evaluate(core), pc)
           == Advance(Memory, old(Now(pid, now, Request.Evaluate(core), Starting)), pid, w)
      ensures pc.Blocking? || (pc.Evaluating? && pc.proof < |verifier.proofs|)
    {
      ghost var s := Now(pid, now, Request.Evaluate(core), Starting);
      ghost var v := verifier.Seen(now);
      var proof := verifier.Verify(pid, w.presentation, now);
      pc := if proof.Some? then Evaluating(proof.value) else Blocking;
      VerifyOnly(s, v, pid, w.presentation);
      hide Verify;
      Equal(Now(pid, now, Request.Evaluate(core), pc), Advance(Memory, s, pid, w), pid);
    }

    /** The provider is asked to evaluate, to issue a BLOCK, or to resolve the approval. */
    method AskDecision(pid: nat, now: int, request: Request, at: Pc, w: Weather) returns (pc: Pc)
      requires Asking(request, at)
      modifies provider`issued
      ensures Now(pid, now, request, pc) == Advance(Memory, old(Now(pid, now, request, at)), pid, w)
      ensures pc.Done? || (at.Evaluating? && pc.SavingFirst? && pc.proof == at.proof)
                       || (at.Resolving? && pc.SavingNext? && pc.proof == at.proof)
    {
      hide Advance;
      ghost var s := Now(pid, now, request, at);
      AskMoves(s, pid, request, at, w);
      pc := Done(false);
      if w.fault != LostRequest {
        var made := provider.Issue(w.decision, ParentOf(request, at));
        if made && w.fault == NoFault {
          pc := NextOf(at, w.decision.value.0, w.decision.value.1);
        }
      }
      Equal(Now(pid, now, request, pc), Advance(Memory, s, pid, w), pid);
    }

    /** The authority of the decision that was made. */
    method SaveDecision(pid: nat, now: int, request: Request, at: Pc, w: Weather) returns (pc: Pc)
      requires (at.SavingFirst? && request.Evaluate?) || at.SavingNext?
      requires at.proof < |verifier.proofs|
      modifies stateStore`decisions
      ensures Now(pid, now, request, pc) == Advance(Memory, old(Now(pid, now, request, at)), pid, w) && pc.Done?
    {
      hide Advance;
      ghost var s := Now(pid, now, request, at);
      SaveMoves(s, pid, request, at, w);
      var binding := verifier.proofs[at.proof].binding;
      var core := if at.SavingFirst? then request.core else Core(at.stored);
      pc := Done(false);
      if w.fault != LostRequest {
        var saved := stateStore.SaveDecisionAuthority(at.id, Authority(at.hash, Bound(core, binding), binding, at.proof));
        pc := Done(saved && w.fault == NoFault);
      }
      Equal(Now(pid, now, request, pc), Advance(Memory, s, pid, w), pid);
    }

    /** The stored authority, and for a consumption whether it is of this very action. */
    method FindAuthority(pid: nat, now: int, request: Request, w: Weather) returns (pc: Pc)
      requires !request.Evaluate?
      ensures Now(pid, now, request, pc) == Advance(Memory, Now(pid, now, request, Starting), pid, w)
      ensures pc.Done? || (request.Resolve? && pc.VerifyingApproval?) || (request.Consume? && pc.FindingPrior?)
    {
      pc := Done(false);
      if w.fault == NoFault {
        var record := stateStore.GetDecisionAuthority(request.decisionId);
        if record.Some? {
          if request.Resolve? {
            pc := VerifyingApproval(record.value);
          } else if record.value.actionHash == request.actionHash && record.value.action == record.value.actionHash {
            pc := FindingPrior(record.value);
          }
        }
      }
      Equal(Now(pid, now, request, pc), Advance(Memory, Now(pid, now, request, Starting), pid, w), pid);
    }

    /** Verification for a stored decision, under its identity. */
    method VerifyFresh(pid: nat, now: int, request: Request, at: Pc, w: Weather) returns (pc: Pc)
      requires at.VerifyingApproval? || at.VerifyingConsumption?
      modifies verifier, verifier.nonceStore
      ensures Now(pid, now, request, pc) == Advance(Memory, old(Now(pid, now, request, at)), pid, w)
      ensures pc == Noting(at.stored)
           || (at.VerifyingApproval? && pc.AppendingApproval? && pc.stored == at.stored && pc.proof < |verifier.proofs|)
           || (at.VerifyingConsumption? && pc.Checking? && pc.stored == at.stored && pc.proof < |verifier.proofs|)
    {
      hide Advance, SameIdentity, Kya.Verify;
      ghost var s := Now(pid, now, request, at);
      ghost var v := verifier.Seen(now);
      FreshMoves(s, pid, request, at, w);
      VerifyOnly(s, v, pid, w.presentation);
      var proof := verifier.Verify(pid, w.presentation, now);
      pc := Noting(at.stored);
      if proof.Some? && SameIdentity(at.stored.binding, verifier.proofs[proof.value].binding) {
        pc := if at.VerifyingApproval? then AppendingApproval(at.stored, proof.value) else Checking(at.stored, proof.value);
      }
      Equal(Now(pid, now, request, pc), Advance(Memory, s, pid, w), pid);
    }

    /** The rejected record. */
    method NoteRejection(pid: nat, now: int, request: Request, stored: Authority, w: Weather) returns (pc: Pc)
      requires !request.Evaluate?
      modifies stateStore`revalidations
      ensures Now(pid, now, request, pc) == Advance(Memory, old(Now(pid, now, request, Noting(stored))), pid, w) && pc.Done?
    {
      ghost var s := Now(pid, now, request, Noting(stored));
      pc := Done(false);
      if w.fault != LostRequest {
        stateStore.AppendRevalidation(RecordFor(request, stored, None));
      }
      Equal(Now(pid, now, request, pc), Advance(Memory, s, pid, w), pid);
    }

    /** The verified record of an approval. */
    method AppendApproval(pid: nat, now: int, request: Request, stored: Authority, n: nat, w: Weather) returns (pc: Pc)
      requires request.Resolve?
      modifies stateStore`revalidations
      ensures Now(pid, now, request, pc)
           == Advance(Memory, old(Now(pid, now, request, AppendingApproval(stored, n))), pid, w)
      ensures pc.Done? || pc == Resolving(stored, n)
    {
      ghost var s := Now(pid, now, request, AppendingApproval(stored, n));
      pc := Done(false);
      if w.fault != LostRequest {
        stateStore.AppendRevalidation(RecordFor(request, stored, Some(n)));
        if w.fault == NoFault {
          pc := Resolving(stored, n);
        }
      }
      Equal(Now(pid, now, request, pc), Advance(Memory, s, pid, w), pid);
    }

    /** An earlier record of the triple lets the consumption through. */
    method FindPrior(pid: nat, now: int, request: Request, stored: Authority, w: Weather) returns (pc: Pc)
      requires request.Consume?
      ensures Now(pid, now, request, pc) == Advance(Memory, Now(pid, now, request, FindingPrior(stored)), pid, w)
      ensures pc.Done? || pc.CallingInner? || pc == VerifyingConsumption(stored)
    {
      hide Revalidated;
      pc := Done(false);
      if w.fault == NoFault {
        var prior := stateStore.GetSuccessfulExecutionRevalidation(request.decisionId, request.actionHash,
                                                                   request.executionRef);
        pc := if prior.Some? then CallingInner else VerifyingConsumption(stored);
      }
      Equal(Now(pid, now, request, pc), Advance(Memory, Now(pid, now, request, FindingPrior(stored)), pid, w), pid);
    }

    /** The first half of appending the verified record of a consumption. */
    method CheckAgain(pid: nat, now: int, request: Request, stored: Authority, n: nat, w: Weather) returns (pc: Pc)
      requires request.Consume?
      ensures Now(pid, now, request, pc) == Advance(Memory, Now(pid, now, request, Checking(stored, n)), pid, w)
      ensures pc.Done? || pc.CallingInner? || pc == Pushing(stored, n)
    {
      hide Revalidated;
      pc := Done(false);
      if w.fault != LostRequest {
        var existing := stateStore.GetSuccessfulExecutionRevalidation(request.decisionId, request.actionHash,
                                                                      request.executionRef);
        pc := if existing.None? then Pushing(stored, n) else if w.fault == NoFault then CallingInner else Done(false);
      }
      Equal(Now(pid, now, request, pc), Advance(Memory, Now(pid, now, request, Checking(stored, n)), pid, w), pid);
    }

    /** The second half. */
    method PushRecord(pid: nat, now: int, request: Request, stored: Authority, n: nat, w: Weather) returns (pc: Pc)
      requires request.Consume?
      modifies stateStore`revalidations
      ensures Now(pid, now, request, pc) == Advance(Memory, old(Now(pid, now, request, Pushing(stored, n))), pid, w)
      ensures pc.Done? || pc.CallingInner?
    {
      ghost var s := Now(pid, now, request, Pushing(stored, n));
      pc := Done(false);
      if w.fault != LostRequest {
        stateStore.Push(RecordFor(request, stored, Some(n)));
        if w.fault == NoFault {
          pc := CallingInner;
        }
      }
      Equal(Now(pid, now, request, pc), Advance(Memory, s, pid, w), pid);
    }

    method CallProvider(pid: nat, now: int, request: Request, w: Weather) returns (pc: Pc)
      requires request.Consume?
      modifies provider`consumed
      ensures Now(pid, now, request, pc) == Advance(Memory, old(Now(pid, now, request, CallingInner)), pid, w) && pc.Done?
    {
      ghost var s := Now(pid, now, request, CallingInner);
      provider.Consume(InnerCall(request.decisionId, request.actionHash, request.executionRef,
                                 |stateStore.revalidations|));
      pc := Done(true);
      Equal(Now(pid, now, request, pc), Advance(Memory, s, pid, w), pid);
    }

    // ----- the operations

    /** `evaluate`: the stores and the outcome are those of the machine's call. */
    method Evaluate(pid: nat, now: int, core: string, sky: Sky, ghost n: nat) returns (passed: bool)
      requires n >= 3
      modifies verifier, verifier.nonceStore, stateStore`decisions, provider`issued
      ensures Now(pid, now, Request.Evaluate(core), Done(passed))
           == Steered(old(Now(pid, now, Request.Evaluate(core), Starting)), pid, sky, n)
    {
      hide Advance, Steered;
      var request := Request.Evaluate(core);
      ghost var start := Now(pid, now, request, Starting);
      var pc := VerifyPresentation(pid, now, core, sky(Starting));
      Took(start, start, pid, 0, Now(pid, now, request, pc), sky, n);
      ghost var s := Now(pid, now, request, pc);
      pc := AskDecision(pid, now, request, pc, sky(pc));
      Took(start, s, pid, 1, Now(pid, now, request, pc), sky, n);
      if pc.SavingFirst? {
        s := Now(pid, now, request, pc);
        pc := SaveDecision(pid, now, request, pc, sky(pc));
        Took(start, s, pid, 2, Now(pid, now, request, pc), sky, n);
      }
      passed := pc.passed;
    }

    /** `resolveApproval`. */
    method ResolveApproval(pid: nat, now: int, id: string, sky: Sky, ghost n: nat) returns (passed: bool)
      requires n >= 5
      modifies verifier, verifier.nonceStore, stateStore, provider`issued
      ensures Now(pid, now, Resolve(id), Done(passed))
           == Steered(old(Now(pid, now, Resolve(id), Starting)), pid, sky, n)
    {
      hide Advance, Steered;
      var request := Resolve(id);
      ghost var start := Now(pid, now, request, Starting);
      var pc := FindAuthority(pid, now, request, sky(Starting));
      Took(start, start, pid, 0, Now(pid, now, request, pc), sky, n);
      if pc.Done? {
        return pc.passed;
      }
      ghost var s := Now(pid, now, request, pc);
      pc := VerifyFresh(pid, now, request, pc, sky(pc));
      Took(start, s, pid, 1, Now(pid, now, request, pc), sky, n);
      s := Now(pid, now, request, pc);
      if pc.Noting? {
        pc := NoteRejection(pid, now, request, pc.stored, sky(pc));
        Took(start, s, pid, 2, Now(pid, now, request, pc), sky, n);
        return pc.passed;
      }
      passed := Supersede(pid, now, id, pc.stored, pc.proof, sky, start, n);
    }

    /** The record of the approval, the superseding decision, its authority. */
    method Supersede(pid: nat, now: int, id: string, stored: Authority, proof: nat, sky: Sky, ghost start: State,
                     ghost n: nat)
      returns (passed: bool)
      requires pid in start.calls && n >= 5 && proof < |verifier.proofs|
      requires Steered(start, pid, sky, n)
            == Steered(Now(pid, now, Resolve(id), AppendingApproval(stored, proof)), pid, sky, n - 2)
      modifies stateStore, provider`issued
      ensures Now(pid, now, Resolve(id), Done(passed)) == Steered(start, pid, sky, n)
    {
      hide Advance, Steered;
      var request := Resolve(id);
      var pc := AppendingApproval(stored, proof);
      ghost var s := Now(pid, now, request, pc);
      pc := AppendApproval(pid, now, request, stored, proof, sky(pc));
      Took(start, s, pid, 2, Now(pid, now, request, pc), sky, n);
      if pc.Done? {
        return pc.passed;
      }
      s := Now(pid, now, request, pc);
      pc := AskDecision(pid, now, request, pc, sky(pc));
      Took(start, s, pid, 3, Now(pid, now, request, pc), sky, n);
      if pc.Done? {
        return pc.passed;
      }
      s := Now(pid, now, request, pc);
      pc := SaveDecision(pid, now, request, pc, sky(pc));
      Took(start, s, pid, 4, Now(pid, now, request, pc), sky, n);
      passed := pc.passed;
    }

    /** `consume`. */
    method Consume(pid: nat, now: int, id: string, hash: Action, ref: string, sky: Sky, ghost n: nat)
      returns (passed: bool)
      requires n >= 6
      modifies verifier, verifier.nonceStore, stateStore`revalidations, provider`consumed
      ensures Now(pid, now, Request.Consume(id, hash, ref), Done(passed))
           == Steered(old(Now(pid, now, Request.Consume(id, hash, ref), Starting)), pid, sky, n)
    {
      hide Advance, Steered;
      var request := Request.Consume(id, hash, ref);
      ghost var start := Now(pid, now, request, Starting);
      var pc := FindAuthority(pid, now, request, sky(Starting));
      Took(start, start, pid, 0, Now(pid, now, request, pc), sky, n);
      if pc.Done? {
        return pc.passed;
      }
      ghost var s := Now(pid, now, request, pc);
      pc := FindPrior(pid, now, request, pc.stored, sky(pc));
      Took(start, s, pid, 1, Now(pid, now, request, pc), sky, n);
      ghost var k := 2;
      if pc.VerifyingConsumption? {
        pc, k := Revalidate(pid, now, request, pc.stored, sky, start, n);
      }
      if pc.Done? {
        return pc.passed;
      }
      s := Now(pid, now, request, pc);
      pc := CallProvider(pid, now, request, sky(pc));
      Took(start, s, pid, k, Now(pid, now, request, pc), sky, n);
      passed := pc.passed;
    }

    /** The first attempt of a consumption: a fresh verification and its record. */
    method Revalidate(pid: nat, now: int, request: Request, stored: Authority, sky: Sky, ghost start: State, ghost n: nat)
      returns (pc: Pc, ghost k: nat)
      requires request.Consume? && pid in start.calls && n >= 6
      requires Steered(start, pid, sky, n)
            == Steered(Now(pid, now, request, VerifyingConsumption(stored)), pid, sky, n - 2)
      modifies verifier, verifier.nonceStore, stateStore`revalidations
      ensures (pc.Done? || pc.CallingInner?) && k < n
      ensures pc.Done? ==> Steered(start, pid, sky, n) == Now(pid, now, request, pc)
      ensures Steered(start, pid, sky, n) == Steered(Now(pid, now, request, pc), pid, sky, n - k)
    {
      hide Advance, Steered;
      pc := VerifyingConsumption(stored);
      ghost var s := Now(pid, now, request, pc);
      pc := VerifyFresh(pid, now, request, pc, sky(pc));
      Took(start, s, pid, 2, Now(pid, now, request, pc), sky, n);
      s := Now(pid, now, request, pc);
      k := 4;
      if pc.Noting? {
        pc := NoteRejection(pid, now, request, stored, sky(pc));
        Took(start, s, pid, 3, Now(pid, now, request, pc), sky, n);
        return;
      }
      var proof := pc.proof;
      pc := CheckAgain(pid, now, request, stored, proof, sky(pc));
      Took(start, s, pid, 3, Now(pid, now, request, pc), sky, n);
      if pc.Pushing? {
        s := Now(pid, now, request, pc);
        pc := PushRecord(pid, now, request, stored, proof, sky(pc));
        Took(start, s, pid, 4, Now(pid, now, request, pc), sky, n);
        k := 5;
      }
    }
  }

  // ----- where three of the awaits lead, on values

  predicate Asking(request: Request, at: Pc) {
    at.Evaluating? || at.Blocking? || (at.Resolving? && request.Resolve?)
  }

  function ParentOf(request: Request, at: Pc): Option<string>
    requires Asking(request, at)
  {
    if at.Resolving? then Some(request.decisionId) else None
  }

  /** Where a call goes that got its decision; a BLOCK is not stored. */
  function NextOf(at: Pc, id: string, hash: Action): Pc {
    match at
    case Evaluating(n) => SavingFirst(n, id, hash)
    case Resolving(stored, n) => SavingNext(stored, n, id, hash)
    case _ => Done(false)
  }

  lemma AskMoves(s: State, pid: nat, request: Request, at: Pc, w: Weather)
    requires pid in s.calls && s.calls[pid] == Thread(request, at) && Asking(request, at)
    ensures var made := w.fault != LostRequest && w.decision.Some? && w.decision.value.0 !in s.issued;
            Advance(Memory, s, pid, w)
            == s.(issued := if made then s.issued[w.decision.value.0 := ParentOf(request, at)] else s.issued,
                  calls := s.calls[pid := Thread(request, if made && w.fault == NoFault
                                                      then NextOf(at, w.decision.value.0, w.decision.value.1)
                                                      else Done(false))])
  {
    hide Start, FreshAuthority, SaveAuthority, Append, Check, CallInner, RecordFor;
  }

  lemma SaveMoves(s: State, pid: nat, request: Request, at: Pc, w: Weather)
    requires pid in s.calls && s.calls[pid] == Thread(request, at)
    requires (at.SavingFirst? && request.Evaluate?) || at.SavingNext?
    requires at.proof < |s.proofs|
    ensures var binding := s.proofs[at.proof].binding;
            var record := Authority(at.hash, Bound(if at.SavingFirst? then request.core else Core(at.stored), binding),
                                    binding, at.proof);
            var saved := w.fault != LostRequest && (at.id in s.authorities ==> s.authorities[at.id] == record);
            Advance(Memory, s, pid, w)
            == s.(authorities := if saved then s.authorities[at.id := record] else s.authorities,
                  calls := s.calls[pid := Thread(request, Done(saved && w.fault == NoFault))])
  {
    hide Start, FreshAuthority, AskProvider, Append, Check, CallInner, RecordFor;
  }

  lemma FreshMoves(s: State, pid: nat, request: Request, at: Pc, w: Weather)
    requires pid in s.calls && s.calls[pid] == Thread(request, at) && (at.VerifyingApproval? || at.VerifyingConsumption?)
    ensures var (v, found) := Verify(s, pid, w.presentation);
            var holds := found.Some? && found.value < |v.proofs|
                         && SameIdentity(at.stored.binding, v.proofs[found.value].binding);
            Advance(Memory, s, pid, w)
            == v.(calls := s.calls[pid := Thread(request, if !holds then Noting(at.stored)
                                                      else if at.VerifyingApproval?
                                                      then AppendingApproval(at.stored, found.value)
                                                      else Checking(at.stored, found.value))])
  {
    hide Start, AskProvider, SaveAuthority, Append, Check, CallInner, RecordFor, SameIdentity;
  }

  // ----- a call moving alone

  /** What each await of a call meets. */
  type Sky = Pc -> Weather

  /** The machine, moving one call alone. */
  function Steered(s: State, pid: nat, sky: Sky, n: nat): State
    requires pid in s.calls
    decreases n
  {
    if n == 0 then s else Steered(Advance(Memory, s, pid, sky(s.calls[pid].pc)), pid, sky, n - 1)
  }

  lemma {:induction false} EndStays(s: State, pid: nat, sky: Sky, n: nat)
    requires pid in s.calls && s.calls[pid].pc.Done?
    ensures Steered(s, pid, sky, n) == s
  {
    if n > 0 {
      EndStays(s, pid, sky, n - 1);
    }
  }

  /** From `s`, where the machine stands after `k` steps, one step further. */
  lemma Took(start: State, s: State, pid: nat, k: nat, t: State, sky: Sky, n: nat)
    requires pid in start.calls && pid in s.calls && k < n && t == Advance(Memory, s, pid, sky(s.calls[pid].pc))
    requires Steered(start, pid, sky, n) == Steered(s, pid, sky, n - k)
    ensures Steered(start, pid, sky, n) == Steered(t, pid, sky, n - (k + 1))
    ensures t.calls[pid].pc.Done? ==> Steered(start, pid, sky, n) == t
  {
    hide Advance;
    if t.calls[pid].pc.Done? {
      EndStays(t, pid, sky, n - (k + 1));
    }
  }

  ghost predicate Same(s: State, t: State, pid: nat) {
    && s.clock == t.clock && s.nonces == t.nonces && s.proofs == t.proofs && s.authorities == t.authorities
    && s.revalidations == t.revalidations && s.issued == t.issued && s.inner == t.inner
    && s.calls.Keys == {pid} == t.calls.Keys && s.calls[pid] == t.calls[pid]
  }

  lemma Equal(s: State, t: State, pid: nat)
    requires Same(s, t, pid)
    ensures s == t
  {
    assert s.calls == t.calls;
  }

  /** The verifier looks at the clock, the nonces and its own proofs only. */
  lemma VerifyOnly(s: State, v: State, pid: nat, p: Presentation)
    requires v.clock == s.clock && v.nonces == s.nonces && v.proofs == s.proofs
    ensures Verify(s, pid, p).1 == Verify(v, pid, p).1
    ensures Verify(s, pid, p).0 == s.(nonces := Verify(v, pid, p).0.nonces, proofs := Verify(v, pid, p).0.proofs)
  {
  }
}
