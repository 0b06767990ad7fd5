/** When a call through the KYA gate passes, and what it leaves, if none of its awaits fails and nobody else moves. */
module KyaCalls {
  import opened Prelude
  import N = KyaNonces
  import opened Kya
  import opened KyaDriver

  ghost predicate Calm(sky: Sky) {
    forall pc :: sky(pc).fault == NoFault
  }

  /** The presentation verifies now: its nonce is fresh, and nothing fails after. */
  predicate Verifies(s: State, p: Presentation) {
    p.Presented? && !p.failsLater && N.Step(s.nonces, N.Consume(p.key, s.clock, p.expiresAt)).1
  }

  /** And it does so with a binding that differs from that of `stored` in its evidence at most. */
  predicate VerifiesAs(s: State, p: Presentation, stored: Authority) {
    Verifies(s, p) && p.binding.(evidence := stored.binding.evidence) == stored.binding
  }

  /** A verified consumption record of the triple is on file. */
  predicate OnFile(log: seq<Revalidation>, id: string, hash: Action, ref: string) {
    exists k :: 0 <= k < |log| && log[k].verified.Some?
                && log[k] == Revalidation(id, hash, Consumption, Some(ref), log[k].verified)
  }

  lemma OnFileMeans(log: seq<Revalidation>, id: string, hash: Action, ref: string)
    ensures OnFile(log, id, hash, ref) <==> Revalidated(log, id, hash, ref)
  {
    if OnFile(log, id, hash, ref) {
      var k :| 0 <= k < |log| && log[k].verified.Some?
               && log[k] == Revalidation(id, hash, Consumption, Some(ref), log[k].verified);
      assert Revalidates(log[k], id, hash, ref);
    }
    if Revalidated(log, id, hash, ref) {
      var k :| 0 <= k < |log| && Revalidates(log[k], id, hash, ref);
      assert log[k] == Revalidation(id, hash, Consumption, Some(ref), log[k].verified);
    }
  }

  lemma VerifiesMeans(s: State, pid: nat, p: Presentation)
    ensures Verifies(s, p) <==> Verify(s, pid, p).1.Some?
  {
    hide N.Step;
  }

  lemma VerifiesAsMeans(s: State, p: Presentation, stored: Authority)
    ensures VerifiesAs(s, p, stored) <==> Verifies(s, p) && SameIdentity(stored.binding, p.binding)
  {
    if p.Presented? { IdentityIsAllButEvidence(stored.binding, p.binding); }
    hide N.Step;
  }

  predicate New(s: State, decision: Option<(string, Action)>) {
    decision.Some? && decision.value.0 !in s.issued
  }

  /** The authority of a decision on `core`, resting on the next verification. */
  function NextAuthority(s: State, hash: Action, core: string, p: Presentation): Authority
    requires p.Presented?
  {
    Authority(hash, Action(core, Some(p.binding)), p.binding, |s.proofs|)
  }

  /** A new decision is recorded, under what its verification found, only where nothing else stands. */
  predicate Storable(s: State, decision: Option<(string, Action)>, core: string, p: Presentation)
    requires p.Presented?
  {
    && New(s, decision)
    && (decision.value.0 in s.authorities ==>
          s.authorities[decision.value.0] == NextAuthority(s, decision.value.1, core, p))
  }

  /** How a call ends. */
  predicate Ends(t: State, pid: nat, passed: bool) {
    pid in t.calls && t.calls[pid].pc == Done(passed)
  }

  lemma VerifyShape(s: State, pid: nat, p: Presentation)
    ensures var (v, found) := Verify(s, pid, p);
            && v == s.(nonces := v.nonces, proofs := v.proofs)
            && (found.Some? ==> && p.Presented? && found.value == |s.proofs| < |v.proofs|
                                && v.proofs[found.value].binding == p.binding)
  {
  }

  lemma StepsOn(s: State, pid: nat, sky: Sky, n: nat)
    requires pid in s.calls && n >= 1
    ensures Steered(s, pid, sky, n) == Steered(Advance(Memory, s, pid, sky(s.calls[pid].pc)), pid, sky, n - 1)
  {
    hide Advance;
  }

  // ----- asking and saving

  /** From the provider to the end: a new decision is made, and stored if its record may be. */
  lemma AskedEnds(s: State, pid: nat, request: Request, at: Pc, core: string, p: Presentation, n0: nat, sky: Sky, n: nat)
    requires pid in s.calls && s.calls[pid] == Thread(request, at) && Calm(sky) && n >= 2 && p.Presented?
    requires (at.Evaluating? && request == Evaluate(core)) || (at.Resolving? && request.Resolve? && core == Core(at.stored))
    requires at.proof == n0 < |s.proofs| && s.proofs[n0].binding == p.binding
    ensures var decision := sky(at).decision;
            var record := (hash: Action) => Authority(hash, Bound(core, p.binding), p.binding, n0);
            var passed := New(s, decision)
                          && (decision.value.0 in s.authorities ==>
                                s.authorities[decision.value.0] == record(decision.value.1));
            var t := Steered(s, pid, sky, n);
            && Ends(t, pid, passed) && t.revalidations == s.revalidations && t.inner == s.inner
            && t.authorities == (if passed then s.authorities[decision.value.0 := record(decision.value.1)]
                                 else s.authorities)
            && t.issued == (if New(s, decision) then s.issued[decision.value.0 := ParentOf(request, at)] else s.issued)
  {
    hide Advance;
    AskMoves(s, pid, request, at, sky(at));
    StepsOn(s, pid, sky, n);
    var t := Advance(Memory, s, pid, sky(at));
    var next := t.calls[pid].pc;
    hide Steered;
    if next.Done? {
      EndStays(t, pid, sky, n - 1);
    } else {
      SaveMoves(t, pid, request, next, sky(next));
      StepsOn(t, pid, sky, n - 1);
      EndStays(Advance(Memory, t, pid, sky(next)), pid, sky, n - 2);
    }
  }

  /** A BLOCK is a decision without an authority. */
  lemma BlockedEnds(s: State, pid: nat, request: Request, sky: Sky, n: nat)
    requires pid in s.calls && s.calls[pid] == Thread(request, Blocking) && Calm(sky) && n >= 1
    ensures var decision := sky(Blocking).decision;
            var t := Steered(s, pid, sky, n);
            && Ends(t, pid, false) && t.revalidations == s.revalidations && t.inner == s.inner
            && t.authorities == s.authorities
            && t.issued == (if New(s, decision) then s.issued[decision.value.0 := None] else s.issued)
  {
    hide Advance;
    AskMoves(s, pid, request, Blocking, sky(Blocking));
    StepsOn(s, pid, sky, n);
    hide Steered;
    EndStays(Advance(Memory, s, pid, sky(Blocking)), pid, sky, n - 1);
  }

  // ----- evaluate

  /** An evaluation passes exactly when the presentation verifies and the provider makes a new decision under whose id
      nothing else stands; then exactly its authority is stored, with the verified binding, and otherwise none. What does
      not verify gets a decision too, a BLOCK, which has no authority. */
  lemma EvaluatesExactlyWhen(s: State, pid: nat, core: string, sky: Sky, n: nat)
    requires pid in s.calls && s.calls[pid] == Thread(Evaluate(core), Starting) && Calm(sky) && n >= 3
    ensures var p := sky(Starting).presentation;
            var verified := Verifies(s, p);
            var decision := sky(if verified then Evaluating(|s.proofs|) else Blocking).decision;
            var passed := verified && p.Presented? && Storable(s, decision, core, p);
            var t := Steered(s, pid, sky, n);
            && Ends(t, pid, passed) && t.revalidations == s.revalidations && t.inner == s.inner
            && t.authorities == (if passed then s.authorities[decision.value.0 := NextAuthority(s, decision.value.1, core, p)]
                                 else s.authorities)
            && t.issued == (if New(s, decision) then s.issued[decision.value.0 := None] else s.issued)
  {
    var p := sky(Starting).presentation;
    VerifyShape(s, pid, p);
    VerifiesMeans(s, pid, p);
    var (v, found) := Verify(s, pid, p);
    var pc := if found.Some? then Evaluating(found.value) else Blocking;
    var t := v.(calls := s.calls[pid := Thread(Evaluate(core), pc)]);
    assert Advance(Memory, s, pid, sky(Starting)) == t;
    StepsOn(s, pid, sky, n);
    hide Verify, Verifies, Advance, Steered, Calm;
    if found.Some? {
      AskedEnds(t, pid, Evaluate(core), pc, core, p, found.value, sky, n - 1);
    } else {
      BlockedEnds(t, pid, Evaluate(core), sky, n - 1);
    }
  }

  // ----- resolve an approval

  lemma NotedEnds(s: State, pid: nat, request: Request, stored: Authority, sky: Sky, n: nat)
    requires pid in s.calls && s.calls[pid] == Thread(request, Noting(stored)) && !request.Evaluate? && Calm(sky) && n >= 1
    ensures var t := Steered(s, pid, sky, n);
            && Ends(t, pid, false) && t.authorities == s.authorities && t.issued == s.issued && t.inner == s.inner
            && t.revalidations == s.revalidations + [RecordFor(request, stored, None)]
  {
    var pc := Noting(stored);
    StepsOn(s, pid, sky, n);
    hide Steered, RecordFor;
    EndStays(Advance(Memory, s, pid, sky(pc)), pid, sky, n - 1);
  }

  lemma ApprovedEnds(s: State, pid: nat, id: string, stored: Authority, p: Presentation, n0: nat, sky: Sky, n: nat)
    requires pid in s.calls && s.calls[pid] == Thread(Resolve(id), AppendingApproval(stored, n0)) && Calm(sky) && n >= 3
    requires p.Presented? && n0 < |s.proofs| && s.proofs[n0].binding == p.binding
    ensures var decision := sky(Resolving(stored, n0)).decision;
            var record := (hash: Action) => Authority(hash, Bound(Core(stored), p.binding), p.binding, n0);
            var passed := New(s, decision)
                          && (decision.value.0 in s.authorities ==>
                                s.authorities[decision.value.0] == record(decision.value.1));
            var t := Steered(s, pid, sky, n);
            && Ends(t, pid, passed) && t.inner == s.inner
            && t.revalidations == s.revalidations + [RecordFor(Resolve(id), stored, Some(n0))]
            && t.authorities == (if passed then s.authorities[decision.value.0 := record(decision.value.1)]
                                 else s.authorities)
            && t.issued == (if New(s, decision) then s.issued[decision.value.0 := Some(id)] else s.issued)
  {
    var pc := AppendingApproval(stored, n0);
    StepsOn(s, pid, sky, n);
    hide Steered, RecordFor;
    var t := Advance(Memory, s, pid, sky(pc));
    assert t == s.(revalidations := t.revalidations, calls := s.calls[pid := Thread(Resolve(id), Resolving(stored, n0))]);
    assert t.revalidations == s.revalidations + [RecordFor(Resolve(id), stored, Some(n0))];
    hide Advance;
    AskedEnds(t, pid, Resolve(id), Resolving(stored, n0), Core(stored), p, n0, sky, n - 1);
  }

  /** A resolution passes exactly when a stored authority's identity verifies afresh and the provider makes a superseding
      decision under whose id nothing else stands; that is then stored under the identity and the action core of its
      request. Whether it passes or not, a known request leaves one record, of the verification or of its rejection. */
  lemma ResolvesExactlyWhen(s: State, pid: nat, id: string, sky: Sky, n: nat)
    requires pid in s.calls && s.calls[pid] == Thread(Resolve(id), Starting) && Calm(sky) && n >= 5
    ensures var t := Steered(s, pid, sky, n);
            t.inner == s.inner
            && if id !in s.authorities then
                 Ends(t, pid, false) && t.authorities == s.authorities && t.issued == s.issued
                 && t.revalidations == s.revalidations
               else
                 var stored := s.authorities[id];
                 var p := sky(VerifyingApproval(stored)).presentation;
                 var verified := VerifiesAs(s, p, stored);
                 var decision := sky(Resolving(stored, |s.proofs|)).decision;
                 var passed := verified && Storable(s, decision, Core(stored), p);
                 && Ends(t, pid, passed)
                 && t.revalidations == s.revalidations
                                     + [Revalidation(id, stored.actionHash, Approval, None,
                                                     if verified then Some(|s.proofs|) else None)]
                 && t.authorities
                 == (if passed then s.authorities[decision.value.0 := NextAuthority(s, decision.value.1, Core(stored), p)]
                     else s.authorities)
                 && t.issued
                 == (if verified && New(s, decision) then s.issued[decision.value.0 := Some(id)] else s.issued)
  {
    var request := Resolve(id);
    StepsOn(s, pid, sky, n);
    var t := Advance(Memory, s, pid, sky(Starting));
    if id !in s.authorities {
      assert t == s.(calls := s.calls[pid := Thread(request, Done(false))]);
      EndStays(t, pid, sky, n - 1);
    } else {
      var stored := s.authorities[id];
      var at := VerifyingApproval(stored);
      assert t == s.(calls := s.calls[pid := Thread(request, at)]);
      hide Advance, Steered;
      var p := sky(at).presentation;
      SameVerification(s, t, pid, p);
      VerifyShape(t, pid, p);
      VerifiesMeans(s, pid, p);
      VerifiesAsMeans(s, p, stored);
      FreshMoves(t, pid, request, at, sky(at));
      StepsOn(t, pid, sky, n - 1);
      var u := Advance(Memory, t, pid, sky(at));
      hide Verify, Verifies, VerifiesAs, SameIdentity, Calm;
      if VerifiesAs(s, p, stored) {
        ApprovedEnds(u, pid, id, stored, p, |s.proofs|, sky, n - 2);
      } else {
        NotedEnds(u, pid, request, stored, sky, n - 2);
      }
    }
  }

  lemma SameVerification(s: State, t: State, pid: nat, p: Presentation)
    requires t == s.(calls := t.calls)
    ensures Verify(t, pid, p).1 == Verify(s, pid, p).1
  {
  }

  // ----- consume

  lemma CalledEnds(s: State, pid: nat, request: Request, sky: Sky, n: nat)
    requires pid in s.calls && s.calls[pid] == Thread(request, CallingInner) && request.Consume? && n >= 1
    ensures var t := Steered(s, pid, sky, n);
            && Ends(t, pid, true)
            && t == s.(inner := s.inner + [InnerCall(request.decisionId, request.actionHash, request.executionRef,
                                                     |s.revalidations|)], calls := t.calls)
  {
    hide Start, FreshAuthority, AskProvider, SaveAuthority, Append, Check, RecordFor, Revalidated;
    StepsOn(s, pid, sky, n);
    hide Steered;
    EndStays(Advance(Memory, s, pid, sky(CallingInner)), pid, sky, n - 1);
  }

  lemma CheckedEnds(s: State, pid: nat, request: Request, stored: Authority, n0: nat, sky: Sky, n: nat)
    requires pid in s.calls && s.calls[pid] == Thread(request, Checking(stored, n0)) && request.Consume?
    requires Calm(sky) && n >= 3
    requires !Revalidated(s.revalidations, request.decisionId, request.actionHash, request.executionRef)
    ensures var t := Steered(s, pid, sky, n);
            && Ends(t, pid, true) && t.authorities == s.authorities && t.issued == s.issued
            && t.revalidations == s.revalidations + [RecordFor(request, stored, Some(n0))]
            && t.inner == s.inner + [InnerCall(request.decisionId, request.actionHash, request.executionRef,
                                               |t.revalidations|)]
  {
    hide Revalidated, RecordFor, Start, FreshAuthority, AskProvider, SaveAuthority, CallInner;
    StepsOn(s, pid, sky, n);
    var t := Advance(Memory, s, pid, sky(Checking(stored, n0)));
    assert t == s.(calls := s.calls[pid := Thread(request, Pushing(stored, n0))]);
    StepsOn(t, pid, sky, n - 1);
    var u := Advance(Memory, t, pid, sky(Pushing(stored, n0)));
    assert u == t.(revalidations := s.revalidations + [RecordFor(request, stored, Some(n0))],
                   calls := t.calls[pid := Thread(request, CallingInner)]);
    hide Advance, Steered, Calm;
    CalledEnds(u, pid, request, sky, n - 2);
  }

  /** The inner provider is reached exactly when the stored authority is of this very action and either the triple was
      revalidated before or the presentation verifies under the stored identity. A first attempt on the stored action
      leaves one record, verified or rejected, before the inner call; nothing else is recorded. */
  lemma ConsumesExactlyWhen(s: State, pid: nat, id: string, hash: Action, ref: string, sky: Sky, n: nat)
    requires pid in s.calls && s.calls[pid] == Thread(Consume(id, hash, ref), Starting) && Calm(sky) && n >= 6
    ensures var t := Steered(s, pid, sky, n);
            t.authorities == s.authorities && t.issued == s.issued
            && if id !in s.authorities || s.authorities[id].actionHash != hash || s.authorities[id].action != hash then
                 Ends(t, pid, false) && t.revalidations == s.revalidations && t.inner == s.inner
               else
                 var stored := s.authorities[id];
                 var prior := OnFile(s.revalidations, id, hash, ref);
                 var verified := VerifiesAs(s, sky(VerifyingConsumption(stored)).presentation, stored);
                 && Ends(t, pid, prior || verified)
                 && t.revalidations == s.revalidations
                                     + (if prior then []
                                        else [Revalidation(id, hash, Consumption, Some(ref),
                                                           if verified then Some(|s.proofs|) else None)])
                 && t.inner == s.inner
                             + (if prior || verified then [InnerCall(id, hash, ref, |t.revalidations|)] else [])
  {
    var request := Consume(id, hash, ref);
    OnFileMeans(s.revalidations, id, hash, ref);
    hide Revalidated, OnFile;
    StepsOn(s, pid, sky, n);
    var t := Advance(Memory, s, pid, sky(Starting));
    if id !in s.authorities || s.authorities[id].actionHash != hash || s.authorities[id].action != hash {
      assert t == s.(calls := s.calls[pid := Thread(request, Done(false))]);
      EndStays(t, pid, sky, n - 1);
    } else {
      assert t == s.(calls := s.calls[pid := Thread(request, FindingPrior(s.authorities[id]))]);
      hide Steered;
      FoundEnds(t, pid, request, s.authorities[id], sky, n - 1);
    }
  }

  lemma FoundEnds(s: State, pid: nat, request: Request, stored: Authority, sky: Sky, n: nat)
    requires pid in s.calls && s.calls[pid] == Thread(request, FindingPrior(stored)) && request.Consume?
    requires Calm(sky) && n >= 5
    ensures var t := Steered(s, pid, sky, n);
            var prior := Revalidated(s.revalidations, request.decisionId, request.actionHash, request.executionRef);
            var verified := VerifiesAs(s, sky(VerifyingConsumption(stored)).presentation, stored);
            && t.authorities == s.authorities && t.issued == s.issued
            && Ends(t, pid, prior || verified)
            && t.revalidations == s.revalidations
                                + (if prior then []
                                   else [RecordFor(request, stored, if verified then Some(|s.proofs|) else None)])
            && t.inner == s.inner
                        + (if prior || verified
                           then [InnerCall(request.decisionId, request.actionHash, request.executionRef,
                                           |t.revalidations|)] else [])
  {
    hide Revalidated, RecordFor;
    StepsOn(s, pid, sky, n);
    var t := Advance(Memory, s, pid, sky(FindingPrior(stored)));
    if Revalidated(s.revalidations, request.decisionId, request.actionHash, request.executionRef) {
      assert t == s.(calls := s.calls[pid := Thread(request, CallingInner)]);
      hide Advance, Steered;
      CalledEnds(t, pid, request, sky, n - 1);
      assert s.revalidations + [] == s.revalidations;
    } else {
      var at := VerifyingConsumption(stored);
      assert t == s.(calls := s.calls[pid := Thread(request, at)]);
      hide Advance, Steered;
      var p := sky(at).presentation;
      SameVerification(s, t, pid, p);
      VerifyShape(t, pid, p);
      VerifiesMeans(s, pid, p);
      VerifiesAsMeans(s, p, stored);
      FreshMoves(t, pid, request, at, sky(at));
      StepsOn(t, pid, sky, n - 1);
      var u := Advance(Memory, t, pid, sky(at));
      hide Verify, Verifies, VerifiesAs, SameIdentity, Calm;
      if VerifiesAs(s, p, stored) {
        CheckedEnds(u, pid, request, stored, |s.proofs|, sky, n - 2);
      } else {
        NotedEnds(u, pid, request, stored, sky, n - 2);
        assert s.inner + [] == s.inner;
      }
    }
  }
}
