/** What the settlement machine guarantees: over every run, and for a call that runs undisturbed. */
module GuardSafety {
  import opened Prelude
  import opened Decisions
  import J = Journal
  import opened Guard

  // ---- safety of every run ----------------------------------------------------------------------------

  /** The guard over a key registry. */
  function Guarding(v: Verifier, journalled: bool, store: J.Backend): Config {
    Config((args, at) => VerifiedAllow(v, args, at), journalled, store)
  }

  /** With a shared journal the settle callback starts at most once per execution reference and at most once per
      decision, in every interleaving, with every pattern of lost requests, lost answers and crashes, and whatever
      operators and other clients ask of the journal and the nonce store. */
  lemma SettlesAtMostOnce(cfg: Config, labels: seq<Label>, i: nat, j: nat)
    requires cfg.journalled
    requires i < j < |Run(cfg, INITIAL, labels).log|
    ensures var log := Run(cfg, INITIAL, labels).log;
            && log[i].args.executionRef != log[j].args.executionRef
            && log[i].args.decision.body.decisionId != log[j].args.decision.body.decisionId
  {
    RunKeepsInv(cfg, INITIAL, labels);
    var s := Run(cfg, INITIAL, labels);
    assert StartInv(cfg, s, s.log[i]) && StartInv(cfg, s, s.log[j]);
  }

  /** Every start is of a call that verified as an ALLOW for its own action, for a decision the provider issued as
      an ALLOW of that action, consumed under that call's reference; with a journal, that call claimed the
      reference's record. */
  lemma StartsAreAuthorised(v: Verifier, journalled: bool, store: J.Backend, labels: seq<Label>, e: Start)
    requires e in Run(Guarding(v, journalled, store), INITIAL, labels).log
    ensures var s := Run(Guarding(v, journalled, store), INITIAL, labels);
            && VerifiedAllow(v, e.args, e.verifiedAt)
            && ConsumedFor(s, e.args)
            && (journalled ==> Owns(s, e.args, e.pid) && Op(e.args.executionRef) in s.journal
                               && s.journal[Op(e.args.executionRef)].status != J.Prepared)
  {
    hide VerifiedAllow;
    var cfg := Guarding(v, journalled, store);
    RunKeepsInv(cfg, INITIAL, labels);
    var s := Run(cfg, INITIAL, labels);
    var i :| 0 <= i < |s.log| && s.log[i] == e;
    assert StartInv(cfg, s, s.log[i]);
  }

  /** Journal or not, all starts for one decision are under one reference. */
  lemma OneReferencePerDecision(cfg: Config, labels: seq<Label>, i: nat, j: nat)
    requires i < |Run(cfg, INITIAL, labels).log| && j < |Run(cfg, INITIAL, labels).log|
    ensures var log := Run(cfg, INITIAL, labels).log;
            log[i].args.decision.body.decisionId == log[j].args.decision.body.decisionId
            ==> log[i].args.executionRef == log[j].args.executionRef
  {
    RunKeepsInv(cfg, INITIAL, labels);
    var s := Run(cfg, INITIAL, labels);
    assert StartInv(cfg, s, s.log[i]) && StartInv(cfg, s, s.log[j]);
  }

  // ---- a call that runs undisturbed -------------------------------------------------------------------

  /** `n` faultless steps of one call at one instant, with whatever comes of its settle callback. */
  function Steps(cfg: Config, s: State, pid: nat, now: Instant, result: SettleResult, n: nat): State
    requires pid in s.calls
    decreases n
  {
    if n == 0 then s else Steps(cfg, Advance(cfg, s, pid, now, NoFault, false, result), pid, now, result, n - 1)
  }

  /** The record of the reference, if any, is still prepared for this very call. */
  predicate Claimable(journal: J.Records, args: Args) {
    var op := Op(args.executionRef);
    op in journal && journal[op].status == J.Prepared && journal[op].bindingHash == Binding(args)
  }

  /** The record that a claim at this instant leaves. */
  function Taken(r: J.Record, now: Instant): J.Record {
    r.(status := J.InProgress, attemptCount := r.attemptCount + 1, startedAt := Some(now), updatedAt := now)
  }

  /** The claim succeeds and its answer reaches the caller: SQL parses the row, memory does not. */
  predicate Claims(store: J.Backend, journal: J.Records, args: Args, now: Instant) {
    Claimable(journal, args) && (store.Database? ==> J.RecordTimes(Taken(journal[Op(args.executionRef)], now)))
  }

  /** The issued decision is an unexpired ALLOW of the action, consumed by nobody or under this reference. */
  predicate ConsumptionSucceeds(s: State, args: Args, now: int) {
    var id, hash := args.decision.body.decisionId, args.decision.body.actionHash;
    && id in s.decisions && s.decisions[id].verdict == Allow && s.decisions[id].actionHash == hash
    && now < s.decisions[id].expiresAt
    && var key := (s.decisions[id].decisionId, s.decisions[id].nonce);
       key in s.consumed ==> s.consumed[key] == Consumption(hash, args.executionRef)
  }

  lemma ConsumptionMeans(s: State, args: Args, now: int)
    ensures ConsumptionSucceeds(s, args, now)
         == ConsumeIssued(s.consumed, Issued(s, args), args.decision.body.actionHash, args.executionRef, now, false).1
  {
    hide ConsumeIssued;
    ConsumesExactly(s.consumed, Issued(s, args), args.decision.body.actionHash, args.executionRef, now, false);
  }

  lemma {:induction false} DoneStays(cfg: Config, s: State, pid: nat, now: Instant, result: SettleResult, n: nat)
    requires pid in s.calls && s.calls[pid].pc.Done?
    ensures Steps(cfg, s, pid, now, result, n) == s
  {
    if n > 0 {
      DoneStays(cfg, s, pid, now, result, n - 1);
    }
  }

  /** What the rest of a call does to the log: nothing, or one start. */
  ghost predicate Ends(cfg: Config, s: State, pid: nat, now: Instant, result: SettleResult, n: nat, starts: bool)
    requires pid in s.calls
  {
    var t := Steps(cfg, s, pid, now, result, n);
    && pid in t.calls && t.calls[pid].pc.Done?
    && t.log == if starts then s.log + [Start(pid, s.calls[pid].args, s.calls[pid].verifiedAt)] else s.log
  }

  lemma FromMarking(cfg: Config, s: State, pid: nat, now: Instant, result: SettleResult, n: nat)
    requires pid in s.calls && s.calls[pid].pc.Marking? && n >= 1
    ensures Ends(cfg, s, pid, now, result, n, false)
  {
    DoneStays(cfg, Mark(cfg, s, pid, NoFault), pid, now, result, n - 1);
  }

  lemma SettleKeeps(cfg: Config, s: State, pid: nat, now: Instant, result: SettleResult)
    requires pid in s.calls
    ensures var t := Settle(cfg, s, pid, now, result);
            && t.log == s.log && t.calls[pid].args == s.calls[pid].args
            && if cfg.journalled then t.calls[pid].pc.Marking? else t.calls[pid].pc.Done?
  {
  }

  lemma FromSettling(cfg: Config, s: State, pid: nat, now: Instant, result: SettleResult, n: nat)
    requires pid in s.calls && s.calls[pid].pc.Settling? && n >= 2
    ensures Ends(cfg, s, pid, now, result, n, false)
  {
    var t := Settle(cfg, s, pid, now, result);
    SettleKeeps(cfg, s, pid, now, result);
    hide Settle, Mark;
    if cfg.journalled {
      FromMarking(cfg, t, pid, now, result, n - 1);
    } else {
      DoneStays(cfg, t, pid, now, result, n - 1);
    }
  }

  lemma FromCalling(cfg: Config, s: State, pid: nat, now: Instant, result: SettleResult, n: nat)
    requires pid in s.calls && s.calls[pid].pc.Calling? && n >= 3
    ensures Ends(cfg, s, pid, now, result, n, true)
  {
    FromSettling(cfg, CallSettle(s, pid), pid, now, result, n - 1);
  }

  lemma ClaimsExactly(store: J.Backend, journal: J.Records, args: Args, now: Instant)
    requires J.RecordsInv(journal)
    ensures var (next, answer) := J.Step(store, journal, J.Start(Op(args.executionRef), Binding(args), now));
            && (next != journal <==> Claimable(journal, args))
            && (answer.Claimed? <==> Claims(store, journal, args, now))
  {
    var op := Op(args.executionRef);
    var next := J.Step(store, journal, J.Start(op, Binding(args), now)).0;
    if Claimable(journal, args) {
      assert next[op].status != journal[op].status;
    }
  }

  lemma AttemptLeads(cfg: Config, s: State, pid: nat, now: Instant)
    requires pid in s.calls && J.RecordsInv(s.journal)
    ensures var args := s.calls[pid].args;
            StartAttempt(cfg, s, pid, now, NoFault).calls[pid].pc
            == if !Claimable(s.journal, args) then Reading
               else if Claims(cfg.store, s.journal, args, now) then Calling else Done(StateUnavailable)
  {
    hide J.Step, J.RecordsInv, Claims, Claimable;
    ClaimsClaimable(cfg.store, s.journal, s.calls[pid].args, now);
    ClaimsExactly(cfg.store, s.journal, s.calls[pid].args, now);
  }

  lemma ClaimsClaimable(store: J.Backend, journal: J.Records, args: Args, now: Instant)
    ensures Claims(store, journal, args, now) ==> Claimable(journal, args)
  {
  }

  lemma AttemptKeeps(cfg: Config, s: State, pid: nat, now: Instant)
    requires pid in s.calls
    ensures var t := StartAttempt(cfg, s, pid, now, NoFault);
            && t.log == s.log && t.calls[pid].args == s.calls[pid].args
            && t.calls[pid].verifiedAt == s.calls[pid].verifiedAt
  {
    hide J.Step;
  }

  lemma FromStarting(cfg: Config, s: State, pid: nat, now: Instant, result: SettleResult, n: nat)
    requires pid in s.calls && s.calls[pid].pc.Starting? && n >= 4
    requires J.RecordsInv(s.journal)
    ensures Ends(cfg, s, pid, now, result, n, Claims(cfg.store, s.journal, s.calls[pid].args, now))
  {
    hide J.RecordsInv, Claimable, Claims, StartAttempt, Verify, Prepare, LookUp, Consume, CallSettle, Settle, Mark;
    var t := StartAttempt(cfg, s, pid, now, NoFault);
    AttemptLeads(cfg, s, pid, now);
    AttemptKeeps(cfg, s, pid, now);
    ClaimsClaimable(cfg.store, s.journal, s.calls[pid].args, now);
    if t.calls[pid].pc.Calling? {
      FromCalling(cfg, t, pid, now, result, n - 1);
    } else if t.calls[pid].pc.Done? {
      DoneStays(cfg, t, pid, now, result, n - 1);
    } else {
      assert Steps(cfg, s, pid, now, result, n) == Steps(cfg, t, pid, now, result, n - 1);
      DoneStays(cfg, Read(cfg, t, pid, NoFault), pid, now, result, n - 2);
    }
  }

  lemma FromConsuming(cfg: Config, s: State, pid: nat, now: Instant, result: SettleResult, n: nat)
    requires pid in s.calls && s.calls[pid].pc == Consuming(Issued(s, s.calls[pid].args)) && n >= 5
    requires J.RecordsInv(s.journal)
    ensures Ends(cfg, s, pid, now, result, n, ConsumptionSucceeds(s, s.calls[pid].args, now)
                                      && (cfg.journalled ==> Claims(cfg.store, s.journal, s.calls[pid].args, now)))
  {
    hide ConsumeIssued, ConsumptionSucceeds;
    ConsumptionMeans(s, s.calls[pid].args, now);
    var t := Consume(cfg, s, pid, now, NoFault, false);
    if !ConsumptionSucceeds(s, s.calls[pid].args, now) {
      DoneStays(cfg, t, pid, now, result, n - 1);
    } else if cfg.journalled {
      FromStarting(cfg, t, pid, now, result, n - 1);
    } else {
      FromCalling(cfg, t, pid, now, result, n - 1);
    }
  }

  lemma FromLookingUp(cfg: Config, s: State, pid: nat, now: Instant, result: SettleResult, n: nat)
    requires pid in s.calls && s.calls[pid].pc.LookingUp? && n >= 6
    requires J.RecordsInv(s.journal)
    ensures Ends(cfg, s, pid, now, result, n, ConsumptionSucceeds(s, s.calls[pid].args, now)
                                      && (cfg.journalled ==> Claims(cfg.store, s.journal, s.calls[pid].args, now)))
  {
    FromConsuming(cfg, LookUp(s, pid, NoFault), pid, now, result, n - 1);
  }

  /** The reference is free: no record yet, or the record this call prepared before, not yet claimed. */
  predicate Free(journal: J.Records, args: Args) {
    var op := Op(args.executionRef);
    op in journal ==> journal[op].status == J.Prepared
                      && J.SameIdentity(journal[op], PrepareCall(args, 0))
  }

  /** Every instant that is parsed on the way is of the years 0 to 9999: in memory only that of a new record. */
  predicate Parses(store: J.Backend, journal: J.Records, args: Args, now: Instant) {
    var op := Op(args.executionRef);
    if op !in journal then J.Representable(now)
    else store.Database? ==> J.Representable(now) && J.Representable(journal[op].preparedAt)
  }

  lemma PreparesExactly(store: J.Backend, journal: J.Records, args: Args, now: Instant)
    requires J.RecordsInv(journal)
    ensures var (next, answer) := J.Step(store, journal, PrepareCall(args, now));
            && J.RecordsInv(next)
            && (answer.Operation? && Claims(store, next, args, now)
                <==> J.Accepted(PrepareCall(args, now)) && Free(journal, args) && Parses(store, journal, args, now))
  {
    J.StepKeepsRecords(store, journal, PrepareCall(args, now));
  }

  lemma FromPreparing(cfg: Config, s: State, pid: nat, now: Instant, result: SettleResult, n: nat)
    requires pid in s.calls && s.calls[pid].pc.Preparing? && cfg.journalled && n >= 7
    requires J.RecordsInv(s.journal)
    ensures Ends(cfg, s, pid, now, result, n, ConsumptionSucceeds(s, s.calls[pid].args, now)
                                      && J.Accepted(PrepareCall(s.calls[pid].args, now))
                                      && Free(s.journal, s.calls[pid].args)
                                      && Parses(cfg.store, s.journal, s.calls[pid].args, now))
  {
    hide J.Step, J.Accepted;
    var t := Prepare(cfg, s, pid, now, NoFault);
    PreparesExactly(cfg.store, s.journal, s.calls[pid].args, now);
    if t.calls[pid].pc.LookingUp? {
      FromLookingUp(cfg, t, pid, now, result, n - 1);
    } else {
      DoneStays(cfg, t, pid, now, result, n - 1);
    }
  }

  /** What lets a call that runs undisturbed start settlement. */
  predicate Settles(cfg: Config, s: State, args: Args, now: Instant) {
    && cfg.verified(args, now)
    && args.action.Some? && HashAction(args.action.value) == args.decision.body.actionHash
    && ConsumptionSucceeds(s, args, now)
    && (cfg.journalled ==>
          && J.Accepted(PrepareCall(args, now)) && Free(s.journal, args)
          && Parses(cfg.store, s.journal, args, now))
  }

  lemma SameConsumption(s: State, t: State, args: Args, now: int)
    requires t.consumed == s.consumed && t.decisions == s.decisions
    ensures ConsumptionSucceeds(t, args, now) == ConsumptionSucceeds(s, args, now)
  {
  }

  lemma VerifiesFirst(cfg: Config, s: State, pid: nat, now: Instant, result: SettleResult, n: nat)
    requires pid in s.calls && s.calls[pid].pc.Verifying? && n >= 1
    ensures Steps(cfg, s, pid, now, result, n) == Steps(cfg, Verify(cfg, s, pid, now), pid, now, result, n - 1)
  {
    hide Verify, Prepare, LookUp, Consume, StartAttempt, Read, CallSettle, Settle, Mark;
  }

  lemma VerifyKeeps(cfg: Config, s: State, pid: nat, now: Instant)
    requires pid in s.calls
    ensures var t := Verify(cfg, s, pid, now);
            && t == s.(calls := t.calls) && t.calls[pid].args == s.calls[pid].args
  {
    hide HashAction;
  }

  lemma FromVerifying(cfg: Config, s: State, pid: nat, now: Instant, result: SettleResult, n: nat)
    requires pid in s.calls && s.calls[pid].pc.Verifying? && n >= 8
    requires J.RecordsInv(s.journal)
    ensures var t := Steps(cfg, s, pid, now, result, n);
            && pid in t.calls && t.calls[pid].pc.Done?
            && t.log == if Settles(cfg, s, s.calls[pid].args, now) then s.log + [Start(pid, s.calls[pid].args, now)] else s.log
  {
    hide J.RecordsInv, J.Accepted, Parses, HashAction, Free, ConsumptionSucceeds, Steps;
    var t := Verify(cfg, s, pid, now);
    VerifiesFirst(cfg, s, pid, now, result, n);
    VerifyKeeps(cfg, s, pid, now);
    SameConsumption(s, t, s.calls[pid].args, now);
    if t.calls[pid].pc.Done? {
      DoneStays(cfg, t, pid, now, result, n - 1);
    } else if cfg.journalled {
      FromPreparing(cfg, t, pid, now, result, n - 1);
    } else {
      FromLookingUp(cfg, t, pid, now, result, n - 1);
    }
  }

  /** An undisturbed call starts settlement exactly when it verifies, the issued decision is an unexpired ALLOW of
      its action, consumed by nobody or under this very reference, and the journal's record of the reference is
      absent or prepared by this same decision and unclaimed, with instants its schema can write down. So a retry
      completes whatever a crash before the claim interrupted, any attempt that was claimed blocks every retry, and
      without a journal a retry before expiry settles again. */
  lemma RetrySettlesExactlyWhen(cfg: Config, s: State, pid: nat, args: Args, now: Instant, result: SettleResult)
    requires Inv(cfg, s) && pid !in s.calls
    ensures var t := Steps(cfg, Exec(cfg, s, Begin(pid, args)), pid, now, result, 8);
            && pid in t.calls && t.calls[pid].pc.Done?
            && t.log == if Settles(cfg, s, args, now) then s.log + [Start(pid, args, now)] else s.log
  {
    FromVerifying(cfg, Exec(cfg, s, Begin(pid, args)), pid, now, result, 8);
  }

  // ---- without a journal ------------------------------------------------------------------------------

  /** One call from its start to its end, undisturbed, at one instant. */
  function Call(pid: nat, args: Args, now: Instant): seq<Label> {
    [Begin(pid, args)] + Moves(pid, now, 8)
  }

  function Moves(pid: nat, now: Instant, n: nat): seq<Label> {
    if n == 0 then [] else [Go(pid, now, NoFault, false, Resolves)] + Moves(pid, now, n - 1)
  }

  lemma {:induction false} MovesAreSteps(cfg: Config, s: State, pid: nat, now: Instant, n: nat, rest: seq<Label>)
    requires pid in s.calls
    ensures Run(cfg, s, Moves(pid, now, n) + rest) == Run(cfg, Steps(cfg, s, pid, now, Resolves, n), rest)
    decreases n
  {
    hide Advance;
    var labels := Moves(pid, now, n) + rest;
    if n == 0 {
      assert labels == rest;
    } else {
      assert labels[1..] == Moves(pid, now, n - 1) + rest;
      MovesAreSteps(cfg, Exec(cfg, s, labels[0]), pid, now, n - 1, rest);
    }
  }

  predicate OffJournal(pc: Pc) {
    pc.Verifying? || pc.LookingUp? || pc.Consuming? || pc.Calling? || pc.Settling? || pc.Done?
  }

  ghost predicate SameStores(s: State, t: State) {
    t.journal == s.journal && t.decisions == s.decisions && t.calls.Keys == s.calls.Keys
  }

  lemma MoveStaysOffJournal(cfg: Config, s: State, pid: nat, now: Instant)
    requires !cfg.journalled && pid in s.calls && OffJournal(s.calls[pid].pc)
    ensures var t := Advance(cfg, s, pid, now, NoFault, false, Resolves);
            SameStores(s, t) && OffJournal(t.calls[pid].pc)
  {
    hide HashAction, ConsumeIssued, Prepare, StartAttempt, Read, Mark;
  }

  lemma {:induction false} StaysOffJournal(cfg: Config, s: State, pid: nat, now: Instant, n: nat)
    requires !cfg.journalled && pid in s.calls && OffJournal(s.calls[pid].pc)
    ensures SameStores(s, Steps(cfg, s, pid, now, Resolves, n))
    decreases n
  {
    hide Advance;
    if n > 0 {
      MoveStaysOffJournal(cfg, s, pid, now);
      StaysOffJournal(cfg, Advance(cfg, s, pid, now, NoFault, false, Resolves), pid, now, n - 1);
    }
  }

  /** The state after one undisturbed call. */
  function Called(cfg: Config, s: State, pid: nat, args: Args, now: Instant): State
    requires pid !in s.calls
  {
    Steps(cfg, Exec(cfg, s, Begin(pid, args)), pid, now, Resolves, 8)
  }

  lemma CallRuns(cfg: Config, s: State, pid: nat, args: Args, now: Instant, rest: seq<Label>)
    requires pid !in s.calls
    ensures Run(cfg, s, Call(pid, args, now) + rest) == Run(cfg, Called(cfg, s, pid, args, now), rest)
  {
    hide Steps, Moves, Advance;
    var labels := Call(pid, args, now) + rest;
    assert labels[0] == Begin(pid, args) && labels[1..] == Moves(pid, now, 8) + rest;
    MovesAreSteps(cfg, Exec(cfg, s, labels[0]), pid, now, 8, rest);
  }

  lemma CallKeepsInv(cfg: Config, s: State, pid: nat, args: Args, now: Instant)
    requires Inv(cfg, s) && pid !in s.calls
    ensures Inv(cfg, Called(cfg, s, pid, args, now))
  {
    hide Inv, Called;
    CallRuns(cfg, s, pid, args, now, []);
    RunKeepsInv(cfg, s, Call(pid, args, now) + []);
  }

  /** One call without a journal, run to its end: it starts settlement, and leaves the journal and the decisions alone. */
  lemma UnjournalledCall(cfg: Config, s: State, pid: nat, args: Args, now: Instant)
    requires Inv(cfg, s) && pid !in s.calls && s.journal == map[]
    requires !cfg.journalled && Settles(cfg, s, args, now)
    ensures var t := Called(cfg, s, pid, args, now);
            && t.log == s.log + [Start(pid, args, now)]
            && t.journal == map[] && t.decisions == s.decisions && t.calls.Keys == s.calls.Keys + {pid}
  {
    var begun := Exec(cfg, s, Begin(pid, args));
    hide Settles, Steps, Inv, Advance;
    RetrySettlesExactlyWhen(cfg, s, pid, args, now, Resolves);
    StaysOffJournal(cfg, begun, pid, now, 8);
  }

  lemma VerifiedSettles(v: Verifier, store: J.Backend, s: State, args: Args, now: Instant)
    requires VerifiedAllow(v, args, now)
    requires args.decision.body.decisionId in s.decisions
    requires s.decisions[args.decision.body.decisionId] == args.decision.body
    requires s.consumed == map[] || ConsumedFor(s, args)
    ensures Settles(Guarding(v, false, store), s, args, now)
  {
  }

  lemma RunsOf(cfg: Config, body: Body, args: Args, now: Instant, later: Instant)
    requires 1 !in Called(cfg, Exec(cfg, INITIAL, Issue(body)), 0, args, now).calls
    ensures Run(cfg, INITIAL, [Issue(body)] + (Call(0, args, now) + (Call(1, args, later) + [])))
         == Called(cfg, Called(cfg, Exec(cfg, INITIAL, Issue(body)), 0, args, now), 1, args, later)
  {
    hide Called, Call;
    var issued := Exec(cfg, INITIAL, Issue(body));
    var second := Call(1, args, later) + [];
    assert ([Issue(body)] + (Call(0, args, now) + second))[1..] == Call(0, args, now) + second;
    CallRuns(cfg, issued, 0, args, now, second);
    CallRuns(cfg, Called(cfg, issued, 0, args, now), 1, args, later, []);
  }

  lemma FirstSettles(v: Verifier, store: J.Backend, args: Args, now: Instant)
    requires VerifiedAllow(v, args, now)
    ensures var cfg := Guarding(v, false, store);
            var t := Called(cfg, Exec(cfg, INITIAL, Issue(args.decision.body)), 0, args, now);
            && Inv(cfg, t) && ConsumedFor(t, args) && t.log == [Start(0, args, now)] && t.journal == map[]
            && t.decisions == map[args.decision.body.decisionId := args.decision.body] && t.calls.Keys == {0}
  {
    var cfg := Guarding(v, false, store);
    var issued := Exec(cfg, INITIAL, Issue(args.decision.body));
    VerifiedSettles(v, store, issued, args, now);
    ExecKeepsInv(cfg, INITIAL, Issue(args.decision.body));
    hide VerifiedAllow, Settles, Called, ThreadInv, StoresInv, ConsumedFor;
    UnjournalledCall(cfg, issued, 0, args, now);
    CallKeepsInv(cfg, issued, 0, args, now);
    var first := Called(cfg, issued, 0, args, now);
    assert StartInv(cfg, first, first.log[0]);
  }

  /** Without a journal one reference starts settlement twice: for any decision that verifies as an ALLOW at two
      instants, issue it, then run a call and its retry, each to its end. */
  lemma UnjournalledRetrySettlesAgain(v: Verifier, store: J.Backend, args: Args, now: Instant, later: Instant)
    requires VerifiedAllow(v, args, now) && VerifiedAllow(v, args, later)
    ensures var labels := [Issue(args.decision.body)] + (Call(0, args, now) + (Call(1, args, later) + []));
            Run(Guarding(v, false, store), INITIAL, labels).log == [Start(0, args, now), Start(1, args, later)]
  {
    hide VerifiedAllow, Settles, Called, Call, Inv;
    var cfg := Guarding(v, false, store);
    FirstSettles(v, store, args, now);
    var first := Called(cfg, Exec(cfg, INITIAL, Issue(args.decision.body)), 0, args, now);
    VerifiedSettles(v, store, first, args, later);
    UnjournalledCall(cfg, first, 1, args, later);
    RunsOf(cfg, args.decision.body, args, now, later);
  }
}
