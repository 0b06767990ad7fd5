/** Exactly how a call of the settlement guard ends that nobody disturbs (packages/x402-adapter/src/guard.ts). */
module GuardCalls {
  import opened Prelude
  import opened Decisions
  import J = Journal
  import H = JournalHistory
  import opened Guard
  import opened GuardSafety
  import opened GuardOutcomes

  ghost predicate Ended(cfg: Config, s: State, pid: nat, now: Instant, result: SettleResult, n: nat, outcome: Outcome,
                        journal: J.Records)
    requires pid in s.calls
  {
    var t := Steps(cfg, s, pid, now, result, n);
    pid in t.calls && t.calls[pid].pc == Done(outcome) && t.journal == journal
  }

  lemma EndedNext(cfg: Config, s: State, t: State, pid: nat, now: Instant, result: SettleResult, n: nat,
                  outcome: Outcome, journal: J.Records)
    requires pid in s.calls && n >= 1 && pid in t.calls && t == Advance(cfg, s, pid, now, NoFault, false, result)
    requires Ended(cfg, t, pid, now, result, n - 1, outcome, journal)
    ensures Ended(cfg, s, pid, now, result, n, outcome, journal)
  {
    hide Advance;
  }

  lemma EndedHere(cfg: Config, s: State, pid: nat, now: Instant, result: SettleResult, n: nat)
    requires pid in s.calls && s.calls[pid].pc.Done?
    ensures Ended(cfg, s, pid, now, result, n, s.calls[pid].pc.outcome, s.journal)
  {
    DoneStays(cfg, s, pid, now, result, n);
    hide Steps;
  }

  /** The move that is next. */
  lemma AdvanceIs(cfg: Config, s: State, pid: nat, now: Instant, result: SettleResult)
    requires pid in s.calls
    ensures var t := Advance(cfg, s, pid, now, NoFault, false, result);
            match s.calls[pid].pc
            case Verifying => t == Verify(cfg, s, pid, now)
            case Preparing => t == Prepare(cfg, s, pid, now, NoFault)
            case LookingUp => t == LookUp(s, pid, NoFault)
            case Consuming(_) => t == Consume(cfg, s, pid, now, NoFault, false)
            case Starting => t == StartAttempt(cfg, s, pid, now, NoFault)
            case Reading => t == Read(cfg, s, pid, NoFault)
            case Calling => t == CallSettle(s, pid)
            case Settling => t == Settle(cfg, s, pid, now, result)
            case Marking(_, _) => t == Mark(cfg, s, pid, NoFault)
            case Done(_) => t == s
  {
    hide Verify, Prepare, LookUp, Consume, StartAttempt, Read, CallSettle, Settle, Mark;
  }

  lemma Overwrites<K, V>(m: map<K, V>, n: map<K, V>, k: K, v: V, w: V)
    requires n == m[k := v]
    ensures n[k := w] == m[k := w] && n[k] == v
  {
  }

  // ---- from the callback on ---------------------------------------------------------------------------

  /** What is left of a record in progress: nothing can be written for an error without a name, and a record with an
      instant that its schema refuses is written but not answered. */
  predicate Concludes(outcome: Outcome, r: J.Record, after: J.Record, args: Args, now: Instant, result: SettleResult) {
    if result == Throws("", true) || result == Throws("", false) then after == r && outcome == Unreconciled
    else && Recorded(after, args, result) && after.updatedAt == now
         && J.Identical(r, after) && after.startedAt == r.startedAt
         && outcome == if J.RecordTimes(after) then OutcomeOf(result) else Unreconciled
  }

  lemma MarkConcludesExactly(store: J.Backend, journal: J.Records, args: Args, result: SettleResult, call: J.Call)
    requires J.RecordsInv(journal) && IsMark(call, args, result)
    requires Op(args.executionRef) in journal
    requires journal[Op(args.executionRef)].status == J.InProgress
    requires journal[Op(args.executionRef)].bindingHash == Binding(args)
    ensures var (next, answer) := J.Step(store, journal, call);
            var op := Op(args.executionRef);
            && op in next && next == journal[op := next[op]]
            && Concludes(if answer.Operation? then OutcomeOf(result) else Unreconciled, journal[op], next[op], args, call.at,
                         result)
  {
    var op := Op(args.executionRef);
    var (next, answer) := J.Step(store, journal, call);
    H.StepWrites(store, journal, call);
    assert J.RecordInv(journal[op]) && journal[op].operationId == op;
    MarkIsAnswered(store, journal[op], args, result, call);
    if next == journal {
      assert next == journal[op := next[op]];
    } else {
      MarkWrites(store, journal, args, result, call);
    }
  }

  lemma MarkIsAnswered(store: J.Backend, r: J.Record, args: Args, result: SettleResult, call: J.Call)
    requires J.RecordInv(r) && r.operationId == Op(args.executionRef)
    requires r.status == J.InProgress && r.bindingHash == Binding(args) && IsMark(call, args, result)
    ensures var (s, answer) := J.Apply(store, Some(r), call);
            && s.Some?
            && (s.value != r <==> !(result == Throws("", true) || result == Throws("", false)))
            && (answer.Operation? <==> s.value != r && J.RecordTimes(s.value))
  {
    hide Binding, J.RecordTimes;
  }

  lemma MarkLeads(cfg: Config, s: State, pid: nat)
    requires pid in s.calls && s.calls[pid].pc.Marking?
    ensures var t := Mark(cfg, s, pid, NoFault);
            var (journal, answer) := J.Step(cfg.store, s.journal, s.calls[pid].pc.call);
            && t.journal == journal
            && t.calls[pid].pc == Done(if answer.Operation? then s.calls[pid].pc.after else Unreconciled)
  {
    hide J.Step;
  }

  lemma SettlingEnds(cfg: Config, s: State, pid: nat, now: Instant, result: SettleResult, n: nat)
    returns (outcome: Outcome, after: J.Record)
    requires cfg.journalled && pid in s.calls && s.calls[pid].pc.Settling? && n >= 2 && J.RecordsInv(s.journal)
    requires Own(s, s.calls[pid].args) && s.journal[Op(s.calls[pid].args.executionRef)].status == J.InProgress
    ensures var op := Op(s.calls[pid].args.executionRef);
            && Ended(cfg, s, pid, now, result, n, outcome, s.journal[op := after])
            && Concludes(outcome, s.journal[op], after, s.calls[pid].args, now, result)
  {
    hide Ended, Advance, Settle, Mark, IsMark, Concludes, J.Step, J.RecordsInv, Binding;
    var args := s.calls[pid].args;
    var t := Settle(cfg, s, pid, now, result);
    SettleMarks(cfg, s, pid, now, result);
    var u := Mark(cfg, t, pid, NoFault);
    AdvanceIs(cfg, s, pid, now, result);
    AdvanceIs(cfg, t, pid, now, result);
    MarkLeads(cfg, t, pid);
    MarkConcludesExactly(cfg.store, s.journal, args, result, t.calls[pid].pc.call);
    outcome, after := u.calls[pid].pc.outcome, u.journal[Op(args.executionRef)];
    EndedHere(cfg, u, pid, now, result, n - 2);
    EndedNext(cfg, t, u, pid, now, result, n - 1, outcome, u.journal);
    EndedNext(cfg, s, t, pid, now, result, n, outcome, u.journal);
  }

  lemma CallLeads(s: State, pid: nat)
    requires pid in s.calls
    ensures var t := CallSettle(s, pid);
            t.journal == s.journal && t.calls[pid].pc == Settling && t.calls[pid].args == s.calls[pid].args
  {
  }

  lemma CallingEnds(cfg: Config, s: State, pid: nat, now: Instant, result: SettleResult, n: nat)
    returns (outcome: Outcome, after: J.Record)
    requires cfg.journalled && pid in s.calls && s.calls[pid].pc.Calling? && n >= 3 && J.RecordsInv(s.journal)
    requires Own(s, s.calls[pid].args) && s.journal[Op(s.calls[pid].args.executionRef)].status == J.InProgress
    ensures var op := Op(s.calls[pid].args.executionRef);
            && Ended(cfg, s, pid, now, result, n, outcome, s.journal[op := after])
            && Concludes(outcome, s.journal[op], after, s.calls[pid].args, now, result)
  {
    hide Ended, Advance, Concludes, J.RecordsInv, Binding, CallSettle;
    AdvanceIs(cfg, s, pid, now, result);
    CallLeads(s, pid);
    var t := CallSettle(s, pid);
    var op := Op(s.calls[pid].args.executionRef);
    outcome, after := SettlingEnds(cfg, t, pid, now, result, n - 1);
    EndedNext(cfg, s, t, pid, now, result, n, outcome, s.journal[op := after]);
  }

  // ---- from the claim on ------------------------------------------------------------------------------

  /** What a start makes of the record of its reference, which is of this very call. */
  predicate StartEnds(store: J.Backend, outcome: Outcome, r: J.Record, after: J.Record, args: Args, now: Instant,
                      result: SettleResult)
  {
    match r.status
    case Prepared =>
      var taken := Taken(r, now);
      if store.Database? && !J.Representable(now) then after == taken && outcome == StateUnavailable
      else Concludes(outcome, taken, after, args, now, result)
    case InProgress => after == r && outcome == OutcomeUnknown
    case OutcomeUnknown => after == r && outcome == OutcomeUnknown
    case Succeeded => after == r && outcome == AlreadyCompleted
    case FailedFinal => after == r && outcome == FailedFinal
  }

  lemma ClaimLeaves(store: J.Backend, journal: J.Records, args: Args, now: Instant)
    requires J.RecordsInv(journal) && Claimable(journal, args)
    ensures J.Step(store, journal, J.Start(Op(args.executionRef), Binding(args), now)).0
         == journal[Op(args.executionRef) := Taken(journal[Op(args.executionRef)], now)]
  {
    hide Binding;
    ClaimsExactly(store, journal, args, now);
    J.StepKeepsRecords(store, journal, J.Start(Op(args.executionRef), Binding(args), now));
  }

  lemma AttemptLeaves(cfg: Config, s: State, pid: nat, now: Instant)
    requires pid in s.calls && J.RecordsInv(s.journal) && Own(s, s.calls[pid].args)
    ensures var op := Op(s.calls[pid].args.executionRef);
            var t := StartAttempt(cfg, s, pid, now, NoFault);
            && t.journal == (if s.journal[op].status == J.Prepared then s.journal[op := Taken(s.journal[op], now)]
                             else s.journal)
            && t.calls[pid].args == s.calls[pid].args
            && J.RecordsInv(t.journal)
  {
    var args := s.calls[pid].args;
    if Claimable(s.journal, args) { ClaimLeaves(cfg.store, s.journal, args, now); }
    ClaimsExactly(cfg.store, s.journal, args, now);
    J.StepKeepsRecords(cfg.store, s.journal, J.Start(Op(args.executionRef), Binding(args), now));
    hide J.Step, J.RecordsInv, Binding, Taken, Claims;
  }

  lemma TakenTimes(r: J.Record, now: Instant)
    requires J.RecordTimes(r)
    ensures J.RecordTimes(Taken(r, now)) <==> J.Representable(now)
  {
  }

  /** The claim, its answer lost in SQL when the row does not parse. */
  lemma ClaimLeads(cfg: Config, s: State, pid: nat, now: Instant)
    requires pid in s.calls && J.RecordsInv(s.journal) && Claimable(s.journal, s.calls[pid].args)
    requires cfg.store.Database? ==> J.RecordTimes(s.journal[Op(s.calls[pid].args.executionRef)])
    ensures var args := s.calls[pid].args;
            var op, t := Op(args.executionRef), StartAttempt(cfg, s, pid, now, NoFault);
            && t.calls[pid].pc == (if cfg.store.Database? && !J.Representable(now) then Done(StateUnavailable) else Calling)
            && t.journal == s.journal[op := Taken(s.journal[op], now)] && J.RecordsInv(t.journal)
            && t.calls[pid].args == args && Own(t, args) && t.journal[op].status == J.InProgress
  {
    var op := Op(s.calls[pid].args.executionRef);
    if cfg.store.Database? { TakenTimes(s.journal[op], now); }
    AttemptLeads(cfg, s, pid, now);
    AttemptLeaves(cfg, s, pid, now);
    hide StartAttempt, J.RecordsInv, Binding, J.RecordTimes, J.Representable;
  }

  lemma ClaimableIsPrepared(journal: J.Records, args: Args)
    requires Claimable(journal, args)
    ensures Op(args.executionRef) in journal && journal[Op(args.executionRef)].status == J.Prepared
  {
  }

  lemma ClaimedEnds(store: J.Backend, outcome: Outcome, r: J.Record, after: J.Record, args: Args, now: Instant,
                    result: SettleResult)
    requires r.status == J.Prepared
    requires if store.Database? && !J.Representable(now) then after == Taken(r, now) && outcome == StateUnavailable
             else Concludes(outcome, Taken(r, now), after, args, now, result)
    ensures StartEnds(store, outcome, r, after, args, now, result)
  {
    hide Concludes, Taken, J.Representable;
  }

  lemma AttemptEnds(cfg: Config, s: State, pid: nat, now: Instant, result: SettleResult, n: nat)
    returns (outcome: Outcome, after: J.Record)
    requires cfg.journalled && pid in s.calls && s.calls[pid].pc.Starting? && n >= 4 && J.RecordsInv(s.journal)
    requires Claimable(s.journal, s.calls[pid].args)
    requires cfg.store.Database? ==> J.RecordTimes(s.journal[Op(s.calls[pid].args.executionRef)])
    ensures var op := Op(s.calls[pid].args.executionRef);
            && Ended(cfg, StartAttempt(cfg, s, pid, now, NoFault), pid, now, result, n - 1, outcome, s.journal[op := after])
            && StartEnds(cfg.store, outcome, s.journal[op], after, s.calls[pid].args, now, result)
  {
    hide Ended, StartEnds, StartAttempt, J.RecordsInv, Concludes, J.RecordTimes, J.Representable, Own, Claimable, Taken;
    ClaimableIsPrepared(s.journal, s.calls[pid].args);
    var op := Op(s.calls[pid].args.executionRef);
    var r := s.journal[op];
    var t := StartAttempt(cfg, s, pid, now, NoFault);
    ClaimLeads(cfg, s, pid, now);
    if t.calls[pid].pc.Calling? {
      outcome, after := CallingEnds(cfg, t, pid, now, result, n - 1);
      Overwrites(s.journal, t.journal, op, Taken(r, now), after);
    } else {
      outcome, after := StateUnavailable, Taken(r, now);
      EndedHere(cfg, t, pid, now, result, n - 1);
    }
    ClaimedEnds(cfg.store, outcome, r, after, s.calls[pid].args, now, result);
  }

  lemma ClaimedIsOwn(journal: J.Records, s: State, args: Args)
    requires Own(s, args) && s.journal == journal
    ensures Claimable(journal, args) <==> journal[Op(args.executionRef)].status == J.Prepared
  {
  }

  lemma StartingEnds(cfg: Config, s: State, pid: nat, now: Instant, result: SettleResult, n: nat)
    returns (outcome: Outcome, after: J.Record)
    requires cfg.journalled && pid in s.calls && s.calls[pid].pc.Starting? && n >= 4 && J.RecordsInv(s.journal)
    requires Own(s, s.calls[pid].args)
    requires cfg.store.Database? ==> J.RecordTimes(s.journal[Op(s.calls[pid].args.executionRef)])
    ensures var op := Op(s.calls[pid].args.executionRef);
            && Ended(cfg, s, pid, now, result, n, outcome, s.journal[op := after])
            && StartEnds(cfg.store, outcome, s.journal[op], after, s.calls[pid].args, now, result)
  {
    var op := Op(s.calls[pid].args.executionRef);
    var t := StartAttempt(cfg, s, pid, now, NoFault);
    AdvanceIs(cfg, s, pid, now, result);
    ClaimedIsOwn(s.journal, s, s.calls[pid].args);
    if s.journal[op].status == J.Prepared {
      hide Ended, StartAttempt, J.RecordsInv, Own, Claimable, StartEnds, Advance, J.RecordTimes;
      outcome, after := AttemptEnds(cfg, s, pid, now, result, n);
    } else {
      AttemptLeads(cfg, s, pid, now);
      AttemptLeaves(cfg, s, pid, now);
      hide Ended, StartAttempt, J.RecordsInv, Binding, Claimable, StartEnds, Advance, J.RecordTimes;
      after := s.journal[op];
      assert s.journal[op := after] == s.journal;
      outcome := ReadingEnds(cfg, t, pid, now, result, n - 1);
    }
    hide Claims, Taken;
    EndedNext(cfg, s, t, pid, now, result, n, outcome, s.journal[op := after]);
  }

  lemma ReadingEnds(cfg: Config, s: State, pid: nat, now: Instant, result: SettleResult, n: nat)
    returns (outcome: Outcome)
    requires pid in s.calls && s.calls[pid].pc.Reading? && n >= 1 && Own(s, s.calls[pid].args)
    requires cfg.store.Database? ==> J.RecordTimes(s.journal[Op(s.calls[pid].args.executionRef)])
    requires s.journal[Op(s.calls[pid].args.executionRef)].status != J.Prepared
    ensures var r := s.journal[Op(s.calls[pid].args.executionRef)];
            && Ended(cfg, s, pid, now, result, n, outcome, s.journal)
            && StartEnds(cfg.store, outcome, r, r, s.calls[pid].args, now, result)
  {
    ReadAnswers(cfg, s, pid, NoFault);
    AdvanceIs(cfg, s, pid, now, result);
    var t := Read(cfg, s, pid, NoFault);
    outcome := t.calls[pid].pc.outcome;
    hide Ended, Advance, Read, Binding, J.RecordTimes, Concludes;
    EndedHere(cfg, t, pid, now, result, n - 1);
    EndedNext(cfg, s, t, pid, now, result, n, outcome, s.journal);
  }

  // ---- from the preparation on ------------------------------------------------------------------------

  /** The texts have the lengths the schema accepts, and the record of the reference, if any, was prepared by this same
      call; what is parsed on the way is of the years 0 to 9999. */
  predicate Prepares(store: J.Backend, journal: J.Records, args: Args, now: Instant) {
    var op := Op(args.executionRef);
    && 1 <= |args.decision.body.decisionId| <= 128 && 1 <= |args.executionRef| <= 512
    && if op !in journal then J.Representable(now)
       else && journal[op].decisionId == args.decision.body.decisionId
            && journal[op].actionHash == args.decision.body.actionHash
            && journal[op].bindingHash == Binding(args)
            && (store.Database? ==> J.RecordTimes(journal[op]))
  }

  /** The record that the call prepared, now or before. */
  function Ready(journal: J.Records, args: Args, now: Instant): J.Record {
    var op := Op(args.executionRef);
    if op in journal then journal[op]
    else J.Record(op, X402, J.X402Settlement, args.decision.body.decisionId, args.decision.body.actionHash,
                  args.executionRef, Binding(args), J.Prepared, 0, now, None, now, None, None, None, None, None)
  }

  lemma PrepareLeaves(store: J.Backend, journal: J.Records, args: Args, now: Instant)
    requires J.RecordsInv(journal)
    ensures var (next, answer) := J.Step(store, journal, PrepareCall(args, now));
            var op := Op(args.executionRef);
            && (answer.Operation? <==> Prepares(store, journal, args, now))
            && (answer.Operation? ==> next == journal[op := Ready(journal, args, now)])
            && (op in journal ==> next == journal)
            && J.RecordsInv(next)
  {
    J.StepKeepsRecords(store, journal, PrepareCall(args, now));
    var op := Op(args.executionRef);
    if op in journal {
      assert journal[op := journal[op]] == journal;
      assert J.RecordInv(journal[op]) && journal[op].operationId == op;
    }
    hide Binding, J.RecordInv;
  }

  /** The end of a call with a journal, in terms of what it finds. */
  predicate CallEnds(cfg: Config, s: State, args: Args, now: Instant, result: SettleResult, outcome: Outcome,
                     after: J.Records)
  {
    var op := Op(args.executionRef);
    if !Prepares(cfg.store, s.journal, args, now) then
      outcome == StateUnavailable && (op in s.journal ==> after == s.journal)
    else
      && op in after && after == s.journal[op := after[op]]
      && if !ConsumptionSucceeds(s, args, now)
         then outcome == ConsumptionFailed && after[op] == Ready(s.journal, args, now)
         else StartEnds(cfg.store, outcome, Ready(s.journal, args, now), after[op], args, now, result)
  }

  lemma ConsumeLeads(cfg: Config, s: State, pid: nat, now: Instant)
    requires cfg.journalled && pid in s.calls && s.calls[pid].pc == Consuming(Issued(s, s.calls[pid].args))
    ensures var t := Consume(cfg, s, pid, now, NoFault, false);
            && t.journal == s.journal && t.calls[pid].args == s.calls[pid].args
            && t.calls[pid].pc
               == if ConsumptionSucceeds(s, s.calls[pid].args, now) then Starting else Done(ConsumptionFailed)
  {
    hide ConsumeIssued, ConsumptionSucceeds;
    ConsumptionMeans(s, s.calls[pid].args, now);
  }

  lemma ConsumingEnds(cfg: Config, s: State, pid: nat, now: Instant, result: SettleResult, n: nat)
    returns (outcome: Outcome, after: J.Record)
    requires cfg.journalled && pid in s.calls && s.calls[pid].pc == Consuming(Issued(s, s.calls[pid].args)) && n >= 5
    requires J.RecordsInv(s.journal) && Own(s, s.calls[pid].args)
    requires cfg.store.Database? ==> J.RecordTimes(s.journal[Op(s.calls[pid].args.executionRef)])
    ensures var args := s.calls[pid].args;
            var op := Op(args.executionRef);
            && Ended(cfg, s, pid, now, result, n, outcome, s.journal[op := after])
            && if !ConsumptionSucceeds(s, args, now) then outcome == ConsumptionFailed && after == s.journal[op]
               else StartEnds(cfg.store, outcome, s.journal[op], after, args, now, result)
  {
    hide Ended, Advance, Consume, ConsumptionSucceeds, J.RecordsInv, J.RecordTimes, Binding, StartEnds;
    var t := Consume(cfg, s, pid, now, NoFault, false);
    var op := Op(s.calls[pid].args.executionRef);
    AdvanceIs(cfg, s, pid, now, result);
    ConsumeLeads(cfg, s, pid, now);
    if !ConsumptionSucceeds(s, s.calls[pid].args, now) {
      EndedHere(cfg, t, pid, now, result, n - 1);
      outcome, after := ConsumptionFailed, s.journal[op];
      assert s.journal[op := after] == s.journal;
    } else {
      outcome, after := StartingEnds(cfg, t, pid, now, result, n - 1);
    }
    EndedNext(cfg, s, t, pid, now, result, n, outcome, s.journal[op := after]);
  }

  lemma LookingUpEnds(cfg: Config, s: State, pid: nat, now: Instant, result: SettleResult, n: nat)
    returns (outcome: Outcome, after: J.Record)
    requires cfg.journalled && pid in s.calls && s.calls[pid].pc.LookingUp? && n >= 6
    requires J.RecordsInv(s.journal) && Own(s, s.calls[pid].args)
    requires cfg.store.Database? ==> J.RecordTimes(s.journal[Op(s.calls[pid].args.executionRef)])
    ensures var args := s.calls[pid].args;
            var op := Op(args.executionRef);
            && Ended(cfg, s, pid, now, result, n, outcome, s.journal[op := after])
            && if !ConsumptionSucceeds(s, args, now) then outcome == ConsumptionFailed && after == s.journal[op]
               else StartEnds(cfg.store, outcome, s.journal[op], after, args, now, result)
  {
    var t := LookUp(s, pid, NoFault);
    var op := Op(s.calls[pid].args.executionRef);
    AdvanceIs(cfg, s, pid, now, result);
    SameConsumption(s, t, s.calls[pid].args, now);
    hide Ended, Advance, J.RecordsInv, J.RecordTimes, Binding, StartEnds, ConsumptionSucceeds;
    outcome, after := ConsumingEnds(cfg, t, pid, now, result, n - 1);
    EndedNext(cfg, s, t, pid, now, result, n, outcome, s.journal[op := after]);
  }

  lemma CallEndsReady(cfg: Config, s: State, args: Args, now: Instant, result: SettleResult, outcome: Outcome,
                      r: J.Record)
    requires Prepares(cfg.store, s.journal, args, now)
    requires if !ConsumptionSucceeds(s, args, now) then outcome == ConsumptionFailed && r == Ready(s.journal, args, now)
             else StartEnds(cfg.store, outcome, Ready(s.journal, args, now), r, args, now, result)
    ensures CallEnds(cfg, s, args, now, result, outcome, s.journal[Op(args.executionRef) := r])
  {
    hide Prepares, ConsumptionSucceeds, StartEnds, Ready;
  }

  lemma CallEndsUnready(cfg: Config, s: State, args: Args, now: Instant, result: SettleResult, after: J.Records)
    requires !Prepares(cfg.store, s.journal, args, now) && (Op(args.executionRef) in s.journal ==> after == s.journal)
    ensures CallEnds(cfg, s, args, now, result, StateUnavailable, after)
  {
  }

  lemma ReadyLeads(cfg: Config, s: State, pid: nat, now: Instant)
    requires pid in s.calls && J.RecordsInv(s.journal) && Prepares(cfg.store, s.journal, s.calls[pid].args, now)
    ensures var args, t := s.calls[pid].args, Prepare(cfg, s, pid, now, NoFault);
            var op, r := Op(args.executionRef), Ready(s.journal, args, now);
            && t.calls[pid].pc == LookingUp && t.calls[pid].args == args
            && t.journal == s.journal[op := r] && J.RecordsInv(t.journal) && Own(t, args)
            && (cfg.store.Database? ==> J.RecordTimes(r))
            && t.consumed == s.consumed && t.decisions == s.decisions
  {
    PrepareLeaves(cfg.store, s.journal, s.calls[pid].args, now);
    PrepareLeads(cfg, s, pid, now);
    hide Prepare, J.Step, J.RecordsInv, Prepares, Ready, Binding;
  }

  lemma UnreadyLeads(cfg: Config, s: State, pid: nat, now: Instant)
    requires pid in s.calls && J.RecordsInv(s.journal) && !Prepares(cfg.store, s.journal, s.calls[pid].args, now)
    ensures var t := Prepare(cfg, s, pid, now, NoFault);
            && t.calls[pid].pc == Done(StateUnavailable)
            && (Op(s.calls[pid].args.executionRef) in s.journal ==> t.journal == s.journal)
  {
    PrepareLeaves(cfg.store, s.journal, s.calls[pid].args, now);
    PrepareLeads(cfg, s, pid, now);
    hide Prepare, J.Step, J.RecordsInv, Prepares, Binding;
  }

  lemma PreparingEnds(cfg: Config, s: State, pid: nat, now: Instant, result: SettleResult, n: nat)
    returns (outcome: Outcome, after: J.Records)
    requires cfg.journalled && pid in s.calls && s.calls[pid].pc.Preparing? && n >= 7 && J.RecordsInv(s.journal)
    ensures Ended(cfg, s, pid, now, result, n, outcome, after)
    ensures CallEnds(cfg, s, s.calls[pid].args, now, result, outcome, after)
  {
    var args := s.calls[pid].args;
    var op := Op(args.executionRef);
    var t := Prepare(cfg, s, pid, now, NoFault);
    AdvanceIs(cfg, s, pid, now, result);
    hide Advance, Prepare;
    if Prepares(cfg.store, s.journal, args, now) {
      ReadyLeads(cfg, s, pid, now);
      SameConsumption(s, t, args, now);
      hide Ended, J.RecordsInv, StartEnds, Prepares, Ready, J.RecordTimes, CallEnds, ConsumptionSucceeds, Own;
      var r;
      outcome, r := LookingUpEnds(cfg, t, pid, now, result, n - 1);
      after := s.journal[op := r];
      Overwrites(s.journal, t.journal, op, Ready(s.journal, args, now), r);
      CallEndsReady(cfg, s, args, now, result, outcome, r);
    } else {
      UnreadyLeads(cfg, s, pid, now);
      hide Ended, J.RecordsInv, Prepares, CallEnds;
      outcome, after := StateUnavailable, t.journal;
      EndedHere(cfg, t, pid, now, result, n - 1);
      CallEndsUnready(cfg, s, args, now, result, after);
    }
    hide Ended, CallEnds;
    EndedNext(cfg, s, t, pid, now, result, n, outcome, after);
  }

  lemma PrepareLeads(cfg: Config, s: State, pid: nat, now: Instant)
    requires pid in s.calls && J.RecordsInv(s.journal)
    ensures var args := s.calls[pid].args;
            var t := Prepare(cfg, s, pid, now, NoFault);
            var prepares := Prepares(cfg.store, s.journal, args, now);
            && t.calls[pid] == s.calls[pid].(pc := if prepares then LookingUp else Done(StateUnavailable))
            && t == s.(journal := t.journal, calls := t.calls)
            && t.journal == J.Step(cfg.store, s.journal, PrepareCall(args, now)).0
            && (prepares ==> var r := Ready(s.journal, args, now);
                             r.bindingHash == Binding(args) && (cfg.store.Database? ==> J.RecordTimes(r)))
  {
    PrepareLeaves(cfg.store, s.journal, s.calls[pid].args, now);
    hide J.Step, J.RecordsInv, Binding;
  }

  // ---- the whole call ---------------------------------------------------------------------------------

  predicate Checked(cfg: Config, args: Args, now: Instant) {
    cfg.verified(args, now) && args.action.Some? && args.decision.body.actionHash == OfAction(args.action.value)
  }

  lemma VerifyLeads(cfg: Config, s: State, pid: nat, now: Instant)
    requires pid in s.calls && cfg.journalled
    ensures Verify(cfg, s, pid, now).calls[pid].pc
         == if !cfg.verified(s.calls[pid].args, now) then Done(VerificationFailed)
            else if !Checked(cfg, s.calls[pid].args, now) then Done(ActionMismatch) else Preparing
  {
  }

  lemma SameCallEnds(cfg: Config, s: State, t: State, args: Args, now: Instant, result: SettleResult, outcome: Outcome,
                     after: J.Records)
    requires CallEnds(cfg, t, args, now, result, outcome, after)
    requires t.journal == s.journal && t.consumed == s.consumed && t.decisions == s.decisions
    ensures CallEnds(cfg, s, args, now, result, outcome, after)
  {
    SameConsumption(s, t, args, now);
    hide ConsumptionSucceeds, Prepares, StartEnds, Ready;
  }

  lemma BeginLeads(cfg: Config, s: State, pid: nat, args: Args)
    requires pid !in s.calls
    ensures var begun := Exec(cfg, s, Begin(pid, args));
            && pid in begun.calls && begun.calls[pid].args == args && begun.calls[pid].pc == Verifying
            && begun.journal == s.journal && begun.consumed == s.consumed && begun.decisions == s.decisions
  {
  }

  lemma CheckedIsVerified(cfg: Config, args: Args, now: Instant)
    ensures Checked(cfg, args, now) ==> cfg.verified(args, now)
  {
  }

  lemma CallEndsSo(cfg: Config, s: State, pid: nat, args: Args, now: Instant, result: SettleResult)
    returns (outcome: Outcome, after: J.Records)
    requires cfg.journalled && J.RecordsInv(s.journal) && pid !in s.calls
    ensures Ended(cfg, Exec(cfg, s, Begin(pid, args)), pid, now, result, 8, outcome, after)
    ensures outcome == VerificationFailed <==> !cfg.verified(args, now)
    ensures outcome == ActionMismatch <==> cfg.verified(args, now) && !Checked(cfg, args, now)
    ensures Checked(cfg, args, now) ==> cfg.verified(args, now) && CallEnds(cfg, s, args, now, result, outcome, after)
    ensures !Checked(cfg, args, now) ==> after == s.journal
  {
    hide Ended, Advance, Verify, Exec, J.RecordsInv, CallEnds, Checked;
    BeginLeads(cfg, s, pid, args);
    CheckedIsVerified(cfg, args, now);
    var begun := Exec(cfg, s, Begin(pid, args));
    var t := Verify(cfg, begun, pid, now);
    AdvanceIs(cfg, begun, pid, now, result);
    VerifyKeeps(cfg, begun, pid, now);
    VerifyLeads(cfg, begun, pid, now);
    if t.calls[pid].pc.Done? {
      outcome, after := t.calls[pid].pc.outcome, s.journal;
      EndedHere(cfg, t, pid, now, result, 7);
    } else {
      outcome, after := PreparingEnds(cfg, t, pid, now, result, 7);
      SameCallEnds(cfg, s, t, args, now, result, outcome, after);
      EndsSomehow(cfg, s, args, now, result, outcome, after);
    }
    EndedNext(cfg, begun, t, pid, now, result, 8, outcome, after);
  }

  lemma EndsSomehow(cfg: Config, s: State, args: Args, now: Instant, result: SettleResult, outcome: Outcome, after: J.Records)
    requires CallEnds(cfg, s, args, now, result, outcome, after)
    ensures outcome != VerificationFailed && outcome != ActionMismatch && outcome != Conflict && outcome != SettleThrew
            && outcome != Crashed
  {
    hide Prepares, ConsumptionSucceeds, Recorded, J.RecordTimes, Ready;
  }

  /** The call has passed its checks and consumed its decision under its reference. */
  predicate Consumes(cfg: Config, s: State, args: Args, now: Instant) {
    Checked(cfg, args, now) && Prepares(cfg.store, s.journal, args, now) && ConsumptionSucceeds(s, args, now)
  }

  function StatusFound(journal: J.Records, args: Args): J.Status {
    if Op(args.executionRef) in journal then journal[Op(args.executionRef)].status else J.Prepared
  }

  /** It starts its callback. */
  predicate Calls(cfg: Config, s: State, args: Args, now: Instant) {
    && Consumes(cfg, s, args, now) && StatusFound(s.journal, args) == J.Prepared
    && (cfg.store.Database? ==> J.Representable(now))
  }

  /** It can write down what its callback came to, and is answered. */
  predicate Reconcilable(journal: J.Records, args: Args, now: Instant, result: SettleResult) {
    && (result.Throws? ==> result.errorName != "") && J.Representable(now)
    && (Op(args.executionRef) in journal ==> J.Representable(journal[Op(args.executionRef)].preparedAt))
  }

  /** The outcome, told by what the call finds: `found` of its record, and whether it consumes its decision, starts its
      callback and is answered by the journal at the end. */
  predicate EndsBy(outcome: Outcome, verified: bool, checked: bool, prepares: bool, consumes: bool, found: J.Status,
                   calls: bool, answered: bool, result: SettleResult)
  {
    && (outcome == VerificationFailed <==> !verified)
    && (outcome == ActionMismatch <==> verified && !checked)
    && (outcome == ConsumptionFailed <==> checked && prepares && !consumes)
    && (outcome == AlreadyCompleted <==> consumes && found == J.Succeeded)
    && (outcome == Settled <==> answered && result.Resolves?)
    && (outcome == FailedFinal <==>
          (consumes && found == J.FailedFinal) || (answered && result.Throws? && result.classifiedFinal))
    && (outcome == OutcomeUnknown <==>
          (consumes && (found == J.InProgress || found == J.OutcomeUnknown))
          || (answered && result.Throws? && !result.classifiedFinal))
    && (outcome == Unreconciled <==> calls && !answered)
    && (outcome == StateUnavailable <==> checked && (!prepares || (consumes && found == J.Prepared && !calls)))
  }

  /** The callback was started and its result has a record: of this call, at this instant, and no other changed. */
  predicate LeavesResult(before: J.Records, after: J.Records, args: Args, now: Instant, result: SettleResult) {
    var op := Op(args.executionRef);
    && op in after && after == before[op := after[op]] && Recorded(after[op], args, result)
    && after[op].decisionId == args.decision.body.decisionId && after[op].actionHash == args.decision.body.actionHash
    && after[op].executionRef == args.executionRef
    && after[op].startedAt == Some(now) && after[op].updatedAt == now
  }

  lemma TimesAfter(outcome: Outcome, r: J.Record, after: J.Record, args: Args, now: Instant, result: SettleResult)
    requires J.RecordInv(r) && r.status == J.Prepared && r.decisionId == args.decision.body.decisionId
    requires r.actionHash == args.decision.body.actionHash && r.operationId == Op(args.executionRef)
    requires Concludes(outcome, Taken(r, now), after, args, now, result)
    ensures if result.Throws? && result.errorName == "" then outcome == Unreconciled
            else && after.decisionId == args.decision.body.decisionId
                 && after.actionHash == args.decision.body.actionHash && after.executionRef == args.executionRef
                 && after.startedAt == Some(now) && after.updatedAt == now && Recorded(after, args, result)
                 && outcome == if J.Representable(now) && J.Representable(r.preparedAt) then OutcomeOf(result)
                               else Unreconciled
  {
    hide Binding, IsCode, J.Representable;
  }

  lemma ReadyIs(store: J.Backend, journal: J.Records, args: Args, now: Instant)
    requires J.RecordsInv(journal) && Prepares(store, journal, args, now)
    ensures var r := Ready(journal, args, now);
            && J.RecordInv(r) && r.status == StatusFound(journal, args) && r.operationId == Op(args.executionRef)
            && r.decisionId == args.decision.body.decisionId && r.actionHash == args.decision.body.actionHash
            && (Op(args.executionRef) in journal ==> r == journal[Op(args.executionRef)])
            && (Op(args.executionRef) !in journal ==> J.Representable(now) && r.preparedAt == now)
  {
    hide Binding;
  }

  /** Of a start: what it answers by the record it finds, and what its callback leaves. */
  lemma StartTells(store: J.Backend, outcome: Outcome, r: J.Record, after: J.Record, args: Args, now: Instant,
                   result: SettleResult)
    requires J.RecordInv(r) && r.operationId == Op(args.executionRef) && r.decisionId == args.decision.body.decisionId
    requires r.actionHash == args.decision.body.actionHash && StartEnds(store, outcome, r, after, args, now, result)
    ensures var calls := r.status == J.Prepared && (store.Database? ==> J.Representable(now));
            var answered := && calls && (result.Throws? ==> result.errorName != "") && J.Representable(now)
                            && J.Representable(r.preparedAt);
            && EndsBy(outcome, true, true, true, true, r.status, calls, answered, result)
            && (r.status != J.Prepared ==> after == r)
            && (calls && (result.Throws? ==> result.errorName != "") ==>
                  && after.decisionId == args.decision.body.decisionId
                  && after.actionHash == args.decision.body.actionHash && after.executionRef == args.executionRef
                  && after.startedAt == Some(now) && after.updatedAt == now && Recorded(after, args, result))
  {
    if r.status == J.Prepared && (store.Database? ==> J.Representable(now)) {
      TimesAfter(outcome, r, after, args, now, result);
    }
    hide Concludes, Recorded, J.RecordInv, J.RecordTimes, J.Representable, Taken;
  }

  lemma ReadyFound(journal: J.Records, args: Args, now: Instant)
    ensures Op(args.executionRef) in journal ==> Ready(journal, args, now) == journal[Op(args.executionRef)]
  {
  }

  lemma EndsEarly(cfg: Config, s: State, args: Args, now: Instant, result: SettleResult, outcome: Outcome,
                    after: J.Records)
    requires J.RecordsInv(s.journal) && CallEnds(cfg, s, args, now, result, outcome, after) && Checked(cfg, args, now)
    requires !Consumes(cfg, s, args, now)
    ensures EndsBy(outcome, true, true, Prepares(cfg.store, s.journal, args, now), Consumes(cfg, s, args, now),
                   StatusFound(s.journal, args), Calls(cfg, s, args, now),
                   Calls(cfg, s, args, now) && Reconcilable(s.journal, args, now, result), result)
    ensures Calls(cfg, s, args, now) && (result.Throws? ==> result.errorName != "") ==>
              LeavesResult(s.journal, after, args, now, result)
    ensures StatusFound(s.journal, args) != J.Prepared ==> after == s.journal
  {
    hide Checked, Prepares, ConsumptionSucceeds, J.RecordsInv, J.Representable, Ready, LeavesResult, StartEnds, J.Identical;
    var op := Op(args.executionRef);
    if op in s.journal { assert s.journal[op := s.journal[op]] == s.journal; }
    ReadyFound(s.journal, args, now);
  }

  lemma EndsExactly(cfg: Config, s: State, args: Args, now: Instant, result: SettleResult, outcome: Outcome,
                    after: J.Records)
    requires J.RecordsInv(s.journal) && CallEnds(cfg, s, args, now, result, outcome, after) && Checked(cfg, args, now)
    ensures EndsBy(outcome, true, true, Prepares(cfg.store, s.journal, args, now), Consumes(cfg, s, args, now),
                   StatusFound(s.journal, args), Calls(cfg, s, args, now),
                   Calls(cfg, s, args, now) && Reconcilable(s.journal, args, now, result), result)
    ensures Calls(cfg, s, args, now) && (result.Throws? ==> result.errorName != "") ==>
              LeavesResult(s.journal, after, args, now, result)
    ensures StatusFound(s.journal, args) != J.Prepared ==> after == s.journal
  {
    hide Checked, Prepares, ConsumptionSucceeds, J.RecordsInv, J.RecordInv, Ready, J.Representable, Recorded, StartEnds,
      EndsBy;
    var op := Op(args.executionRef);
    if Consumes(cfg, s, args, now) {
      var r := Ready(s.journal, args, now);
      ReadyIs(cfg.store, s.journal, args, now);
      StartTells(cfg.store, outcome, r, after[op], args, now, result);
      if op in s.journal { assert s.journal[op := s.journal[op]] == s.journal; }
    } else {
      EndsEarly(cfg, s, args, now, result, outcome, after);
    }
  }

  /** For an undisturbed call with a journal, from any reachable state and whatever its callback comes to, each outcome
      has its exact condition; and a callback that was started leaves the record of the reference, and no other, as a
      success, a final failure or an unknown outcome with the fields of this call, unless its error has no name. */
  lemma CallEndsExactly(cfg: Config, s: State, pid: nat, args: Args, now: Instant, result: SettleResult)
    requires cfg.journalled && Inv(cfg, s) && pid !in s.calls
    ensures var t := Steps(cfg, Exec(cfg, s, Begin(pid, args)), pid, now, result, 8);
            && pid in t.calls && t.calls[pid].pc.Done?
            && EndsBy(t.calls[pid].pc.outcome, cfg.verified(args, now), Checked(cfg, args, now),
                      Prepares(cfg.store, s.journal, args, now), Consumes(cfg, s, args, now),
                      StatusFound(s.journal, args), Calls(cfg, s, args, now),
                      Calls(cfg, s, args, now) && Reconcilable(s.journal, args, now, result), result)
            && (Calls(cfg, s, args, now) && (result.Throws? ==> result.errorName != "") ==>
                  LeavesResult(s.journal, t.journal, args, now, result))
            && (StatusFound(s.journal, args) != J.Prepared ==> t.journal == s.journal)
  {
    InvRecords(cfg, s);
    hide Inv, Steps, Exec, CallEnds, J.RecordsInv, LeavesResult, Reconcilable;
    var outcome, after := CallEndsSo(cfg, s, pid, args, now, result);
    if Checked(cfg, args, now) {
      hide Checked, Calls, Consumes, Prepares, EndsBy;
      EndsExactly(cfg, s, args, now, result, outcome, after);
    }
  }

  // ---- without a journal ------------------------------------------------------------------------------

  lemma BareLeads(cfg: Config, s: State, pid: nat, now: Instant, result: SettleResult)
    requires !cfg.journalled && pid in s.calls
    ensures var pc := Settle(cfg, s, pid, now, result).calls[pid].pc;
            && (pc == Done(Settled) <==> result.Resolves?) && (pc == Done(SettleThrew) <==> result.Throws?)
            && Settle(cfg, s, pid, now, result).journal == s.journal
    ensures var t := Verify(cfg, s, pid, now);
            && t.calls[pid].pc == (if !cfg.verified(s.calls[pid].args, now) then Done(VerificationFailed)
                                   else if !Checked(cfg, s.calls[pid].args, now) then Done(ActionMismatch) else LookingUp)
    ensures s.calls[pid].pc == Consuming(Issued(s, s.calls[pid].args)) ==>
              var t := Consume(cfg, s, pid, now, NoFault, false);
              && t.journal == s.journal && t.calls[pid].args == s.calls[pid].args
              && t.calls[pid].pc
                 == if ConsumptionSucceeds(s, s.calls[pid].args, now) then Calling else Done(ConsumptionFailed)
  {
    hide ConsumeIssued, ConsumptionSucceeds;
    ConsumptionMeans(s, s.calls[pid].args, now);
  }

  lemma BareCallingEnds(cfg: Config, s: State, pid: nat, now: Instant, result: SettleResult, n: nat)
    requires !cfg.journalled && pid in s.calls && s.calls[pid].pc.Calling? && n >= 2
    ensures Ended(cfg, s, pid, now, result, n, if result.Resolves? then Settled else SettleThrew, s.journal)
  {
    hide Ended, Advance, CallSettle, Settle, Verify, Consume;
    AdvanceIs(cfg, s, pid, now, result);
    CallLeads(s, pid);
    var t := CallSettle(s, pid);
    AdvanceIs(cfg, t, pid, now, result);
    BareLeads(cfg, t, pid, now, result);
    var u := Settle(cfg, t, pid, now, result);
    EndedHere(cfg, u, pid, now, result, n - 2);
    EndedNext(cfg, t, u, pid, now, result, n - 1, u.calls[pid].pc.outcome, s.journal);
    EndedNext(cfg, s, t, pid, now, result, n, u.calls[pid].pc.outcome, s.journal);
  }

  lemma BareLookingUpEnds(cfg: Config, s: State, pid: nat, now: Instant, result: SettleResult, n: nat)
    returns (outcome: Outcome)
    requires !cfg.journalled && pid in s.calls && s.calls[pid].pc.LookingUp? && n >= 4
    ensures Ended(cfg, s, pid, now, result, n, outcome, s.journal)
    ensures outcome == if !ConsumptionSucceeds(s, s.calls[pid].args, now) then ConsumptionFailed
                       else if result.Resolves? then Settled else SettleThrew
  {
    hide Ended, Advance, Consume, Settle, Verify, ConsumptionSucceeds;
    var t := LookUp(s, pid, NoFault);
    AdvanceIs(cfg, s, pid, now, result);
    AdvanceIs(cfg, t, pid, now, result);
    BareLeads(cfg, t, pid, now, result);
    SameConsumption(s, t, s.calls[pid].args, now);
    var u := Consume(cfg, t, pid, now, NoFault, false);
    if u.calls[pid].pc.Done? {
      outcome := ConsumptionFailed;
      EndedHere(cfg, u, pid, now, result, n - 2);
    } else {
      outcome := if result.Resolves? then Settled else SettleThrew;
      BareCallingEnds(cfg, u, pid, now, result, n - 2);
    }
    EndedNext(cfg, t, u, pid, now, result, n - 1, outcome, s.journal);
    EndedNext(cfg, s, t, pid, now, result, n, outcome, s.journal);
  }

  /** Without a journal an undisturbed call answers what its callback came to, or why it never started it; nothing is
      recorded. */
  lemma BareCallEndsExactly(cfg: Config, s: State, pid: nat, args: Args, now: Instant, result: SettleResult)
    requires !cfg.journalled && pid !in s.calls
    ensures var t := Steps(cfg, Exec(cfg, s, Begin(pid, args)), pid, now, result, 8);
            && pid in t.calls && t.calls[pid].pc.Done? && t.journal == s.journal
            && var outcome := t.calls[pid].pc.outcome;
               var consumes := Checked(cfg, args, now) && ConsumptionSucceeds(s, args, now);
               && (outcome == VerificationFailed <==> !cfg.verified(args, now))
               && (outcome == ActionMismatch <==> cfg.verified(args, now) && !Checked(cfg, args, now))
               && (outcome == ConsumptionFailed <==> Checked(cfg, args, now) && !consumes)
               && (outcome == Settled <==> consumes && result.Resolves?)
               && (outcome == SettleThrew <==> consumes && result.Throws?)
  {
    hide Steps, Advance, Exec, Consume, Settle, Verify, ConsumptionSucceeds, Checked;
    BeginLeads(cfg, s, pid, args);
    CheckedIsVerified(cfg, args, now);
    var begun := Exec(cfg, s, Begin(pid, args));
    var t := Verify(cfg, begun, pid, now);
    AdvanceIs(cfg, begun, pid, now, result);
    VerifyKeeps(cfg, begun, pid, now);
    BareLeads(cfg, begun, pid, now, result);
    SameConsumption(s, t, args, now);
    var outcome;
    if t.calls[pid].pc.Done? {
      outcome := t.calls[pid].pc.outcome;
      EndedHere(cfg, t, pid, now, result, 7);
    } else {
      outcome := BareLookingUpEnds(cfg, t, pid, now, result, 7);
    }
    EndedNext(cfg, begun, t, pid, now, result, 8, outcome, s.journal);
  }
}
