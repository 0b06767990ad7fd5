/** How calls of the settlement guard end, and what the journal then says (packages/x402-adapter/src/guard.ts). */
module GuardOutcomes {
  import opened Prelude
  import opened Decisions
  import J = Journal
  import H = JournalHistory
  import opened Guard
  import opened GuardSafety

  // ---- what a settle callback comes to ----------------------------------------------------------------

  function OutcomeOf(result: SettleResult): Outcome {
    match result
    case Resolves => Settled
    case Throws(_, true) => FailedFinal
    case Throws(_, false) => OutcomeUnknown
  }

  /** The name of the error, cut to 128 characters. */
  predicate IsCode(code: string, name: string) {
    code <= name && |code| == if |name| < 128 then |name| else 128
  }

  /** The record after the call wrote down what its callback came to. */
  predicate Recorded(r: J.Record, args: Args, result: SettleResult) {
    && r.bindingHash == Binding(args)
    && match result
       case Resolves =>
         r.status == J.Succeeded && r.outcomeReference == Some(args.executionRef) && r.lastErrorCode == None
         && r.resolvedAt == Some(r.updatedAt)
       case Throws(name, true) =>
         r.status == J.FailedFinal && r.lastErrorCode.Some? && IsCode(r.lastErrorCode.value, name)
         && r.outcomeReference == None && r.resolvedAt == Some(r.updatedAt)
       case Throws(name, false) =>
         r.status == J.OutcomeUnknown && r.lastErrorCode.Some? && IsCode(r.lastErrorCode.value, name)
         && r.outcomeReference == None && r.resolvedAt == None
  }

  /** What the record says from then on: an unknown outcome may still be resolved by an operator. */
  predicate Standing(r: J.Record, args: Args, result: SettleResult) {
    && r.bindingHash == Binding(args)
    && match result
       case Resolves => r.status == J.Succeeded && r.outcomeReference == Some(args.executionRef)
       case Throws(name, true) =>
         r.status == J.FailedFinal && r.lastErrorCode.Some? && IsCode(r.lastErrorCode.value, name)
       case Throws(_, false) => r.status in {J.OutcomeUnknown, J.Succeeded, J.FailedFinal}
  }

  predicate IsMark(call: J.Call, args: Args, result: SettleResult) {
    && J.Target(call) == Op(args.executionRef)
    && match result
       case Resolves =>
         call.MarkSucceeded? && call.bindingHash == Binding(args) && call.outcomeReference == args.executionRef
       case Throws(name, true) =>
         call.MarkFailedFinal? && call.bindingHash == Binding(args) && IsCode(call.errorCode, name)
       case Throws(name, false) =>
         call.MarkOutcomeUnknown? && call.bindingHash == Binding(args) && IsCode(call.errorCode, name)
  }

  lemma SettleMarks(cfg: Config, s: State, pid: nat, now: Instant, result: SettleResult)
    requires pid in s.calls && cfg.journalled
    ensures var t := Settle(cfg, s, pid, now, result);
            && t.calls[pid].pc.Marking? && IsMark(t.calls[pid].pc.call, s.calls[pid].args, result)
            && t.calls[pid].pc.call.at == now && t.calls[pid].pc.after == OutcomeOf(result)
            && t == At(s, pid, t.calls[pid].pc)
  {
  }

  /** A mark takes the record of its own reference from in progress to what the callback came to, and is answered only
      by a record that says so. */
  lemma MarkWrites(store: J.Backend, journal: J.Records, args: Args, result: SettleResult, call: J.Call)
    requires J.RecordsInv(journal) && IsMark(call, args, result)
    ensures var (next, answer) := J.Step(store, journal, call);
            var op := Op(args.executionRef);
            && (next != journal ==>
                  && op in journal && journal[op].status == J.InProgress && op in next
                  && next == journal[op := next[op]] && Recorded(next[op], args, result) && next[op].updatedAt == call.at)
            && (answer.Operation? ==> op in next && Standing(next[op], args, result))
  {
    var op := Op(args.executionRef);
    var (next, answer) := J.Step(store, journal, call);
    H.StepWrites(store, journal, call);
    J.StepKeepsRecords(store, journal, call);
    if next != journal {
      assert next == journal[op := next[op]];
      assert J.RecordInv(next[op]);
    }
    MarkAnswers(store, J.Find(journal, call), args, result, call);
  }

  lemma MarkAnswers(store: J.Backend, r: Option<J.Record>, args: Args, result: SettleResult, call: J.Call)
    requires IsMark(call, args, result)
    ensures var (s, answer) := J.Apply(store, r, call);
            answer.Operation? ==> s.Some? && Standing(s.value, args, result)
  {
  }

  // ---- what becomes of a result, over every run -------------------------------------------------------

  /** The call's own moves change no record but that of its reference, and that only from in progress to what its
      callback came to. */
  ghost predicate OnlyRecords(cfg: Config, s: State, labels: seq<Label>, pid: nat, args: Args, result: SettleResult)
    decreases |labels|
  {
    labels == []
    || var t := Exec(cfg, s, labels[0]);
       && (labels[0].Go? && labels[0].pid == pid ==> RecordsItsResult(s.journal, t.journal, args, result))
       && OnlyRecords(cfg, t, labels[1..], pid, args, result)
  }

  predicate RecordsItsResult(before: J.Records, after: J.Records, args: Args, result: SettleResult) {
    var op := Op(args.executionRef);
    after == before
    || (&& op in before && before[op].status == J.InProgress && op in after
        && after == before[op := after[op]] && Recorded(after[op], args, result))
  }

  /** Where a call whose callback has come to `result` may be. */
  predicate Concluding(s: State, pid: nat, args: Args, result: SettleResult) {
    && pid in s.calls && s.calls[pid].args == args
    && match s.calls[pid].pc
       case Marking(call, after) => IsMark(call, args, result) && after == OutcomeOf(result)
       case Done(outcome) =>
         || outcome == Crashed || outcome == Unreconciled
         || (&& outcome == OutcomeOf(result) && Op(args.executionRef) in s.journal
             && Standing(s.journal[Op(args.executionRef)], args, result))
       case _ => false
  }

  /** No label takes a record away or sets it back. */
  ghost predicate Advances(before: J.Records, after: J.Records) {
    forall op :: op in before ==> op in after && J.Later(before[op], after[op])
  }

  lemma StepAdvancesAll(store: J.Backend, journal: J.Records, c: J.Call)
    requires J.RecordsInv(journal)
    ensures Advances(journal, J.Step(store, journal, c).0)
  {
    forall op | op in journal
      ensures op in J.Step(store, journal, c).0 && J.Later(journal[op], J.Step(store, journal, c).0[op])
    {
      J.StepAdvancesRecord(store, journal, c, op);
    }
  }

  lemma QuietSteps(cfg: Config, s: State, pid: nat, now: Instant, fault: Fault, refused: bool, result: SettleResult)
    requires pid in s.calls
    ensures Verify(cfg, s, pid, now).journal == LookUp(s, pid, fault).journal == Read(cfg, s, pid, fault).journal == s.journal
    ensures CallSettle(s, pid).journal == Settle(cfg, s, pid, now, result).journal == s.journal
    ensures s.calls[pid].pc.Consuming? ==> Consume(cfg, s, pid, now, fault, refused).journal == s.journal
  {
    hide ConsumeIssued, HashAction, Binding;
  }

  lemma StoreSteps(cfg: Config, s: State, pid: nat, now: Instant, fault: Fault)
    requires pid in s.calls
    ensures var args := s.calls[pid].args;
            && Prepare(cfg, s, pid, now, fault).journal
               in {s.journal, J.Step(cfg.store, s.journal, PrepareCall(args, now)).0}
            && StartAttempt(cfg, s, pid, now, fault).journal
               in {s.journal, J.Step(cfg.store, s.journal, J.Start(Op(args.executionRef), Binding(args), now)).0}
    ensures s.calls[pid].pc.Marking? ==>
              Mark(cfg, s, pid, fault).journal in {s.journal, J.Step(cfg.store, s.journal, s.calls[pid].pc.call).0}
  {
    hide J.Step, Binding;
  }

  lemma JournalSteps(cfg: Config, s: State, l: Label) returns (c: Option<J.Call>)
    ensures c.None? ==> Exec(cfg, s, l).journal == s.journal
    ensures c.Some? ==> Exec(cfg, s, l).journal == J.Step(cfg.store, s.journal, c.value).0
                        || Exec(cfg, s, l).journal == s.journal
  {
    hide J.Step, ConsumeIssued, Binding, Verify, Prepare, LookUp, Consume, StartAttempt, Read, CallSettle, Settle, Mark;
    c := None;
    if l.OtherJournal? {
      c := Some(l.call);
    } else if l.Go? && l.pid in s.calls {
      QuietSteps(cfg, s, l.pid, l.now, l.fault, l.refused, l.result);
      StoreSteps(cfg, s, l.pid, l.now, l.fault);
      var args := s.calls[l.pid].args;
      match s.calls[l.pid].pc
      case Preparing => c := Some(PrepareCall(args, l.now));
      case Starting => c := Some(J.Start(Op(args.executionRef), Binding(args), l.now));
      case Marking(call, _) => c := Some(call);
      case _ =>
    }
  }

  lemma ExecAdvances(cfg: Config, s: State, l: Label)
    requires J.RecordsInv(s.journal)
    ensures Advances(s.journal, Exec(cfg, s, l).journal)
  {
    hide J.Step, J.RecordsInv, Exec;
    var c := JournalSteps(cfg, s, l);
    if c.Some? { StepAdvancesAll(cfg.store, s.journal, c.value); }
  }

  lemma OthersStand(cfg: Config, s: State, l: Label, pid: nat)
    requires Inv(cfg, s) && pid in s.calls
    requires !(l.Go? && l.pid == pid) && !(l.Crash? && l.pid == pid)
    ensures pid in Exec(cfg, s, l).calls && Exec(cfg, s, l).calls[pid] == s.calls[pid]
  {
    hide Inv, J.Step, ConsumeIssued, Advance;
    if l.Go? && l.pid in s.calls {
      hide Moved;
      AdvanceMoves(cfg, s, l.pid, l.now, l.fault, l.refused, l.result);
      MovedApart(cfg, s, Exec(cfg, s, l), l.pid, pid);
    }
  }

  lemma MovedApart(cfg: Config, s: State, t: State, mover: nat, pid: nat)
    requires Moved(cfg, s, t, mover) && pid != mover && pid in s.calls
    ensures pid in t.calls && t.calls[pid] == s.calls[pid]
    ensures t.log == s.log || (|t.log| == |s.log| + 1 && t.log[..|s.log|] == s.log && t.log[|s.log|].pid == mover)
  {
  }

  lemma MarkLeads(cfg: Config, s: State, pid: nat, fault: Fault)
    requires pid in s.calls && s.calls[pid].pc.Marking?
    ensures var t := Mark(cfg, s, pid, fault);
            var (journal, answer) := J.Step(cfg.store, s.journal, s.calls[pid].pc.call);
            && t.calls[pid].args == s.calls[pid].args
            && t.journal == (if fault == LostRequest then s.journal else journal)
            && t.calls[pid].pc == Done(if fault == NoFault && answer.Operation? then s.calls[pid].pc.after else Unreconciled)
  {
    hide J.Step;
  }

  lemma MarkConcludes(cfg: Config, s: State, pid: nat, fault: Fault, args: Args, result: SettleResult)
    requires Concluding(s, pid, args, result) && s.calls[pid].pc.Marking? && J.RecordsInv(s.journal)
    ensures var t := Mark(cfg, s, pid, fault);
            Concluding(t, pid, args, result) && RecordsItsResult(s.journal, t.journal, args, result)
  {
    hide J.Step, J.RecordsInv, Mark, Recorded, Standing, IsMark, Binding;
    MarkLeads(cfg, s, pid, fault);
    MarkWrites(cfg.store, s.journal, args, result, s.calls[pid].pc.call);
  }

  lemma StaysConcluding(s: State, t: State, pid: nat, args: Args, result: SettleResult)
    requires Concluding(s, pid, args, result) && Advances(s.journal, t.journal)
    requires pid in t.calls && t.calls[pid] == s.calls[pid]
    ensures Concluding(t, pid, args, result)
  {
    hide IsMark, IsCode;
    if s.calls[pid].pc.Done? && Op(args.executionRef) in s.journal {
      var r, u := s.journal[Op(args.executionRef)], t.journal[Op(args.executionRef)];
      assert J.Later(r, u);
    }
  }

  lemma ConcludingMoves(cfg: Config, s: State, l: Label, pid: nat, args: Args, result: SettleResult)
    requires Inv(cfg, s) && Concluding(s, pid, args, result)
    ensures Concluding(Exec(cfg, s, l), pid, args, result)
    ensures l.Go? && l.pid == pid ==> RecordsItsResult(s.journal, Exec(cfg, s, l).journal, args, result)
  {
    InvRecords(cfg, s);
    hide Inv, J.RecordsInv;
    if l.Go? && l.pid == pid {
      hide Concluding, Mark;
      if s.calls[pid].pc.Marking? {
        MarkConcludes(cfg, s, pid, l.fault, args, result);
      } else {
        assert s.calls[pid].pc.Done? by { ConcludingPlaces(s, pid, args, result); }
      }
    } else if !(l.Crash? && l.pid == pid) {
      ExecAdvances(cfg, s, l);
      OthersStand(cfg, s, l, pid);
      hide Exec, Concluding;
      StaysConcluding(s, Exec(cfg, s, l), pid, args, result);
    }
  }

  lemma ConcludingPlaces(s: State, pid: nat, args: Args, result: SettleResult)
    requires Concluding(s, pid, args, result)
    ensures s.calls[pid].pc.Marking? || s.calls[pid].pc.Done?
  {
  }

  lemma {:induction false} ConcludesAndRecords(cfg: Config, s: State, labels: seq<Label>, pid: nat, args: Args,
                                               result: SettleResult)
    requires Inv(cfg, s) && Concluding(s, pid, args, result)
    ensures OnlyRecords(cfg, s, labels, pid, args, result)
    ensures Concluding(Run(cfg, s, labels), pid, args, result)
    decreases |labels|
  {
    hide Inv, Concluding, Exec, RecordsItsResult;
    if labels != [] {
      ConcludingMoves(cfg, s, labels[0], pid, args, result);
      ExecKeepsInv(cfg, s, labels[0]);
      ConcludesAndRecords(cfg, Exec(cfg, s, labels[0]), labels[1..], pid, args, result);
    }
  }

  lemma InvRecords(cfg: Config, s: State)
    requires Inv(cfg, s)
    ensures J.RecordsInv(s.journal)
  {
  }

  lemma SettleConcludes(cfg: Config, s: State, l: Label)
    requires cfg.journalled && l.Go? && l.pid in s.calls && s.calls[l.pid].pc.Settling?
    ensures Concluding(Exec(cfg, s, l), l.pid, s.calls[l.pid].args, l.result)
  {
    SettleMarks(cfg, s, l.pid, l.now, l.result);
    hide Settle, IsMark, Standing;
  }

  /** In every run with a journal: from the moment a settle callback comes to a result, whatever else happens, the call
      changes no record but its own reference's, and that only from in progress to a success, a final failure or an
      unknown outcome, as the callback resolved, failed with an error classified as final, or failed otherwise. It ends
      with the outcome of that result, which the record then bears out, or unreconciled, or not at all. */
  lemma ResultsAreRecorded(cfg: Config, before: seq<Label>, l: Label, more: seq<Label>)
    requires cfg.journalled && l.Go?
    requires var s := Run(cfg, INITIAL, before); l.pid in s.calls && s.calls[l.pid].pc.Settling?
    ensures var s := Run(cfg, INITIAL, before);
            var args, t := s.calls[l.pid].args, Exec(cfg, s, l);
            && t.journal == s.journal
            && OnlyRecords(cfg, t, more, l.pid, args, l.result)
            && Concluding(Run(cfg, t, more), l.pid, args, l.result)
  {
    hide Run, Exec, Concluding, OnlyRecords;
    RunKeepsInv(cfg, INITIAL, before);
    hide Inv;
    var s := Run(cfg, INITIAL, before);
    assert Exec(cfg, s, l).journal == s.journal by { SettleLeavesJournal(cfg, s, l); }
    SettleConcludes(cfg, s, l);
    ExecKeepsInv(cfg, s, l);
    ConcludesAndRecords(cfg, Exec(cfg, s, l), more, l.pid, s.calls[l.pid].args, l.result);
  }

  lemma SettleLeavesJournal(cfg: Config, s: State, l: Label)
    requires l.Go? && l.pid in s.calls && s.calls[l.pid].pc.Settling?
    ensures Exec(cfg, s, l).journal == s.journal
  {
  }

  lemma FailedClaimEnds(cfg: Config, s: State, pid: nat, now: Instant, fault: Fault)
    requires pid in s.calls && fault != NoFault
    ensures Prepare(cfg, s, pid, now, fault).calls[pid].pc == Done(StateUnavailable)
    ensures StartAttempt(cfg, s, pid, now, fault).calls[pid].pc == Done(StateUnavailable)
  {
    hide J.Step, Binding;
  }

  /** A store that failed to answer ends the call where it stands: the journal's silence as unavailable state before the
      callback and as unreconciled after it, the provider's as a failed consumption. */
  lemma FailedAwaitsEnd(cfg: Config, s: State, pid: nat, now: Instant, fault: Fault, refused: bool, result: SettleResult)
    requires pid in s.calls && fault != NoFault
    ensures var next := Advance(cfg, s, pid, now, fault, refused, result).calls[pid].pc;
            match s.calls[pid].pc
            case Preparing => next == Done(StateUnavailable)
            case LookingUp => next == Done(ConsumptionFailed)
            case Consuming(_) => next == Done(ConsumptionFailed)
            case Starting => next == Done(StateUnavailable)
            case Reading => next == Done(StateUnavailable)
            case Marking(_, _) => next == Done(Unreconciled)
            case _ => true
  {
    hide J.Step, ConsumeIssued, Binding, Verify, Prepare, StartAttempt, CallSettle, Settle;
    FailedClaimEnds(cfg, s, pid, now, fault);
  }

  // ---- what an answer means, over every run -----------------------------------------------------------

  /** A start that claimed nothing answers by the record it then reads. */
  lemma ReadAnswers(cfg: Config, s: State, pid: nat, fault: Fault)
    requires pid in s.calls
    ensures var args, pc := s.calls[pid].args, Read(cfg, s, pid, fault).calls[pid].pc;
            var op := Op(args.executionRef);
            var found := fault == NoFault && op in s.journal && (cfg.store.Database? ==> J.RecordTimes(s.journal[op]));
            var own := found && s.journal[op].bindingHash == Binding(args);
            && Read(cfg, s, pid, fault) == At(s, pid, pc)
            && (pc == Done(Conflict) <==> found && !own)
            && (pc == Done(AlreadyCompleted) <==> own && s.journal[op].status == J.Succeeded)
            && (pc == Done(FailedFinal) <==> own && s.journal[op].status == J.FailedFinal)
            && (pc == Done(OutcomeUnknown) <==> own && s.journal[op].status in {J.InProgress, J.OutcomeUnknown})
            && (pc == Done(StateUnavailable) <==> !found || (own && s.journal[op].status == J.Prepared))
  {
    hide Binding, J.RecordTimes;
  }

  predicate StartedBy(s: State, pid: nat) {
    exists i :: 0 <= i < |s.log| && s.log[i].pid == pid
  }

  /** The record of the reference, under this call's binding. */
  predicate Own(s: State, args: Args) {
    Op(args.executionRef) in s.journal && s.journal[Op(args.executionRef)].bindingHash == Binding(args)
  }

  /** What a call with a journal answers is so, and stays so. */
  predicate Bears(s: State, pid: nat, args: Args, outcome: Outcome) {
    var op := Op(args.executionRef);
    match outcome
    case Settled => StartedBy(s, pid) && Own(s, args) && s.journal[op].status == J.Succeeded
                    && s.journal[op].outcomeReference == Some(args.executionRef)
    case AlreadyCompleted => !StartedBy(s, pid) && Own(s, args) && s.journal[op].status == J.Succeeded
    case FailedFinal => Own(s, args) && s.journal[op].status == J.FailedFinal
    case OutcomeUnknown => Own(s, args) && s.journal[op].status != J.Prepared
    case Conflict => !StartedBy(s, pid) && op in s.journal && s.journal[op].bindingHash != Binding(args)
    case Unreconciled => StartedBy(s, pid)
    case SettleThrew => false
    case Crashed => true
    case _ => !StartedBy(s, pid)
  }

  ghost predicate AnswerInv(s: State, pid: nat)
    requires pid in s.calls
  {
    match s.calls[pid].pc
    case Settling => StartedBy(s, pid)
    case Marking(call, after) =>
      StartedBy(s, pid) && exists result :: IsMark(call, s.calls[pid].args, result) && after == OutcomeOf(result)
    case Done(outcome) => Bears(s, pid, s.calls[pid].args, outcome)
    case _ => !StartedBy(s, pid)
  }

  lemma BearsStill(s: State, t: State, pid: nat, args: Args, outcome: Outcome)
    requires Bears(s, pid, args, outcome) && Advances(s.journal, t.journal) && StartedBy(t, pid) == StartedBy(s, pid)
    ensures Bears(t, pid, args, outcome)
  {
    hide StartedBy, Binding;
    if Op(args.executionRef) in s.journal {
      assert J.Later(s.journal[Op(args.executionRef)], t.journal[Op(args.executionRef)]);
    }
  }

  lemma LogApart(s: State, t: State, mover: nat, pid: nat)
    requires mover != pid
    requires t.log == s.log || (|t.log| == |s.log| + 1 && t.log[..|s.log|] == s.log && t.log[|s.log|].pid == mover)
    ensures StartedBy(t, pid) == StartedBy(s, pid)
  {
    assert forall i :: 0 <= i < |s.log| ==> t.log[i] == s.log[i];
    if StartedBy(s, pid) {
      var i :| 0 <= i < |s.log| && s.log[i].pid == pid;
      assert t.log[i].pid == pid;
    }
  }

  lemma AnswersStand(s: State, t: State, pid: nat)
    requires pid in s.calls && AnswerInv(s, pid) && Advances(s.journal, t.journal)
    requires pid in t.calls && t.calls[pid] == s.calls[pid] && StartedBy(t, pid) == StartedBy(s, pid)
    ensures AnswerInv(t, pid)
  {
    hide Bears, StartedBy, Advances, IsMark;
    if s.calls[pid].pc.Done? {
      BearsStill(s, t, pid, s.calls[pid].args, s.calls[pid].pc.outcome);
    }
  }

  /** The steps before the callback is started answer only what needs no start. */
  predicate Early(pc: Pc) {
    match pc
    case Settling => false
    case Marking(_, _) => false
    case Done(outcome) => outcome in {VerificationFailed, ActionMismatch, StateUnavailable, ConsumptionFailed, Crashed}
    case _ => true
  }

  lemma EarlyStore(cfg: Config, s: State, pid: nat, now: Instant, fault: Fault)
    requires pid in s.calls
    ensures var t := Prepare(cfg, s, pid, now, fault);
            t.log == s.log && Early(t.calls[pid].pc) && t.calls[pid].args == s.calls[pid].args
    ensures var t := StartAttempt(cfg, s, pid, now, fault);
            t.log == s.log && Early(t.calls[pid].pc) && t.calls[pid].args == s.calls[pid].args
  {
    hide J.Step, Binding;
  }

  lemma EarlyMoves(cfg: Config, s: State, pid: nat, now: Instant, fault: Fault)
    requires pid in s.calls
    ensures var t := Verify(cfg, s, pid, now);
            t.log == s.log && Early(t.calls[pid].pc) && t.calls[pid].args == s.calls[pid].args
    ensures var t := LookUp(s, pid, fault);
            t.log == s.log && Early(t.calls[pid].pc) && t.calls[pid].args == s.calls[pid].args
  {
    hide HashAction;
  }

  lemma EarlyConsume(cfg: Config, s: State, pid: nat, now: Instant, fault: Fault, refused: bool)
    requires pid in s.calls && s.calls[pid].pc.Consuming?
    ensures var t := Consume(cfg, s, pid, now, fault, refused);
            t.log == s.log && Early(t.calls[pid].pc) && t.calls[pid].args == s.calls[pid].args
  {
    hide ConsumeIssued;
  }

  lemma EarlyAnswers(s: State, t: State, pid: nat)
    requires pid in s.calls && !StartedBy(s, pid)
    requires pid in t.calls && t.log == s.log && Early(t.calls[pid].pc)
    ensures AnswerInv(t, pid)
  {
    assert StartedBy(t, pid) == StartedBy(s, pid);
    hide StartedBy, Own, Binding;
  }

  lemma ReadBears(cfg: Config, s: State, pid: nat, fault: Fault)
    requires pid in s.calls && !StartedBy(s, pid)
    ensures AnswerInv(Read(cfg, s, pid, fault), pid)
  {
    ReadAnswers(cfg, s, pid, fault);
    var t := Read(cfg, s, pid, fault);
    assert StartedBy(t, pid) == StartedBy(s, pid);
    hide StartedBy, Binding;
  }

  lemma CallBears(s: State, pid: nat)
    requires pid in s.calls
    ensures AnswerInv(CallSettle(s, pid), pid)
  {
    var t := CallSettle(s, pid);
    assert t.log[|s.log|].pid == pid;
  }

  lemma SettleBears(cfg: Config, s: State, pid: nat, now: Instant, result: SettleResult)
    requires cfg.journalled && pid in s.calls && StartedBy(s, pid)
    ensures AnswerInv(Settle(cfg, s, pid, now, result), pid)
  {
    SettleMarks(cfg, s, pid, now, result);
    var t := Settle(cfg, s, pid, now, result);
    assert StartedBy(t, pid) == StartedBy(s, pid);
    hide Settle, IsMark, StartedBy, Bears;
  }

  lemma MarkBears(cfg: Config, s: State, pid: nat, fault: Fault)
    requires pid in s.calls && s.calls[pid].pc.Marking? && AnswerInv(s, pid) && J.RecordsInv(s.journal)
    ensures AnswerInv(Mark(cfg, s, pid, fault), pid)
  {
    var args, pc := s.calls[pid].args, s.calls[pid].pc;
    var result :| IsMark(pc.call, args, result) && pc.after == OutcomeOf(result);
    var t := Mark(cfg, s, pid, fault);
    hide AnswerInv, J.RecordsInv, IsMark, RecordsItsResult, StartedBy;
    assert Concluding(s, pid, args, result);
    MarkConcludes(cfg, s, pid, fault, args, result);
    MarkEnds(cfg, s, pid, fault);
    StandingBears(t, pid, args, result);
  }

  lemma MarkEnds(cfg: Config, s: State, pid: nat, fault: Fault)
    requires pid in s.calls && s.calls[pid].pc.Marking? && AnswerInv(s, pid)
    ensures Mark(cfg, s, pid, fault).calls[pid].pc.Done? && Mark(cfg, s, pid, fault).calls[pid].args == s.calls[pid].args
    ensures Mark(cfg, s, pid, fault).calls[pid].pc.outcome in {Unreconciled, s.calls[pid].pc.after}
    ensures StartedBy(Mark(cfg, s, pid, fault), pid)
  {
    assert StartedBy(s, pid);
    assert Mark(cfg, s, pid, fault).log == s.log by { hide J.Step; }
    hide J.Step, IsMark;
  }

  lemma StandingBears(s: State, pid: nat, args: Args, result: SettleResult)
    requires Concluding(s, pid, args, result) && s.calls[pid].pc.Done? && StartedBy(s, pid)
    ensures AnswerInv(s, pid)
  {
    hide StartedBy, Binding, IsCode;
  }

  lemma AdvanceBears(cfg: Config, s: State, pid: nat, now: Instant, fault: Fault, refused: bool, result: SettleResult)
    requires cfg.journalled && pid in s.calls && AnswerInv(s, pid) && J.RecordsInv(s.journal)
    ensures AnswerInv(Advance(cfg, s, pid, now, fault, refused, result), pid)
  {
    EarlyMoves(cfg, s, pid, now, fault);
    EarlyStore(cfg, s, pid, now, fault);
    hide Verify, Prepare, LookUp, Consume, StartAttempt, Read, CallSettle, Settle, Mark, StartedBy, Bears, Early,
      J.RecordsInv, IsMark;
    match s.calls[pid].pc
    case Verifying => EarlyAnswers(s, Verify(cfg, s, pid, now), pid);
    case Preparing => EarlyAnswers(s, Prepare(cfg, s, pid, now, fault), pid);
    case LookingUp => EarlyAnswers(s, LookUp(s, pid, fault), pid);
    case Consuming(_) =>
      EarlyConsume(cfg, s, pid, now, fault, refused);
      EarlyAnswers(s, Consume(cfg, s, pid, now, fault, refused), pid);
    case Starting => EarlyAnswers(s, StartAttempt(cfg, s, pid, now, fault), pid);
    case Reading => ReadBears(cfg, s, pid, fault);
    case Calling => CallBears(s, pid);
    case Settling => SettleBears(cfg, s, pid, now, result);
    case Marking(_, _) => MarkBears(cfg, s, pid, fault);
    case Done(_) =>
  }

  lemma OwnMoveBears(cfg: Config, s: State, l: Label, pid: nat)
    requires cfg.journalled && Inv(cfg, s) && pid in Exec(cfg, s, l).calls && (pid in s.calls ==> AnswerInv(s, pid))
    requires (l.Go? || l.Crash? || l.Begin?) && l.pid == pid
    ensures AnswerInv(Exec(cfg, s, l), pid)
  {
    InvRecords(cfg, s);
    if l.Begin? && pid !in s.calls {
      assert !StartedBy(s, pid) by {
        forall i | 0 <= i < |s.log| ensures s.log[i].pid != pid { assert StartInv(cfg, s, s.log[i]); }
      }
      hide StartedBy;
      var t := Exec(cfg, s, l);
      assert StartedBy(t, pid) == StartedBy(s, pid) by { SameLog(s, t, pid); }
    } else {
      hide Inv, J.RecordsInv;
      if l.Go? {
        hide AnswerInv, Advance;
        AdvanceBears(cfg, s, pid, l.now, l.fault, l.refused, l.result);
      }
    }
  }

  lemma SameLog(s: State, t: State, pid: nat)
    requires t.log == s.log
    ensures StartedBy(t, pid) == StartedBy(s, pid)
  {
  }

  lemma ExecBears(cfg: Config, s: State, l: Label, pid: nat)
    requires cfg.journalled && Inv(cfg, s) && pid in Exec(cfg, s, l).calls && (pid in s.calls ==> AnswerInv(s, pid))
    ensures AnswerInv(Exec(cfg, s, l), pid)
  {
    if (l.Go? || l.Crash? || l.Begin?) && l.pid == pid {
      hide Inv, AnswerInv, Exec;
      OwnMoveBears(cfg, s, l, pid);
    } else {
      InvRecords(cfg, s);
      ExecAdvances(cfg, s, l);
      assert pid in s.calls by { NoOtherBegins(cfg, s, l, pid); }
      OthersStand(cfg, s, l, pid);
      OthersLog(cfg, s, l, pid);
      hide Inv, AnswerInv, Exec, StartedBy, Advances;
      AnswersStand(s, Exec(cfg, s, l), pid);
    }
  }

  lemma NoOtherBegins(cfg: Config, s: State, l: Label, pid: nat)
    requires Inv(cfg, s) && pid in Exec(cfg, s, l).calls && !((l.Go? || l.Crash? || l.Begin?) && l.pid == pid)
    ensures pid in s.calls
  {
    hide Inv, J.Step, ConsumeIssued, Advance;
    if l.Go? && l.pid in s.calls {
      AdvanceMoves(cfg, s, l.pid, l.now, l.fault, l.refused, l.result);
    }
  }

  lemma OthersLog(cfg: Config, s: State, l: Label, pid: nat)
    requires Inv(cfg, s) && pid in s.calls && !((l.Go? || l.Crash? || l.Begin?) && l.pid == pid)
    ensures StartedBy(Exec(cfg, s, l), pid) == StartedBy(s, pid)
  {
    hide Inv, J.Step, ConsumeIssued, Advance, StartedBy;
    if l.Go? && l.pid in s.calls {
      hide Moved;
      AdvanceMoves(cfg, s, l.pid, l.now, l.fault, l.refused, l.result);
      MovedApart(cfg, s, Exec(cfg, s, l), l.pid, pid);
      LogApart(s, Exec(cfg, s, l), l.pid, pid);
    } else {
      SameLog(s, Exec(cfg, s, l), pid);
    }
  }

  ghost predicate AllBear(s: State) {
    forall pid :: pid in s.calls ==> AnswerInv(s, pid)
  }

  lemma {:induction false} RunBears(cfg: Config, s: State, labels: seq<Label>)
    requires cfg.journalled && Inv(cfg, s) && AllBear(s)
    ensures AllBear(Run(cfg, s, labels))
    decreases |labels|
  {
    hide Inv, Exec, AnswerInv;
    if labels != [] {
      forall pid | pid in Exec(cfg, s, labels[0]).calls ensures AnswerInv(Exec(cfg, s, labels[0]), pid) {
        ExecBears(cfg, s, labels[0], pid);
      }
      ExecKeepsInv(cfg, s, labels[0]);
      RunBears(cfg, Exec(cfg, s, labels[0]), labels[1..]);
    }
  }

  /** In every run with a journal, whatever a call has answered holds, now and from then on: settled means that its
      callback was started and the record of its reference, under its binding, is a success; already completed means
      such a success of another call; a final failure and an unknown outcome are those of that record; a conflict means
      another binding; and a call that was refused, for whatever reason, never started its callback. */
  lemma AnswersMeanRecords(cfg: Config, labels: seq<Label>, pid: nat)
    requires cfg.journalled
    requires var s := Run(cfg, INITIAL, labels); pid in s.calls && s.calls[pid].pc.Done?
    ensures var s := Run(cfg, INITIAL, labels); Bears(s, pid, s.calls[pid].args, s.calls[pid].pc.outcome)
  {
    RunBears(cfg, INITIAL, labels);
    assert AnswerInv(Run(cfg, INITIAL, labels), pid);
  }
}
