/** What the claim-once machine guarantees over every run. */
module ClaimOnceSafety {
  import opened ClaimOnce

  /** In every interleaving, with every pattern of faults and crashes, what the journal key stands for is executed at
      most once and finished at most once, so never under a second binding. */
  lemma ExecutesOncePerKey(cfg: Config, labels: seq<Label>, i: nat, j: nat)
    requires i < j < |Run(cfg, Initial(), labels).executed|
    ensures var log := Run(cfg, Initial(), labels).executed; log[i].args.key != log[j].args.key
  {
    RunKeepsInv(cfg, Initial(), labels);
    var s := Run(cfg, Initial(), labels);
    assert EntryOk(s, s.executed[i], 2) && EntryOk(s, s.executed[j], 2);
  }

  lemma FinishesOncePerKey(cfg: Config, labels: seq<Label>, i: nat, j: nat)
    requires i < j < |Run(cfg, Initial(), labels).finished|
    ensures var log := Run(cfg, Initial(), labels).finished; log[i].args.key != log[j].args.key
  {
    RunKeepsInv(cfg, Initial(), labels);
    var s := Run(cfg, Initial(), labels);
    assert EntryOk(s, s.finished[i], 3) && EntryOk(s, s.finished[j], 3);
  }

  /** Each execution is of the call that claimed the key, under the binding the journal holds, and after its own
      decision, an issued ALLOW of its action, was consumed under its reference. */
  lemma ExecutionsAreClaimedAndConsumed(cfg: Config, labels: seq<Label>, e: Entry)
    requires e in Run(cfg, Initial(), labels).executed
    ensures var s := Run(cfg, Initial(), labels);
            && Owns(s, e.pid, e.args) && s.journal[e.args.key].binding == e.args.binding && ConsumedFor(s, e.args)
  {
    RunKeepsInv(cfg, Initial(), labels);
    var s := Run(cfg, Initial(), labels);
    var i :| 0 <= i < |s.executed| && s.executed[i] == e;
    assert EntryOk(s, s.executed[i], 2);
  }

  /** What a call answers for a completed key, first hand or replayed, is what the one execution of the key made, and
      the caller's binding is that execution's. */
  lemma AnswersCarryTheExecution(cfg: Config, labels: seq<Label>, pid: nat) returns (i: nat)
    requires var s := Run(cfg, Initial(), labels);
             && pid in s.calls && s.calls[pid].pc.Done?
             && (s.calls[pid].pc.outcome.Replayed? || s.calls[pid].pc.outcome.Executed?)
    ensures var s := Run(cfg, Initial(), labels);
            && i < |s.executed| && s.executed[i].args.key == s.calls[pid].args.key
            && s.executed[i].args.binding == s.calls[pid].args.binding
            && s.executed[i].pid in s.made && s.made[s.executed[i].pid] == s.calls[pid].pc.outcome.payload
  {
    RunKeepsInv(cfg, Initial(), labels);
    var s := Run(cfg, Initial(), labels);
    var key := s.calls[pid].args.key;
    assert ThreadInv(s, pid, s.calls[pid]) && RecordOk(s, key);
    i :| 0 <= i < |s.executed| && s.executed[i].pid == s.owner[key];
    assert EntryOk(s, s.executed[i], 2);
  }
}
