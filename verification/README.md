# A verified model of the payment authorisation stack

Dafny models of the parts of the repository on which its promises rest, with proofs of those promises. The stack is
fail-closed: a payment runs only after a signed decision was verified, consumed once and claimed in a journal. The
models keep the branches, constants and error answers of the code they cite.

## How the models are built

**Step machines.** The drivers that `await` shared stores are state machines with one step per `await`: the x402 guard
(`Guard.dfy`, `GuardSafety.dfy`, `GuardOutcomes.dfy`, `GuardCalls.dfy`), MTP two-phase consumption (`Mtp.dfy`,
`MtpReceipts.dfy`, `MtpEvidence.dfy`), the KYA gate (`Kya.dfy`, `KyaSafety.dfy`, `KyaOnce.dfy`, `KyaOutcomes.dfy`),
the claim-once gates (`ClaimOnce.dfy`, `ClaimOnceSafety.dfy`), the separate nonce and spend stores (`SplitSpend.dfy`)
and approval resolution (`Approval.dfy`). A label says who moves, what the clock says and how a store call fails: not
at all, before it took effect (`LostRequest`) or after (`LostAnswer`). `Exec` is total, so a sequence of labels is one
interleaving with one pattern of faults and crashes, and a lemma over all label sequences is about every run of any
number of calls.

**Stores and drivers in the form of the source.** The store classes, and the drivers over them, are Dafny classes
whose methods assign to fields. Each method is proved equal to the step function of its machine, so what is proved of
the machine holds of the method: `JournalStores.dfy` (what its records tell is in `JournalHistory.dfy`, its two stores
are compared in `JournalAgreement.dfy` and `JournalQueues.dfy`), `GuardDriver.dfy`, `MtpDriver.dfy`, `KyaDriver.dfy`
(when its calls pass is in `KyaCalls.dfy`), `ClaimOnceStores.dfy`, and the classes in `Spend.dfy`, `KyaNonces.dfy`
(its purges are examined in `KyaForgetting.dfy`), `Amounts.dfy` and `Approval.dfy`.

**Recognisers.** `StrictJson.dfy` specifies the reader, `JsonReader.dfy` is the cursor-moving reader,
`JsonGrammar.dfy` is an independent grammar after RFC 8259 (sections 2 to 7) with distinct member names as in section
2.3 of RFC 7493, `JsonCorrect.dfy` joins the two and `JsonPrinter.dfy` closes the round trip. `Presentation.dfy` is
the SD-JWT walk of section 7.1 of RFC 9901 as a recursive class, terminating by the number of unused disclosures;
`DisclosureForest.dfy` characterises what it accepts without walking, `DisclosureDigests.dfy` what it takes for a
digest.

**Evaluation.** `Failures.dfy`, `Evaluator.dfy`, `EvaluatorCodes.dfy` and `EvaluatorMeaning.dfy` are the conformance
evaluator, what each of its codes says, and the declarative chain they stand for together; `Ap2Stages.dfy` is the
Python side that reports the stages. `Policy.dfy` is the policy engine; `Amounts.dfy` the decimal strings, in units of
10^-18.

`Prelude.dfy` holds shared types; `Decisions.dfy` holds digests, decisions, signing and verification; `Queue.dfy`
holds the stable sort behind the journal's listing.

## Where the code does less than it seems to

Each of these is proved, with the input that shows it and the exact condition.

- The retry under the same reference is idempotent only until the decision expires (README.md:24-25 does not say so):
  the expiry check comes before the nonce lookup. The condition is `Spend.RetriesAreIdempotentUntilExpiry`, the input
  `Spend.LateRetriesAreRefused`.
- Without a journal the same reference may settle again: the condition is `GuardSafety.RetrySettlesExactlyWhen`, the
  run `GuardSafety.UnjournalledRetrySettlesAgain`. All starts for a decision are still under one reference
  (`GuardSafety.OneReferencePerDecision`).
- With separate nonce and spend stores nothing rechecks the daily limit, and a crash leaves spend unrecorded
  (`SplitSpend.SplitSpendLags`). For a limit above zero, a sequence of calls keeps every total in bounds, whatever the
  amounts, exactly when each recorded decision was evaluated on its own total after all that was recorded there before it
  (`SplitSpend.SplitStaysWithinExactlyWhen`). Two concurrent payments break that
  (`SplitSpend.SplitStoresExceedTheLimit`), and so does midnight between evaluation and consumption.
- In-process spend is added with twenty significant digits: one unit of 10^-18 on top of one hundred is lost
  (`Amounts.SumLosesAUnit`); the condition is `Amounts.SumIsExactWhen`.
- The two journals differ exactly when a call opens a record at an instant outside the years 0 to 9999, or is answered
  from a record that holds one: memory copies such a record out, SQL parses and refuses it
  (`JournalAgreement.JournalsAgreeExactlyWhen`, `JournalAgreement.StoresDifferBeyondYear9999`,
  `JournalAgreement.StoresDifferOnASecondMark`).
- The two listings of unresolved records differ, even for distinct update times, when a listed row holds such an instant,
  when a record stands at or after the last instant of year 9999 and nothing fills the queue without it, and when the
  text of a later instant goes first (`JournalQueues.QueuesAgreeExactlyWhen`). The inputs are
  `JournalQueues.UnparsedRowLosesTheListing`, `JournalQueues.LastInstantIsNeverListed` and
  `JournalQueues.FarTextGoesFirst`; for equal update times there is `JournalQueues.TiesKeepTheirOrder`.
- A receipt that MTP repeats with another status is overwritten in memory and refused by SQL
  (`MtpReceipts.CheckpointsAgreeExactlyWhen`). Over runs this happens exactly when two calls for one decision are between
  receipt check and checkpoint at once and put the first use and its repetition on file
  (`MtpReceipts.MemoryStatusStaysExactlyWhen`, `MtpReceipts.RepeatedReceiptsDiffer`).
- The in-memory KYA store holds two verified records of one triple exactly when two calls of one request were between
  check and push at once and both pushes reached it (`KyaOnce.MemoryRecordsOnceExactlyWhen`,
  `KyaOnce.MemoryRecordsTwice`); SQL never does (`KyaOnce.SqlRecordsOnce`).
- A purge of nonces by a clock that runs ahead forgets what a slower clock still needs: the condition is
  `KyaForgetting.AnswersAgreeExactlyWhen`, the input `KyaNonces.PurgeAheadForgets`.
- The Python verifier may report time as verified although a mandate has no expiry; the bridge then refuses the whole
  report (`Ap2Stages.ConsistentExactlyWhen`, `Ap2Stages.UnendingMandateIsRefused`).

## Model

| member | source | states |
|---|---|---|
| `GuardSafety.SettlesAtMostOnce` | packages/x402-adapter/src/guard.ts:150-308 | over every interleaving, fault pattern, crash and operator call on a shared journal, settlement starts at most once per execution reference and at most once per decision |
| `GuardSafety.StartsAreAuthorised` | packages/x402-adapter/src/guard.ts:150-257 | every start belongs to a call whose input verified as an ALLOW, whose issued decision is an ALLOW of that action consumed under that reference, and, with a journal, whose caller claimed the record |
| `GuardSafety.OneReferencePerDecision` | packages/x402-adapter/src/guard.ts:129-148 | with or without a journal, all starts for one decision are under one reference |
| `GuardSafety.RetrySettlesExactlyWhen` | packages/x402-adapter/src/guard.ts:150-308 | over either store, at any instant: an undisturbed call starts settlement if and only if it verifies, its consumption succeeds, and (with a journal) the record is absent or prepared by this same call and unclaimed, and every instant that is parsed on the way lies in the years 0 to 9999 |
| `Guard.ConsumesExactly` | packages/policy-engine/src/local-provider.ts:219-281 | a decision is consumed if and only if it was issued as an ALLOW of the action asked for, has not expired, is not refused otherwise, and was consumed by nobody or under this very reference; the first consumption is kept |
| `GuardSafety.UnjournalledRetrySettlesAgain` | packages/x402-adapter/src/guard.ts:150-308 | from the start and without a journal: any decision that verifies at two instants, issued and then settled twice under one reference, logs two starts |
| `GuardOutcomes.ResultsAreRecorded` | packages/x402-adapter/src/guard.ts:255-307 | over every run with a journal: from the moment a settle callback comes to a result, whatever follows, the call changes no record but its own reference's, and that only from in progress to a success, a final failure or an unknown outcome, exactly as the callback resolved, failed with an error classified as final, or failed otherwise; it ends with the outcome of that result, which the record bears out, or unreconciled, or crashed |
| `GuardOutcomes.AnswersMeanRecords` | packages/x402-adapter/src/guard.ts:150-308 | in every run with a journal, whatever a call has answered holds and goes on holding: settled means its callback started and its record is a success under its reference; already completed means a success it did not start; final failure and unknown outcome are those of the record under its binding; a conflict is another binding; a refused call never started its callback |
| `GuardOutcomes.ReadAnswers` | packages/x402-adapter/src/guard.ts:224-253 | a start that claimed nothing answers conflict, already completed, final failure, outcome unknown or state unavailable each if and only if the record it reads says so |
| `GuardOutcomes.FailedAwaitsEnd` | packages/x402-adapter/src/guard.ts:129-307 | a store or provider that fails to answer ends the call at that await: state unavailable before the callback, a failed consumption, unreconciled after it |
| `GuardCalls.CallEndsExactly` | packages/x402-adapter/src/guard.ts:150-308 | for an undisturbed call over either journal, from any reachable state and with any result of its callback, every outcome has its exact condition, and a started callback leaves the record of the reference, and no other, as its result with this call's own fields |
| `GuardCalls.BareCallEndsExactly` | packages/x402-adapter/src/guard.ts:150-215 | the same without a journal: the callback's own result, or why it was never started |
| `GuardDriver.InntrisX402Guard.SettleIfAuthorised` | packages/x402-adapter/src/guard.ts:150-308 | the driver, over the in-memory stores and with its own clock reading, fault and refusal at each await, leaves the stores and returns the outcome of one call of the step machine in the same weather, and calls settlement as often as the machine starts it |
| `GuardDriver.InntrisX402Guard.PrepareOperation` | packages/x402-adapter/src/guard.ts:171-205 | preparing the journal record is the machine's step, with the same next stage under every fault |
| `GuardDriver.InntrisX402Guard.ConsumeBeforeExecution` | packages/x402-adapter/src/guard.ts:129-148 | looking up and consuming the decision are the machine's two steps |
| `GuardDriver.InntrisX402Guard.StartOperation` | packages/x402-adapter/src/guard.ts:218-253 | claiming the attempt is the machine's step; anything but a claim ends the call with the outcome the record's status stands for |
| `GuardDriver.InntrisX402Guard.MarkOperation` | packages/x402-adapter/src/guard.ts:255-307 | recording success, classified final failure or an unknown outcome are the machine's steps, and a lost record answers unreconciled; what those steps write and answer is `GuardOutcomes.ResultsAreRecorded` |
| `GuardDriver.InMemoryNonceStore.Consume` | packages/decision-core/src/provider.ts:77-112 | the first consumption of a (decision, nonce) wins, the same action and reference again is idempotent, anything else conflicts and changes nothing |
| `GuardDriver.ConsumeDecision` | packages/policy-engine/src/local-provider.ts:219-281 | the provider's checks in order, a refusal of its own, then the nonce store: the consumption the step machine uses |
| `JournalAgreement.StoresBisimilar` | packages/postgres-store/src/reconciliation-store.ts:93-261 | for every sequence of prepare, start, mark and resolve calls at instants of years 0 to 9999, the SQL and the in-memory journal give the same answers and hold the same records |
| `JournalAgreement.StoresAgreeExactlyWhen` | packages/execution-reconciliation/src/store.ts:70-223 | on one record, whatever its instants, the two stores agree on a call if and only if the call does not open a record at an instant outside the years 0 to 9999 and is not answered from a record that holds one |
| `JournalAgreement.JournalsAgreeExactlyWhen` | packages/postgres-store/src/reconciliation-store.ts:93-261 | for every sequence of calls at any instants, from the empty journal the two stores give the same answers and end with the same records if and only if no call of it does either |
| `JournalAgreement.StoresDifferBeyondYear9999` | packages/execution-reconciliation/src/store.ts:30-36 | one millisecond past year 9999 SQL keeps a record that memory refuses, and both throw |
| `JournalAgreement.StoresDifferOnASecondMark` | packages/execution-reconciliation/src/store.ts:130-150 | a run from the empty journal: a success marked at that instant, twice, leaves equal records, and the second answer memory gives while SQL throws |
| `Journal.StepKeepsRecords` | packages/execution-reconciliation/src/store.ts:73-223 | either store keeps the record invariant: no attempt exactly while prepared and one otherwise, a resolution time exactly in the two final states, error, outcome and resolver fields as the status allows |
| `Journal.StepAdvances` | packages/execution-reconciliation/src/store.ts:38-60 | a call changes the record of its own operation id only, along the allowed transitions, and answers claimed only for the call that took a prepared record |
| `Journal.StepAdvancesRecord` | packages/execution-reconciliation/src/store.ts:49-60 | identity fields stay, final states absorb, a claim is never undone |
| `Journal.RecordsPersist` | packages/execution-reconciliation/src/store.ts:70-223 | over every sequence of calls no record disappears, changes identity, leaves a final state or becomes unclaimed |
| `JournalHistory.RecordsTellTheirCalls` | packages/execution-reconciliation/src/store.ts:73-223 | over every sequence of calls to either store, from the empty journal: each record's identity is that of the call that prepared it, its start that of the call that took it, its doubt that of the call that marked it, and each final record was left so by one call for its id and binding that found it open; it is a success if and only if that call marked or resolved a success, and outcome reference, error code, resolver, note and times are that call's own |
| `JournalHistory.StepWrites` | packages/postgres-store/src/reconciliation-store.ts:96-261 | a call changes a record if and only if the record is in the state and under the binding it asks for and its texts have the lengths the schema accepts, and then the record says what the call said |
| `JournalHistory.StepAnswers` | packages/execution-reconciliation/src/store.ts:73-223 | at plain instants each answer has its exact condition on the record found, and hands out the record as it then stands |
| `JournalHistory.UnparsedRowsThrow` | packages/postgres-store/src/reconciliation-store.ts:96-261 | a SQL call that leaves or finds a record with an instant the schema refuses throws, whatever it did |
| `JournalStores.InMemoryExecutionReconciliationStore.Prepare` | packages/execution-reconciliation/src/store.ts:73-108 | the in-memory insert-or-compare is the journal's step, with insertion order kept |
| `JournalStores.InMemoryExecutionReconciliationStore.Start` | packages/execution-reconciliation/src/store.ts:110-128 | the in-memory claim is the journal's step |
| `JournalStores.InMemoryExecutionReconciliationStore.MarkSucceeded` | packages/execution-reconciliation/src/store.ts:130-150 | likewise for success |
| `JournalStores.InMemoryExecutionReconciliationStore.MarkFailedFinal` | packages/execution-reconciliation/src/store.ts:152-174 | likewise for final failure |
| `JournalStores.InMemoryExecutionReconciliationStore.MarkOutcomeUnknown` | packages/execution-reconciliation/src/store.ts:176-195 | likewise for an unknown outcome |
| `JournalStores.InMemoryExecutionReconciliationStore.Resolve` | packages/execution-reconciliation/src/store.ts:197-223 | likewise for the operator's resolution, whose fields the record then holds by `JournalHistory.StepWrites` |
| `JournalStores.InMemoryExecutionReconciliationStore.ListUnresolved` | packages/execution-reconciliation/src/store.ts:230-245 | a bad limit is refused; otherwise the answer is the listing over insertion order, sorted as the texts of the update times compare |
| `JournalStores.PostgresExecutionReconciliationStore.Prepare` | packages/postgres-store/src/reconciliation-store.ts:96-132 | the one statement, an insert whose conflict clause returns the row only when its identity is the same, is the SQL journal's step |
| `JournalStores.PostgresExecutionReconciliationStore.Start` | packages/postgres-store/src/reconciliation-store.ts:134-160 | the guarded update and the read after it are the SQL journal's step |
| `JournalStores.PostgresExecutionReconciliationStore.Update` | packages/postgres-store/src/reconciliation-store.ts:162-261 | the three marking statements and the resolving one are the SQL journal's steps, which write the call's own fields by `JournalHistory.StepWrites` |
| `JournalStores.PostgresExecutionReconciliationStore.ListUnresolved` | packages/postgres-store/src/reconciliation-store.ts:272-288 | a bad limit is refused; otherwise the rows selected before the cutoff, sorted by time, are answered if every one of them parses, and nothing is if one does not |
| `JournalStores.QueueListsTheOldest` | packages/execution-reconciliation/src/store.ts:230-245 | either listing holds unresolved records only, in its order, at most the limit, and leaves one out only when the limit is reached and nothing listed goes after it |
| `JournalQueues.QueuesAgreeExactlyWhen` | packages/postgres-store/src/reconciliation-store.ts:272-288 | with distinct update times, in whatever order the rows are and however texts outside the years 0 to 9999 compare: the two listings are equal if and only if every row SQL lists parses, its cutoff at the last instant of year 9999 takes nothing away, and no unresolved record outside those years goes before a listed one as text |
| `JournalQueues.QueuesAgreeInTimeOrder` | packages/postgres-store/src/reconciliation-store.ts:272-288 | were texts in the order of times, the first two of these would be the exact condition |
| `JournalQueues.LastInstantIsNeverListed` | packages/postgres-store/src/reconciliation-store.ts:279-286 | a run from the empty journal: a record started at the last instant of year 9999 is listed by memory and by SQL never |
| `JournalQueues.UnparsedRowLosesTheListing` | packages/postgres-store/src/reconciliation-store.ts:286-286 | a run from the empty journal: a record that once held an instant beyond is listed by memory, and makes the SQL listing throw |
| `JournalQueues.FarTextGoesFirst` | packages/execution-reconciliation/src/store.ts:242-242 | if the text of an instant past year 9999 goes first, memory lists that record in the place of the one SQL lists |
| `JournalQueues.TiesKeepTheirOrder` | packages/postgres-store/src/reconciliation-store.ts:281-281 | two records of one instant are listed in insertion order by memory and in the order of their ids by SQL |
| `Queue.OldestListsTheOldest` | packages/execution-reconciliation/src/store.ts:230-245 | filter, stable sort, cut: a kept element missing from the result means that the limit was reached and nothing listed is newer than it |
| `Queue.SortedOrdersAreUnique` | packages/postgres-store/src/reconciliation-store.ts:272-288 | two sorted arrangements of the same elements with distinct keys are equal |
| `Spend.PostgresPolicyStateStore.ConsumeAndRecordSpend` | packages/postgres-store/src/store.ts:127-241 | the transaction, with its rollback, moves the tables by one atomic step and answers with that step's status |
| `Spend.CommitConserves` | packages/postgres-store/src/store.ts:127-241 | a transaction keeps every total the sum of its entries, one entry per decision and nonces single-use; it changes anything exactly when it answers consumed, and then adds exactly its own entry |
| `Spend.CommitAnswersExactly` | packages/postgres-store/src/store.ts:127-241 | a transaction answers expired, idempotent, nonce conflict, limit exceeded or consumed each if and only if its condition holds, with the limit held against the sum of the ledger, and stores its own row and entry exactly when it answers consumed |
| `Spend.SpendIsConservedAndCapped` | packages/postgres-store/src/store.ts:127-241 | from an empty database, whatever is asked in whatever order, each (principal, day) total is the sum of its committed amounts and never exceeds a fixed daily limit |
| `Spend.RetriesAreIdempotentUntilExpiry` | packages/postgres-store/src/store.ts:127-187 | a repetition of a committed consumption changes nothing, and is idempotent exactly when it comes before expiry with the same nonce, action and reference |
| `Spend.LateRetriesAreRefused` | packages/postgres-store/src/store.ts:127-187 | from the empty store: the same call again is idempotent up to the last millisecond and refused from expiry on |
| `Spend.ProviderSpendIsConservedAndCapped` | packages/policy-engine/src/local-provider.ts:219-248 | through the provider, each entry is an issued ALLOW decision's own amount, principal and day, each decision at most once, and totals stay within the policy's limit |
| `Spend.ConsumeAnswersExactly` | packages/policy-engine/src/local-provider.ts:219-248 | through the provider: not an ALLOW, another hash, expired, in this order, and otherwise one transaction under the decision's own nonce, hash, amount, principal and day |
| `SplitSpend.SplitSpendLags` | packages/policy-engine/src/local-provider.ts:249-281 | with separate stores, in every run each decision is consumed at most once, and on each total the recorded amount plus what crashed or pending calls still owe equals what was consumed, as long as that fits twenty digits |
| `SplitSpend.SplitStaysWithinExactlyWhen` | packages/policy-engine/src/local-provider.ts:219-281 | with separate stores, a sequence of evaluations, consumptions and records keeps every total within the limit for all amounts if and only if the limit is zero or each recorded decision was evaluated on its own total after every earlier record there |
| `SplitSpend.StaysWithinWhenSeen` | packages/policy-engine/src/evaluate.ts:219-225 | with given amounts, such an order keeps every total within the limit, rounding included |
| `SplitSpend.UnseenOverspends` | packages/policy-engine/src/local-provider.ts:249-281 | every violated order overspends for some amounts, each within the limit when it was evaluated |
| `SplitSpend.SplitStoresExceedTheLimit` | packages/policy-engine/src/local-provider.ts:249-281 | from the empty stores: two decisions, each an ALLOW within the limit when evaluated, are consumed and recorded, and the total is above the limit |
| `Decisions.FindUsableKey` | packages/decision-verifier/src/verify.ts:80-100 | the registry scan returns the usable entry, and only a usable one |
| `Decisions.CheckSignature` | packages/decision-verifier/src/verify.ts:113-147 | an unknown key is added exactly when no key may be used, a bad signature exactly when one may be and does not check |
| `Decisions.VerifyDecision` | packages/decision-verifier/src/verify.ts:149-225 | valid if and only if the decision binds the action, in its time window, under its policy version and requirements, signed by a usable key; the schema code alone when a schema fails, and otherwise each reason is listed if and only if its own check fails, none twice |
| `Decisions.ValidDecisionsAreAuthentic` | packages/decision-verifier/src/verify.ts:63-72 | under ideal signing a valid decision is one the key holder signed for exactly this action, whose principal, agent, rail, transaction and reference it states, and no other action verifies against it |
| `Decisions.IssuedDecisionsVerify` | packages/decision-core/src/signing.ts:62-117 | fingerprinting, signing and attaching yields a decision that verifies exactly during its lifetime, under its policy version and for its payment requirements, where the verifier asks for them |
| `JsonCorrect.AcceptedExactlyWhen` | packages/pulse-conformance-evaluator/src/strict-json.ts:34-131 | the reader returns a value if and only if the whole text derives from the grammar of RFC 8259 with pairwise distinct decoded member names, depth at most 100, well-formed Unicode and finite numbers, meaning that value, with no forbidden key |
| `JsonCorrect.DerivationsAreAccepted` | packages/pulse-conformance-evaluator/src/strict-json.ts:34-131 | complete: every derivation is accepted as its meaning, or refused for a forbidden key |
| `JsonCorrect.AcceptedTextsDerive` | packages/pulse-conformance-evaluator/src/strict-json.ts:34-131 | sound: an accepted value is the meaning of a derivation of the whole text |
| `JsonCorrect.SecondPass` | packages/pulse-conformance-evaluator/src/strict-json.ts:6-31 | on what the reader built, the second pass refuses nothing but forbidden keys |
| `JsonGrammar.StringAccepted` | packages/pulse-conformance-evaluator/src/strict-json.ts:42-56 | every well-formed string token is read to its end and as its decoded value |
| `JsonGrammar.AcceptedString` | packages/pulse-conformance-evaluator/src/strict-json.ts:42-56 | every string token read is a string of the grammar with that value |
| `JsonGrammar.NumberAccepted` | packages/pulse-conformance-evaluator/src/strict-json.ts:119-124 | the number pattern finds the whole of every number that a delimiter follows |
| `JsonGrammar.AcceptedNumber` | packages/pulse-conformance-evaluator/src/strict-json.ts:119-124 | what the pattern finds is a number of the grammar |
| `JsonReader.ParseStrictJson` | packages/pulse-conformance-evaluator/src/strict-json.ts:34-131 | the cursor-moving reader computes the specified result on every text |
| `JsonReader.Reader.Parse` | packages/pulse-conformance-evaluator/src/strict-json.ts:57-125 | one value from the cursor on: the result and the new cursor are the specification's |
| `JsonReader.Reader.Members` | packages/pulse-conformance-evaluator/src/strict-json.ts:61-91 | the member loop, refusing a repeated decoded name |
| `JsonReader.Reader.Items` | packages/pulse-conformance-evaluator/src/strict-json.ts:92-108 | the item loop |
| `JsonReader.Reader.String` | packages/pulse-conformance-evaluator/src/strict-json.ts:42-56 | the slice up to the closing quote, decoded and well-formed |
| `JsonReader.Reader.CloseQuote` | packages/pulse-conformance-evaluator/src/strict-json.ts:43-47 | the scan stops at the first quote that no backslash hides, or not at all |
| `JsonReader.Reader.Whitespace` | packages/pulse-conformance-evaluator/src/strict-json.ts:36-38 | exactly the four white-space characters are skipped |
| `JsonReader.Reader.Scalar` | packages/pulse-conformance-evaluator/src/strict-json.ts:109-124 | the three literals, then the number pattern and its finiteness check |
| `JsonPrinter.PrintedValuesReadBack` | packages/pulse-conformance-evaluator/src/input.ts:40-61 | an accepted value printed with two-space indentation reads back as the same value |
| `JsonPrinter.InputsReadBack` | packages/pulse-conformance-evaluator/src/input.ts:51-61 | the same for any value the second pass lets through, as after a member is deleted |
| `JsonPrinter.EveryValuePrints` | packages/pulse-conformance-evaluator/src/input.ts:58-61 | every value has a printing, whatever order its members are in |
| `JsonPrinter.PrintEmits` | packages/pulse-conformance-evaluator/src/input.ts:58-61 | the printer writes a derivation of the grammar |
| `JsonPrinter.QuotedText` | packages/pulse-conformance-evaluator/src/input.ts:58-61 | the escapes written for a string decode to the string |
| `Presentation.ValidatePresentation` | packages/pulse-conformance-evaluator/python/presentation.py:63-132 | accepted if and only if the token is consistent, every text encodes a disclosure under a digest of its own, and the walk from the payload over what they disclose accepts and leaves none unused; terminates on every input, cyclic ones included |
| `Presentation.ReadDisclosures` | packages/pulse-conformance-evaluator/python/presentation.py:75-85 | disclosures are read if and only if each text decodes to an array of a salt and an element, or of a salt, a name that is not reserved and a value, and no digest repeats; the map then holds under the digest of each text what its array discloses, and nothing else |
| `Presentation.ReadsExactly` | packages/pulse-conformance-evaluator/python/presentation.py:78-81 | a decoded value reads as an element if and only if it is an array of a salt and that element, and as a member if and only if it is an array of a salt, that name, not a reserved one, and that value |
| `DisclosureDigests.DigestsAreEncodings` | packages/pulse-conformance-evaluator/python/presentation.py:43-49 | a text passes as a digest if and only if it is the unpadded base64url form of some 32 bytes, with nothing in its spare bits |
| `Presentation.Walker.Walk` | packages/pulse-conformance-evaluator/python/presentation.py:100-128 | succeeds if and only if the value has its shape and its unfolded references are pairwise different and new, and then exactly they are newly seen; terminates by unused disclosures, then value |
| `Presentation.Walker.WalkList` | packages/pulse-conformance-evaluator/python/presentation.py:103-112 | the same for the items and placeholders of an array |
| `Presentation.Walker.WalkDict` | packages/pulse-conformance-evaluator/python/presentation.py:113-128 | the same for an object |
| `Presentation.Walker.WalkNames` | packages/pulse-conformance-evaluator/python/presentation.py:116-118 | plain members taken in any order a set yields: the answer does not depend on it |
| `Presentation.Walker.WalkDigests` | packages/pulse-conformance-evaluator/python/presentation.py:119-128 | the digests of an object, with no disclosed name repeating a plain or an earlier disclosed one |
| `Presentation.Walker.Resolve` | packages/pulse-conformance-evaluator/python/presentation.py:123-128 | one reference and what it discloses, put together |
| `Presentation.Walker.Consume` | packages/pulse-conformance-evaluator/python/presentation.py:89-98 | a reference is taken if and only if it is a digest not seen before and of the right kind; following a presented one lowers the number of unused ones |
| `DisclosureForest.AcceptedExactlyForests` | packages/pulse-conformance-evaluator/python/presentation.py:63-132 | the walk accepts if and only if the payload is well-shaped and the disclosures form a forest rooted in it: every digest written once over the payload and all disclosures, every presented one reached |
| `DisclosureForest.ForestIsAccepted` | packages/pulse-conformance-evaluator/python/presentation.py:100-132 | a well-shaped forest is accepted |
| `DisclosureForest.AcceptedIsForest` | packages/pulse-conformance-evaluator/python/presentation.py:100-132 | what is accepted is a forest |
| `DisclosureForest.RefsSplit` | packages/pulse-conformance-evaluator/python/presentation.py:100-128 | an unfolded reference is written in the value itself or in a disclosure the walk follows, counted with multiplicity |
| `DisclosureForest.MetIsReached` | packages/pulse-conformance-evaluator/python/presentation.py:100-128 | whatever the walk meets is reached by a chain of disclosures from the payload |
| `Mtp.ConsumedAfterCheckpoint` | packages/mtp-authority/src/provider.ts:111-157 | in every reachable state, uses at MTP are under the claimed reference, and every consumed decision has its reference claimed and its receipt checkpointed |
| `Mtp.EvidenceIsWriteOnce` | packages/mtp-authority/src/store.ts:49-96 | through every continuation reference, audit id and completion stay as first written, completion implies receipt implies claim, and two decisions of one agent never share a reference |
| `Mtp.ApplyKeepsRecords` | packages/postgres-store/src/mtp-store.ts:51-176 | each call of either store keeps those properties |
| `MtpReceipts.CheckpointsAgreeExactlyWhen` | packages/mtp-authority/src/store.ts:71-88 | on one checkpoint the in-memory and the SQL store answer and write alike if and only if it is not the receipt on file under another status |
| `MtpReceipts.MemoryStatusStaysExactlyWhen` | packages/mtp-authority/src/provider.ts:122-146 | over every run, with its faults and crashes, the in-memory store keeps the status it wrote first if and only if no two calls for the decision, between receipt check and checkpoint at once, put different receipts on file |
| `MtpReceipts.RepeatedReceiptsDiffer` | packages/mtp-authority/src/store.ts:71-88 | a run from the start: two concurrent calls leave the first use on file, then the repetition |
| `Mtp.CallCompletesExactlyWhen` | packages/mtp-authority/src/provider.ts:111-157 | an undisturbed call completes if and only if the reference is usable, the authorisation matches and is free or claimed by it, MTP grants or granted this use, and the decision is an unexpired ALLOW not consumed under another reference; otherwise it ends with the outcome of the first of these that fails, each if and only if it is |
| `Mtp.RetryCompletes` | packages/mtp-authority/src/provider.ts:111-157 | if MTP is idempotent, then whatever crashes and losses came before, a retry under the claimed reference before expiry completes |
| `MtpEvidence.CheckpointsAreMtps` | packages/mtp-authority/src/provider.ts:130-146 | in every run, a call that changes a record at its checkpoint writes there the audit id of the one use MTP recorded for its decision, under its own reference, and MTP's record of it stays |
| `MtpEvidence.CallWrites` | packages/mtp-authority/src/store.ts:32-96 | a call of either store changes a record if and only if it finds it in the state it asks for, and then the record says what the call said and keeps the rest |
| `MtpEvidence.CallAnswers` | packages/postgres-store/src/mtp-store.ts:51-176 | each answer of either store has its exact condition on the record found |
| `MtpEvidence.FailedAwaitsEnd` | packages/mtp-authority/src/provider.ts:111-157 | a store, MTP or the provider failing to answer ends the call as failed, at whichever await |
| `MtpDriver.MtpCompositeDecisionProvider.Consume` | packages/mtp-authority/src/provider.ts:111-157 | with any clock reading, fault, denial and refusal at each await, the driver over the in-memory stores ends in the machine's state with the machine's outcome |
| `MtpDriver.MtpCompositeDecisionProvider.Enter` | packages/mtp-authority/src/provider.ts:111-114 | a blank or overlong reference is refused first |
| `MtpDriver.MtpCompositeDecisionProvider.CheckAuthorization` | packages/mtp-authority/src/provider.ts:115-121 | the authorisation is on file and for this action |
| `MtpDriver.MtpCompositeDecisionProvider.ClaimExecution` | packages/mtp-authority/src/provider.ts:122-128 | the reference is claimed before MTP is called |
| `MtpDriver.MtpCompositeDecisionProvider.CheckReceipt` | packages/mtp-authority/src/provider.ts:130-132 | a receipt on file skips the second use of MTP |
| `MtpDriver.MtpCompositeDecisionProvider.ConsumeAtMtp` | packages/mtp-authority/src/provider.ts:133-134 | MTP is consumed under the claimed reference |
| `MtpDriver.MtpCompositeDecisionProvider.CheckpointReceipt` | packages/mtp-authority/src/provider.ts:135-146 | the receipt is written before the decision is consumed |
| `MtpDriver.MtpCompositeDecisionProvider.ConsumeDecision` | packages/mtp-authority/src/provider.ts:148-148 | the inner consumption, with the nonce store left as the machine leaves it |
| `MtpDriver.MtpCompositeDecisionProvider.MarkComplete` | packages/mtp-authority/src/provider.ts:149-156 | completion only after a successful consumption |
| `MtpDriver.InMemoryMtpAuthorityStateStore.SaveAuthorization` | packages/mtp-authority/src/store.ts:32-42 | the first authorisation stays; a different one is refused |
| `MtpDriver.InMemoryMtpAuthorityStateStore.ClaimExecution` | packages/mtp-authority/src/store.ts:49-69 | the claim, with the scan for another decision of the agent under this reference |
| `MtpDriver.InMemoryMtpAuthorityStateStore.MarkMtpConsumed` | packages/mtp-authority/src/store.ts:71-88 | the checkpoint is the store's step |
| `MtpDriver.InMemoryMtpAuthorityStateStore.MarkComplete` | packages/mtp-authority/src/store.ts:90-96 | completion is the store's step |
| `KyaSafety.ConsumptionsAreRevalidated` | packages/kya-os-authority/src/gate.ts:264-328 | in every run each inner consumption comes after a stored verified revalidation of exactly its decision, action and reference, of the identity the decision was made under |
| `KyaSafety.IdentitySurvivesSupersession` | packages/kya-os-authority/src/gate.ts:193-262 | a superseding decision has the authority identity and the action of the request it supersedes |
| `KyaSafety.RecordsAreImmutable` | packages/kya-os-authority/src/state-store.ts:47-58 | a stored authority stays as stored through every continuation, and revalidations are only appended |
| `KyaSafety.AuthoritiesHaveTheirOwnProofs` | packages/kya-os-authority/src/gate.ts:100-262 | two stored authorities rest on two verifications, of their own bindings, that did not share a nonce within its retention |
| `KyaSafety.RevalidationsHaveTheirOwnProofs` | packages/kya-os-authority/src/gate.ts:284-327 | the same for two verified consumption records |
| `KyaOnce.SqlRecordsOnce` | packages/postgres-store/src/kya-store.ts:134-161 | the SQL store never holds two verified records of one triple |
| `KyaOnce.MemoryRecordsOnceExactlyWhen` | packages/kya-os-authority/src/state-store.ts:60-75 | over every run, with its faults and crashes, the in-memory store records each triple at most once if and only if no two calls of one request, whose pushes both reach it, are ever between check and push at once |
| `KyaOnce.MemoryRecordsTwice` | packages/kya-os-authority/src/state-store.ts:60-75 | a run from the start: one evaluation, then two consumptions of one request with fresh nonces, which both look before either pushes, leave two records of the triple |
| `KyaCalls.EvaluatesExactlyWhen` | packages/kya-os-authority/src/gate.ts:80-175 | an undisturbed evaluation passes if and only if the presentation verifies, the provider makes a new decision and nothing else stands under its id; then exactly its authority, with the verified binding, is stored, and otherwise none; what does not verify gets a BLOCK without an authority |
| `KyaCalls.ResolvesExactlyWhen` | packages/kya-os-authority/src/gate.ts:193-262 | an undisturbed resolution passes if and only if a stored authority's identity verifies afresh and a superseding decision is made and storable; it stores exactly that, under the new binding and the action of its request; a known request leaves one record, of the verification or of its rejection, whether it passes or not |
| `KyaCalls.ConsumesExactlyWhen` | packages/kya-os-authority/src/gate.ts:264-328 | an undisturbed consumption reaches the inner provider if and only if the stored authority is of this action and the triple was revalidated before or verifies now; a first attempt on the stored action leaves exactly one record, verified or rejected, before the inner call |
| `KyaOutcomes.PassedCallsDidTheirWork` | packages/kya-os-authority/src/gate.ts:100-328 | in every run a passed evaluation left a decision on its own action that supersedes nothing, a passed resolution one that supersedes its request, each with a stored authority resting on that call's own verification, and a passed consumption was put to the inner provider with its decision, action and reference |
| `KyaOutcomes.FailedAwaitsEnd` | packages/kya-os-authority/src/gate.ts:100-328 | a provider or store that fails to answer ends the call without passing it |
| `Kya.IdentityIsAllButEvidence` | packages/kya-os-authority/src/gate.ts:52-66 | two bindings have one identity if and only if they differ in their evidence at most |
| `KyaDriver.KyaAuthorityGate.Evaluate` | packages/kya-os-authority/src/gate.ts:100-175 | with any fault at each await, the driver over the in-memory stores ends in the machine's state with the machine's outcome, a BLOCK for what does not verify included |
| `KyaDriver.KyaAuthorityGate.VerifyFresh` | packages/kya-os-authority/src/gate.ts:177-191 | the fresh verification under the stored identity is the machine's step, for approvals and consumptions |
| `KyaDriver.KyaAuthorityGate.ResolveApproval` | packages/kya-os-authority/src/gate.ts:193-262 | the same for the resolution of an approval |
| `KyaDriver.KyaAuthorityGate.Consume` | packages/kya-os-authority/src/gate.ts:264-328 | the same for a consumption, with the await between the check for an earlier record and the push |
| `KyaDriver.InMemoryKyaAuthorityStateStore.SaveDecisionAuthority` | packages/kya-os-authority/src/state-store.ts:47-54 | the same record again is accepted, another one refused |
| `KyaDriver.InMemoryKyaAuthorityStateStore.GetSuccessfulExecutionRevalidation` | packages/kya-os-authority/src/state-store.ts:77-90 | the first verified consumption record of the triple, if there is one |
| `KyaDriver.InMemoryKyaAuthorityStateStore.AppendRevalidation` | packages/kya-os-authority/src/state-store.ts:60-75 | a verified consumption record is pushed only when its triple has none; every other record is pushed |
| `KyaDriver.KyaAuthorityVerifier.Verify` | packages/kya-os-authority/src/gate.ts:177-191 | a verification succeeds only by consuming its nonce as fresh, and is then on record |
| `KyaNonces.PurgingForgetsNothing` | packages/kya-os-authority/src/state-store.ts:10-39 | at non-decreasing times the purging store answers every call as a store that never forgets |
| `KyaNonces.PurgesChangeNothing` | packages/kya-os-authority/src/state-store.ts:30-39 | purges put anywhere into a sequence change no consumption's answer |
| `KyaNonces.AcceptedOncePerRetention` | packages/kya-os-authority/src/state-store.ts:15-28 | one (did, nonce) is accepted twice only if the first retention ended before the second call |
| `KyaForgetting.AnswersAgreeExactlyWhen` | packages/kya-os-authority/src/state-store.ts:15-39 | for every sequence of calls at any times, the purging store answers as one that never forgets if and only if no consumption finds an earlier acceptance covering it while the last acceptance was purged since or reaches less far |
| `KyaForgetting.OrderForgetsNothing` | packages/kya-os-authority/src/state-store.ts:15-39 | times that never run backwards meet that condition |
| `KyaNonces.PurgeAheadForgets` | packages/postgres-store/src/kya-store.ts:43-70 | the order of times is needed: a purge by a clock that runs ahead lets a slower one accept the nonce again |
| `KyaNonces.InMemoryKyaNonceStore.Consume` | packages/kya-os-authority/src/state-store.ts:15-28 | a consumption is the store's step |
| `KyaNonces.InMemoryKyaNonceStore.PurgeExpired` | packages/kya-os-authority/src/state-store.ts:30-39 | the loop removes exactly the expired entries and counts them |
| `ClaimOnceSafety.ExecutesOncePerKey` | packages/ap2-runtime-gate/src/gate.ts:297-396 | in every interleaving with faults and crashes, the delegate or signer runs at most once per journal key, so never under a second binding |
| `ClaimOnceSafety.FinishesOncePerKey` | packages/wallet-signing-gate/src/gate.ts:228-301 | the same for the second external call: broadcasting, or producing the receipt |
| `ClaimOnceSafety.ExecutionsAreClaimedAndConsumed` | packages/a2a-settlement-gate/src/gate.ts:287-382 | each execution is of the call that claimed the key, under the stored binding, after its decision was consumed as an ALLOW of its action under its reference |
| `ClaimOnceSafety.AnswersCarryTheExecution` | packages/ap2-runtime-gate/src/gate.ts:320-396 | every answer with a payload, first hand or replayed, carries what the one execution of the key made, under the caller's own binding |
| `ClaimOnce.ClaimAnswers` | packages/ap2-runtime-gate/src/store.ts:41-74 | a claim gets the key if and only if it is free; a taken key answers conflict, unresolved or a replay of what was stored, each if and only if its record has another binding, has this one and is unfinished, or has this one and that payload |
| `ClaimOnce.CompletesOnlyItsClaim` | packages/ap2-runtime-gate/src/store.ts:76-99 | a completion is accepted if and only if its key is claimed under its own binding and unfinished, and then that record alone holds its payload |
| `ClaimOnce.FailedAwaitsEnd` | packages/ap2-runtime-gate/src/gate.ts:297-396 | a store or provider that fails to answer, or an external call without a result, ends the call as not consumed before the claim and as failed from then on |
| `ClaimOnceStores.DrivenOnce` | packages/ap2-runtime-gate/src/gate.ts:297-396 | whatever its awaits meet, a driven call executes if and only if its decision was consumed, the key was free and the claim's answer came back; what it answers is what the journal then holds, and a failed attempt leaves the key taken |
| `ClaimOnceStores.AloneIsDriven` | packages/ap2-runtime-gate/src/gate.ts:297-396 | the machine moving one call alone through any faults is the driven call: nonce store, outcome, journal, and numbers of executions |
| `ClaimOnceStores.ProcessAP2` | packages/ap2-runtime-gate/src/gate.ts:297-396 | the AP2 gate from consumption on is the driven call, with its decision and the fields of its payload as arguments of one fixed machine |
| `ClaimOnceStores.SignAndBroadcast` | packages/wallet-signing-gate/src/gate.ts:187-301 | the wallet gate is the driven call, where a signature counts only for this transaction and a broadcast only with the signed transaction's hash |
| `ClaimOnceStores.ProcessA2A` | packages/a2a-settlement-gate/src/gate.ts:287-382 | the A2A gate from consumption on is the driven call |
| `ClaimOnceStores.InMemoryAP2ExecutionStore.ClaimExecution` | packages/ap2-runtime-gate/src/store.ts:41-74 | refines the claim-once journal, keyed by payment mandate hash |
| `ClaimOnceStores.InMemoryAP2ExecutionStore.CompleteExecution` | packages/ap2-runtime-gate/src/store.ts:76-99 | refines its completion |
| `ClaimOnceStores.InMemoryEvmExecutionStore.ClaimExecution` | packages/wallet-signing-gate/src/store.ts:41-73 | refines the claim-once journal, keyed by unsigned transaction hash |
| `ClaimOnceStores.InMemoryEvmExecutionStore.CompleteExecution` | packages/wallet-signing-gate/src/store.ts:75-99 | refines its completion |
| `ClaimOnceStores.InMemoryA2AExecutionStore.ClaimExecution` | packages/a2a-settlement-gate/src/store.ts:31-52 | refines the claim-once journal, keyed by execution reference |
| `ClaimOnceStores.InMemoryA2AExecutionStore.CompleteExecution` | packages/a2a-settlement-gate/src/store.ts:54-71 | refines its completion |
| `Approval.SupersededOnce` | packages/policy-engine/src/local-provider.ts:137-217 | in every run supersession has depth one, each pending decision has at most one successor, and no successor is itself pending |
| `Approval.DecisionsAreImmutable` | packages/policy-engine/src/local-provider.ts:137-217 | a stored decision is never altered, so a pending one never becomes an ALLOW |
| `Approval.AllowedOnlyWhenGranted` | packages/policy-engine/src/local-provider.ts:153-209 | a successor is an ALLOW if and only if it was granted and policy, evaluated again, permitted its action; the window was open, the action differs from the request's in its extensions at most, and the codes are those of a refusal or of a grant |
| `Approval.DecisionsFollowTheirRequests` | packages/policy-engine/src/local-provider.ts:69-120 | over every run each stored decision made by an evaluation is of its own action and an ALLOW, REQUIRE_APPROVAL or BLOCK if and only if every rule permits it at most at the threshold, above it, or not at all, at the instant and on the spending it was evaluated on; an ordered block is a BLOCK of its own action with the codes given; only an answer supersedes |
| `Approval.EvidenceIsReal` | packages/policy-engine/src/local-provider.ts:89-95 | that instant and spending are real: the evaluation was a move of the call that made the decision, and the spending what was recorded then for the action's day |
| `Approval.LocalDecisionProvider.Evaluate` | packages/policy-engine/src/local-provider.ts:89-99 | the method stores one decision, of this action, with the verdict policy gives now on the day's spending, and changes nothing else |
| `Approval.LocalDecisionProvider.IssueBlock` | packages/policy-engine/src/local-provider.ts:101-120 | a BLOCK with the codes given, refused without any code |
| `Approval.ResolvesExactlyWhen` | packages/policy-engine/src/local-provider.ts:137-217 | an undisturbed resolution makes a decision if and only if its request is pending, unclaimed, in its window and for the same action, and is turned away for the first of these that fails, each reason if and only if it is |
| `Approval.EvaluatesExactlyWhen` | packages/policy-engine/src/local-provider.ts:69-120 | an undisturbed evaluation stores one decision that follows policy now, on the day's spending; an ordered block one that blocks, unless it has no code |
| `Approval.FailedAwaitsEnd` | packages/policy-engine/src/local-provider.ts:69-217 | a store that fails to answer ends the call as failed |
| `Approval.LocalDecisionProvider.ResolveApproval` | packages/policy-engine/src/local-provider.ts:137-217 | the method makes a decision exactly then, stores exactly that decision and claim, and otherwise changes nothing and gives the reason |
| `Approval.LocalDecisionProvider.Granted` | packages/policy-engine/src/local-provider.ts:198-206 | a granted approval drops the code that asked for it and adds its own |
| `Approval.InMemoryDecisionStateStore.ClaimApproval` | packages/policy-engine/src/decision-store.ts:37-44 | true for the first claim of a decision only |
| `EvaluatorMeaning.Evaluate` | packages/pulse-conformance-evaluator/src/evaluator.ts:200-475 | for every input, accept if and only if no failure code is listed (what the record builder insists on), and if and only if the whole chain of checks holds; a case that parses lists each code if and only if the check the code names fails, once and in catalogue order |
| `EvaluatorCodes.RaisedExactlyWhen` | packages/pulse-conformance-evaluator/src/evaluator.ts:213-468 | each failure code is raised if and only if the check that it names fails, stated over the fields of the case and the report for all of them, pair by pair and receipt by receipt |
| `EvaluatorMeaning.ParsedExactlyWhen` | packages/pulse-conformance-evaluator/src/ap2-bridge.ts:54-67 | a report reaches the evaluation if and only if its bounds have distinct sources, its effective expiry is their least, and verified time has a bound of either mandate |
| `EvaluatorMeaning.CleanExactlyWhen` | packages/pulse-conformance-evaluator/src/evaluator.ts:213-468 | no code is raised if and only if every check of the declarative chain holds, for the normalised and the signed mandates both |
| `EvaluatorMeaning.AcceptedAgrees` | packages/pulse-conformance-evaluator/src/evaluator.ts:54-124 | acceptance means that amount, payee, payer, nonce and reference agree across mandates, requirements, authorization, receipt and settlement, with all four constraint kinds in both mandates |
| `EvaluatorMeaning.AcceptedWindow` | packages/pulse-conformance-evaluator/src/evaluator.ts:417-439 | acceptance means validAfter before now, six seconds left, and validBefore within the timeout, both mandates' expiries and every authenticated bound, fractional ones included |
| `EvaluatorMeaning.LeastIsMinimum` | packages/pulse-conformance-evaluator/src/ap2-bridge.ts:54-67 | the effective expiry is the true minimum of the listed bounds |
| `Evaluator.EvaluateCase` | packages/pulse-conformance-evaluator/src/evaluator.ts:200-475 | the step-by-step evaluation lists exactly the codes its checks raise, which `EvaluatorCodes.RaisedExactlyWhen` ties one by one to their checks; an unparsable case has the one schema code |
| `Evaluator.EvaluateConstraints` | packages/pulse-conformance-evaluator/src/evaluator.ts:54-124 | the loop over an unbounded constraint list raises exactly the codes of its violated constraints and of missing kinds |
| `Evaluator.EvaluatePairs` | packages/pulse-conformance-evaluator/src/evaluator.ts:344-431 | both mandate pairs raise their codes, with the authorization's payer and expiry against each |
| `Failures.FailureCollector.Add` | packages/pulse-conformance-evaluator/src/failures.ts:60-62 | a code is added exactly when its condition holds |
| `Failures.FailureCollector.Ordered` | packages/pulse-conformance-evaluator/src/failures.ts:68-72 | exactly the added codes, each once, in catalogue order |
| `Failures.ListIsUnique` | packages/pulse-conformance-evaluator/src/failures.ts:57-73 | there is one such list, whatever order the codes were added in |
| `Ap2Stages.VerifyRequest` | packages/pulse-conformance-evaluator/python/verify_ap2_structured.py:156-276 | each stage is verified exactly when it and all it depends on hold and is otherwise skipped or invalid; the bounds are those of the authenticated payloads and the effective expiry their least |
| `Ap2Stages.CollectBounds` | packages/pulse-conformance-evaluator/python/verify_ap2_structured.py:230-246 | one bound per authenticated payload with a numeric expiry, and time is invalid exactly when some payload is not timely |
| `Ap2Stages.BoundsAreDistinct` | packages/pulse-conformance-evaluator/src/ap2-bridge.ts:54-66 | no source is listed twice |
| `Ap2Stages.ConsistentExactlyWhen` | packages/pulse-conformance-evaluator/src/ap2-bridge.ts:54-67 | an honest report passes the bridge's refinement if and only if time is not verified or both mandates carry an expiry |
| `Ap2Stages.UnendingMandateIsRefused` | packages/pulse-conformance-evaluator/src/ap2-bridge.ts:54-67 | a request whose four payloads authenticate and are timely, and whose open mandate names no expiry: every honest report of it is refused |
| `Amounts.FormatAtomicAmount` | packages/x402-adapter/src/binding.ts:50-69 | a result if and only if the amount is a whole number and decimals are 0 to 18; it is canonical and denotes exactly amount / 10^decimals |
| `Amounts.FormatIsInjective` | packages/x402-adapter/src/binding.ts:50-69 | for fixed decimals different amounts have different strings |
| `Amounts.FormatIsInvertible` | packages/x402-adapter/src/binding.ts:50-69 | every canonical string with no more decimals is the string of some amount |
| `Amounts.ShowIsCanonical` | packages/decision-core/src/schemas.ts:19-25 | every number of units has a canonical string denoting it |
| `Amounts.CanonicalIsShown` | packages/decision-core/src/schemas.ts:19-25 | a canonical string is the one its value is shown as |
| `Amounts.CanonicalIsUnique` | packages/decision-core/src/schemas.ts:19-25 | two canonical strings of one value are equal |
| `Amounts.ToCanonicalIsShow` | packages/policy-engine/src/evaluate.ts:43-46 | eighteen places, then trailing zeros and the point stripped, is the canonical string |
| `Amounts.SumIsExactWhen` | packages/policy-engine/src/evaluate.ts:59-63 | a sum rounded to twenty significant digits is exact if and only if the digits beyond are zeros |
| `Amounts.SumLosesAUnit` | packages/policy-engine/src/evaluate.ts:59-63 | one unit on top of one hundred is lost |
| `Amounts.ShortSumsAreExact` | packages/policy-engine/src/evaluate.ts:59-63 | up to twenty digits followed by zeros are kept exactly |
| `Amounts.RoundIsMonotone` | packages/policy-engine/src/evaluate.ts:59-63 | rounding never reverses an order, so recorded spend never falls |
| `Amounts.InMemorySpendState.RecordSpend` | packages/policy-engine/src/evaluate.ts:59-63 | the key's total is the rounded sum, in canonical form, and no other key changes |
| `Amounts.InMemorySpendState.GetDailySpend` | packages/policy-engine/src/evaluate.ts:55-57 | a canonical string denoting the key's total, zero when there is none |
| `Policy.NotBlockedExactlyWhen` | packages/policy-engine/src/evaluate.ts:162-252 | the verdict is not BLOCK if and only if the conjunction of all rules holds, and asks for approval exactly above the threshold |
| `Policy.VerdictIsMonotone` | packages/policy-engine/src/evaluate.ts:162-252 | with ALLOW < REQUIRE_APPROVAL < BLOCK, a smaller amount on smaller prior spending never fares worse |
| `Policy.BlockedByTheFirstFailure` | packages/policy-engine/src/evaluate.ts:149-252 | a blocked request carries the code of the first failing rule in order of precedence, and only that |
| `Policy.ChosenIsFirst` | packages/policy-engine/src/evaluate.ts:191-208 | the filters and the search find the first merchant that matches payee, resource and purpose together |
| `Policy.WindowIsCircular` | packages/policy-engine/src/evaluate.ts:145-147 | the string comparison is membership in the closed arc of the 1440-minute clock, across midnight or not |
| `Policy.StringOrderIsTimeOrder` | packages/policy-engine/src/evaluate.ts:145-147 | comparing HH:MM strings is comparing minutes |

## Left out

What the models assume or do not capture:

- Cryptography: hashing is an injective constructor over canonical values; a signature check is a relation, ideal where a lemma says so. Ed25519, SHA-256, RFC 8785 canonicalisation, EIP-712, keccak and JWT signatures are not modelled.
- The SQL engine: a statement is one guarded update and a transaction one step; the unique keys on decision id, nonce and (agent, reference) are assumed, and timestamps hold every instant of a JavaScript date, which the SQL type does from 4714 BC on. The migrations are not part of this model.
- Fresh identifiers: a new decision id or nonce that is already taken makes the call fail in the model.
- Time: instants are milliseconds and clocks are arbitrary unless a lemma asks for an order; weekday, minute and day of an instant are arbitrary functions (`Intl` time zones).
- Error messages, and which of several errors is thrown first, except where the answer depends on it.
- Object keys joined into one string (principal and day, did and nonce): the model keeps the pair.
- The KYA verifier: delegation chains, card proofs, revocation and DID resolution are an oracle whose only law is that a proof is accepted after its nonce was consumed as fresh; a proof's index stands for its hashes.
- The MTP service: it records one use per decision and is idempotent or not; its HTTP client is not modelled. The evaluation and approval paths of the MTP provider are left out.
- GuardDriver.InntrisX402Guard.SettleIfAuthorised: is stated over the in-memory stores; the SQL stores are reached through `JournalAgreement.StoresBisimilar` and the step machine, which takes either.
- ClaimOnceStores.ProcessA2A: the settlement and finality checks before consumption, and the AP2 gate's verification and exact-binding checks, only decide whether the modelled part is reached.
- ClaimOnceStores.SignAndBroadcast: takes the reported hash already in lower case.
- GuardDriver.ConsumeDecision: what follows a first consumption when the provider has no atomic state store, the separate record of its spend, is modelled in `SplitSpend.dfy`.
- JournalStores.InMemoryExecutionReconciliationStore.ListUnresolved: how `localeCompare` orders the texts of instants is a parameter, because it depends on the locale outside the years 0 to 9999.
- The reads of single records (`get`), except where an operation answers from one.
- KyaSafety.AuthoritiesHaveTheirOwnProofs: does not say that a proof was unexpired when it was accepted, because the comparison with the clock is made inside the KYA verifier, which is not part of this model; the repository's code only keeps the nonce until the proof's expiry plus the skew.
- KyaDriver.KyaAuthorityGate.Evaluate: an action that already carries the reserved extension, and an evaluation without a presentation where policy does not require one, are not modelled; the content of a BLOCK decision is not either.
- JsonReader.ParseStrictJson: numbers stay lexemes until an arbitrary function says which are finite and what they denote, so double rounding and negative zero are not modelled; JavaScript object prototypes and own-key order are not either.
- JsonPrinter.PrintedValuesReadBack: asks of the platform's number printing that it reads back.
- Presentation.ValidatePresentation: base64url, the inner JSON reader and SHA-256 are a library of functions, arbitrary but fixed.
- Evaluator.EvaluateCase: schemas, canonical hashes, addresses and signatures are arbitrary functions; digit strings are numbers, which the schemas' canonical form makes the same; structural equality stands for canonical equality; the three loops over the mandate pairs are one, which the set of codes cannot tell apart.
- Ap2Stages.VerifyRequest: whether a token parses, verifies and validates is given; the model has the dependency of the stages, their times and their bounds.
- Amounts.InMemorySpendState.RecordSpend: of decimal.js only the rounding of sums is modelled.
- Spend per delegate run in the A2A and AP2 gates: each retry consumes a fresh decision, so spend is per decision.
- Schema checks beyond the refinements named in the table; `formatEvmAmount` and `formatMinorUnitAmount`, which repeat `formatAtomicAmount`.
- The API server, command lines, HTTP clients, subprocess handling, key files, metrics, logging and scripts.
