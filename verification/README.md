# Verified models of the database lab

This project models the correctness core of a teaching repository about databases under failure and concurrency,
and proves what that core promises. It is organised by component.

**Checkout and refund lab** (`Tx*.dfy`). Purchases and refunds run over six MariaDB tables. `TxRows` holds the rows,
`TxAudit` the row-only oracle as a loop that collects violations, `TxLaws` what its checks mean together, `TxSerial`
checkout and refund as atomic operations and the rows their histories produce. `TxSystem` is the concurrent system:
statements of any number of clients interleave, each takes the row or unique-key lock it writes under, buffers its
write and publishes it at commit; clients are rejected, hit injected failures, are retried after lock errors, and lose
commit answers whose commits may still land later. `TxIsolation` shows that locks make each commit one operation on
the tables of that moment, `TxProtected` what every interleaving of protected calls keeps, `TxCollision` when a
repeated checkout can lose its order, `TxStockRace` and `TxRefundRace` how the races and their deliberately unsafe
controls end, `TxPartial` what a checkout that commits after every statement leaves behind, `TxSymptoms` exactly what
the oracle then reports, `TxRepository` is the repository itself as an imperative class, and `TxDrills` runs the
sequential drills against it.

**Order pipeline** (`Orders`, `Pipeline*`, `Adapters`). Orders and outbox rows are written in one transaction, one
relay publishes and marks, one consumer projects into an index with a strict external-version fence and then commits
its offset, and a rebuild scans SQL page by page beside them. `Pipeline` is the step system, with crashes between any
two calls and lost answers on every call; `PipelineSql` and `PipelineLaws` are its invariants; `PipelineTheorems`
states convergence, rebuild and ordering, and `PipelineRuns` that failure-free schedules reach them. `Adapters` has
the adapters and loop bodies as classes and methods.

**Message recovery** (`Quarantine`, `Messages`, `Repair`, `MessageRunner`). Dead-letter envelopes, the
project-or-quarantine step and its runs, repair of the whole dead-letter topic from current SQL, and the runner as a
class.

**Order pages** (`Encodings`, `Json`, `Cursor`, `Keyset`, `Pages`). The cursor (section 7 of RFC 8259 inside section 5
of RFC 4648), the query that reads it back, the LIKE filter, and keyset pages over fixed and moving tables.

**Retry and recovery loops**. `Transfers` is first-committer-wins certification over any number of nodes,
`TransferWorker` the client's transfer and retry loop, `FaultDrill` the write-ahead-journalled fault drill, `Bulk` the
bulk retry and batching loops, `Pacing` the no-catch-up pacing loop in exact real arithmetic.

A run is a sequence of actions and a theorem about runs is about all sequences, so it covers every interleaving, crash
point and lost answer of the model. SHA-256, UUID generation and date parsing are arbitrary functions; only
`Quarantine.DistinctIdentity` assumes an injective digest. Random ids, clock readings and server answers are inputs.

Where the code does less than a first reading suggests:

- A repeated checkout can meet the error that its claim has no matching order: when the key was used before for
  another quantity and both requests have one fingerprint. `TxProtected.ReplayDecision` gives the exact condition for
  one call and `TxCollision.MissingOrderExactly` for all runs; `TxCollision.MissingOrderReached` is a run that meets
  the error. The error that the claim is missing never occurs.
- Split commit is noticed by the audit without claims at the first five boundaries and not at the last
  (`TxPartial.SplitCommitNoticed`, `TxSymptoms.SplitCommitExactly`).
- A transfer answered "insufficient funds" may have moved its money through an earlier attempt whose answer was lost.
  `Transfers.InsufficientExactly` says exactly when, `Transfers.InsufficientThoughMoved` shows it.
- The simulator reads the clock once for the deadline check and again for the recorded start. So the last start may
  fall at or after the deadline (`Pacing.LateStart`), by no more than the time between the two looks
  (`Pacing.StartsBounded`); starts are always before the deadline exactly if that time is zero
  (`Pacing.OnTimeExactly`).

## Model

| member | source | states |
|---|---|---|
| TxAudit.RunChecks | mvp-lab/mvp_app/transaction_model.py:95-97 | a list of named checks yields exactly the failed ones |
| TxAudit.TableViolations | mvp-lab/mvp_app/transaction_model.py:101-130 | the whole-table part of the report is exactly the broken stock, ledger and claim checks |
| TxAudit.WalletViolations | mvp-lab/mvp_app/transaction_model.py:117-121 | the wallet part is exactly the wallets whose balance is negative or disagrees with the ledger |
| TxAudit.OrderViolations | mvp-lab/mvp_app/transaction_model.py:131-152 | one order's part is exactly its broken value, claim, ledger, event and payload checks |
| TxAudit.OrderLoop | mvp-lab/mvp_app/transaction_model.py:131-152 | the loop raises exactly when some order's expected request cannot be built, else it reports every order's violations |
| TxAudit.Audit | mvp-lab/mvp_app/transaction_model.py:81-156 | it raises exactly on malformed snapshots and otherwise lists a violation exactly when that check is broken |
| TxLaws.LedgerExact | mvp-lab/mvp_app/transaction_model.py:124-144 | per-order ledger counters and no orphans hold if and only if the ledger is, up to row order, the rows the orders call for |
| TxLaws.EventsExact | mvp-lab/mvp_app/transaction_model.py:125-152 | event kinds, payloads and no orphans hold if and only if the events are the image of the orders |
| TxLaws.ClaimsExact | mvp-lab/mvp_app/transaction_model.py:126-137 | the five claim checks hold if and only if there is exactly one right claim per order |
| TxLaws.AccountedBroken | mvp-lab/mvp_app/transaction_model.py:101-152 | rows whose orders, money, ledger and events agree can only break stock, duplicate-key or claim checks |
| TxLaws.AuditExact | mvp-lab/mvp_app/transaction_model.py:81-156 | the audit passes if and only if the case is within the row limit and all six tables are the image of its order list |
| TxSymptoms.MoneyReported | mvp-lab/mvp_app/transaction_model.py:114 | the money check is reported exactly when the two wallets' gains and losses differ |
| TxSymptoms.BoundsReported | mvp-lab/mvp_app/transaction_model.py:113 | the bounds check is reported exactly for stock below zero or above the initial quantity |
| TxSymptoms.OwnersReported | mvp-lab/mvp_app/transaction_model.py:122 | an entry of an unknown owner is always reported |
| TxSymptoms.ZeroSumReported | mvp-lab/mvp_app/transaction_model.py:123 | the zero-sum check is reported exactly when buyer's and merchant's entries do not cancel |
| TxSymptoms.TidyReport | mvp-lab/mvp_app/transaction_model.py:101-152 | the exact report, in terms of the rows, for a case wrong only in its totals and about one order |
| TxSerial.SellAccounted | mvp-lab/mvp_app/transaction_sql.py:226-245 | a funded sale of a fresh order keeps orders, money, ledger and events agreeing |
| TxSerial.BuyBalanced | mvp-lab/mvp_app/transaction_sql.py:200-256 | a protected purchase keeps the whole-state invariant |
| TxSerial.RefundAccounted | mvp-lab/mvp_app/transaction_sql.py:280-305 | although refund guards nothing, the merchant stays non-negative and stock within its initial quantity |
| TxSerial.RefundBalanced | mvp-lab/mvp_app/transaction_sql.py:280-305 | a refund of a paid order keeps the whole-state invariant |
| TxSerial.SerialKeeps | mvp-lab/mvp_app/transaction_sql.py:155-319 | every serial history keeps the invariant and the fixture columns |
| TxSerial.BalancedDetermined | mvp-lab/mvp_app/transaction_model.py:99-152 | two audited cases of one fixture with the same orders hold the same rows |
| TxSerial.AuditSound | mvp-lab/mvp_app/transaction_model.py:93-152 | passing with every refunded order affordable alone is the same as: some serial history from the fixture gives exactly these rows |
| TxIsolation.Frame | mvp-lab/mvp_app/transaction_sql.py:200-247 | an open transaction keeps what it knows while others change only rows it has not locked |
| TxIsolation.CommitActs | mvp-lab/mvp_app/transaction_sql.py:247-256 | a commit has the effect of one sale or one refund on the tables as they are at that moment |
| TxIsolation.StepIsolated | mvp-lab/mvp_app/transaction_sql.py:155-319 | every step of every client keeps locks disjoint and every transaction's knowledge right |
| TxProtected.CommitSerial | mvp-lab/mvp_app/transaction_sql.py:200-256 | a protected commit is one serial purchase or refund on the current tables |
| TxProtected.ReplayDecision | mvp-lab/mvp_app/transaction_sql.py:133-153 | which of replay, conflict and missing-order error a repeated request gets, each if and only if, without assuming injective digests |
| TxCollision.MissingOrderExactly | mvp-lab/mvp_app/transaction_sql.py:133-153 | some run of protected calls from seeded cases ends with the missing-order error if and only if two requests with one key and two quantities share a fingerprint |
| TxCollision.MissingOrderReached | mvp-lab/mvp_app/transaction_sql.py:142-150 | the run, for every digest and every such pair |
| TxProtected.RunGuarded | mvp-lab/mvp_app/transaction_sql.py:155-319 | serializability: after any interleaving the tables are those of some serial history |
| TxProtected.EveryInterleavingAudits | mvp-lab/mvp_app/transaction_sql.py:185-319 | for every number of clients, interleaving and failure each case passes the audit with claims, in any row order |
| TxProtected.AtMostOneOrder | mvp-lab/mvp_app/transaction_sql.py:203-211 | at every moment a case holds at most one order per request key |
| TxProtected.CallersAreTold | mvp-lab/mvp_app/transaction_sql.py:133-183 | every answer is true of the tables; a replay has the requested case, key and, when checked, quantity; the missing-claim error never happens |
| TxProtected.RetryExactly | mvp-lab/mvp_app/transaction_sql.py:162-183 | a lock or deadlock error sends a protected checkout back to its start at most twice, any other error ends it |
| TxProtected.SameKeySameOrder | mvp-lab/mvp_app/transaction_sql.py:155-183 | overlapping or repeated calls with one case and key are answered with the same order |
| TxStockRace.ProtectedRaceSellsExactly | mvp-lab/mvp_app/transaction_drill.py:85-98 | stock S and N funded unit buyers: exactly min(S, N) orders, all others sold out |
| TxStockRace.StaleStockOversells | mvp-lab/mvp_app/transaction_drill.py:85-94 | for every N of two or more behind the barrier all N buy, and stock conservation is the only violation |
| TxStockRace.WithoutClaimEveryRetryBuys | mvp-lab/mvp_app/transaction_drill.py:99-110 | for every N of two or more the same request buys N times, and the duplicate key is the only violation |
| TxStockRace.OnlyStockConservation | mvp-lab/mvp_app/transaction_model.py:110-116 | an oversold but otherwise accounted case breaks that check and no other |
| TxStockRace.SomeoneMoves | mvp-lab/mvp_app/transaction_drill.py:33-54 | deadlock freedom: while anyone is unfinished some client can take a step |
| TxStockRace.RaceFinishes | mvp-lab/mvp_app/transaction_drill.py:33-54 | every race has a schedule that ends it |
| TxRefundRace.LockedRefundsOnce | mvp-lab/mvp_app/transaction_drill.py:173-183 | N locked refunds of one order: one refunds, N - 1 replay, and the case still passes |
| TxRefundRace.UnlockedRefundsMultiply | mvp-lab/mvp_app/transaction_drill.py:173-182 | for every N of two or more all N refund, money is still conserved, and the audit reports exactly the violations of N returns of one order |
| TxRefundRace.UnlockedExactly | mvp-lab/mvp_app/transaction_model.py:101-152 | the exact set: stock, the order's ledger and events, and each bound exactly if it is passed |
| TxRefundRace.OneOrderRace | mvp-lab/mvp_app/transaction_drill.py:173-183 | in the drill, with one order, both bounds are passed |
| TxRefundRace.RefundsFinish | mvp-lab/mvp_app/transaction_drill.py:33-54 | every refund race has a schedule that ends it |
| TxPartial.SplitCommitNoticed | mvp-lab/mvp_app/transaction_model.py:110-152 | a sale stopped after a public boundary always changes the tables and is noticed, by a named check, unless it was the last boundary |
| TxSymptoms.SplitCommitExactly | mvp-lab/mvp_app/transaction_model.py:110-152 | the exact set of violations at each of the six boundaries, for any balanced case |
| TxRepository.Repository.Seed | mvp-lab/mvp_app/transaction_sql.py:108-126 | a new case gets exactly its fixture rows, also when only the answer is lost; bad values, existing cases and driver errors change nothing |
| TxRepository.Repository.PurchaseOnce | mvp-lab/mvp_app/transaction_sql.py:185-265 | one attempt's answer and tables, exactly, for every driver error and commit fate: a lost response leaves the sale, a dropped commit nothing, split commit the boundaries passed |
| TxRepository.Repository.Replay | mvp-lab/mvp_app/transaction_sql.py:133-153 | the read-only lookup answers as the committed claim and order decide |
| TxRepository.Repository.Purchase | mvp-lab/mvp_app/transaction_sql.py:155-183 | up to three attempts; answer and tables are exactly those of the deciding attempt, one complete sale or nothing; a lock error surfaces only after three of them |
| TxRepository.Repository.RefundOrder | mvp-lab/mvp_app/transaction_sql.py:280-319 | answer and tables of a refund, exactly, for every driver error and commit fate |
| TxRepository.OnceIsAtomic | mvp-lab/mvp_app/transaction_sql.py:200-265 | what an attempt leaves and what its caller hears fit together: a sale exactly when created, or unknown with the commit not dropped |
| TxRepository.ErrorSurfaces | mvp-lab/mvp_app/transaction_sql.py:192-265 | a driver error at any statement is the answer and leaves nothing |
| TxRepository.ProtectedRollback | mvp-lab/mvp_app/transaction_drill.py:111-135 | at every boundary the protected failure leaves the tables unchanged and the same-key retry is created and audited |
| TxRepository.SplitCommitRollback | mvp-lab/mvp_app/transaction_drill.py:111-126 | at every boundary the unsafe failure changes the tables, and the audit without claims reports exactly that boundary's violations |
| TxDrills.ProtectedAmbiguity | mvp-lab/mvp_app/transaction_drill.py:136-155 | response lost after commit: unknown, the lookup finds the order, the retry replays it, one order, audited |
| TxDrills.UnclaimedAmbiguity | mvp-lab/mvp_app/transaction_drill.py:136-152 | without a claim: unknown, then a second order, and the audit reports the duplicate key and nothing else |
| TxDrills.ConflictingRetry | mvp-lab/mvp_app/transaction_drill.py:156-172 | one key for two quantities: protected refuses, unchecked replays the other quantity; nothing changes |
| TxDrills.RefundTwice | mvp-lab/mvp_app/transaction_sql.py:280-319 | refund, replay, and refusal of an unknown order, from a seeded case to an audited one |
| Orders.StripIdempotent | mvp-lab/mvp_app/core.py:81-95 | a stored item passes the input check it once passed, unchanged |
| Orders.StripExactly | mvp-lab/mvp_app/core.py:81-95 | stripping takes white space only, all of it, and from the two ends only |
| Orders.CreatedWellFormed | mvp-lab/mvp_app/core.py:105-108 | a new order is a row validation accepts |
| Orders.TransitionWellFormed | mvp-lab/mvp_app/core.py:111-119 | a transition keeps a row acceptable |
| Orders.TransitionExactly | mvp-lab/mvp_app/core.py:111-119 | the four allowed transitions on the version seen, changing status and version only; every other is refused, and why |
| Orders.ValidExactly | mvp-lab/mvp_app/core.py:126-146 | validation accepts exactly what the service could have stored, up to spaces around the item |
| Orders.ChainEnds | mvp-lab/mvp_app/core.py:14-15 | no order has more than three versions, and shipped or cancelled is final |
| Pipeline.Pending | mvp-lab/mvp_app/adapters.py:184-188 | the lowest unsent slot, none exactly when everything is sent |
| PipelineSql.WriterKeeps | mvp-lab/mvp_app/adapters.py:114-135 | every create, update, commit and rollback keeps version chains and slot order, and only adds to what is committed |
| PipelineSql.CommitKeeps | mvp-lab/mvp_app/adapters.py:172-182 | a commit makes row and outbox row visible together, with later versions in later slots |
| PipelineLaws.PickOk | mvp-lab/mvp_app/adapters.py:184-188 | without any watermark, the picked event's earlier versions have all been sent |
| PipelineLaws.AppendAscends | mvp-lab/mvp_app/core.py:196-205 | publishing it keeps each order's versions in the log non-decreasing |
| PipelineLaws.NoPayloadConflict | mvp-lab/mvp_app/adapters.py:297-316 | between committed versions a fenced PUT is older or an identical duplicate, never a conflict |
| PipelineLaws.ScanReaches | mvp-lab/mvp_app/adapters.py:209-219 | a scan page misses no row up to its last one, whatever is written meanwhile |
| PipelineLaws.StepSound | mvp-lab/mvp_app/core.py:196-218 | every step of writers, relay, consumer, rebuild and crashes keeps the pipeline invariant |
| PipelineTheorems.Convergence | mvp-lab/mvp_app/core.py:196-218 | whenever nothing is unsent and the offset is the log end, every document equals its row, for every run |
| PipelineTheorems.SteadyConvergence | mvp-lab/mvp_app/adapters.py:293-317 | the same with no condition on rebuilds while the index is never replaced |
| PipelineTheorems.RebuildConvergence | mvp-lab/mvp_app/admin.py:8-28 | a rebuild into an empty index at any offset, interleaved with everything: once it returned and all is drained the index equals SQL |
| PipelineRuns.RebuildReturns | mvp-lab/mvp_app/admin.py:8-28 | from every reachable system a new index has a rebuild schedule without failures, and it returns |
| PipelineRuns.DrainReached | mvp-lab/mvp_app/core.py:196-218 | from every reachable system relay and consumer have a schedule without failures that drains outbox and log |
| PipelineRuns.RebuildCanMirror | mvp-lab/mvp_app/admin.py:8-28 | so every reachable system can be given a new index that ends as the mirror of SQL |
| PipelineRuns.CreateLands | mvp-lab/mvp_app/adapters.py:114-135 | a valid create under an unused key goes through, with exactly the row and outbox row the client asked for |
| PipelineRuns.UpdateLands | mvp-lab/mvp_app/adapters.py:172-182 | an allowed update of the current version goes through |
| PipelineTheorems.LogIsOrdered | mvp-lab/mvp_app/core.py:122-146 | per order the log never goes back a version, and every event in it is valid and was committed |
| PipelineTheorems.IndexIsAuthentic | mvp-lab/mvp_app/adapters.py:293-317 | the index only holds versions SQL committed, none newer than the row |
| PipelineTheorems.ConflictUnreachable | mvp-lab/mvp_app/adapters.py:297-315 | no consumer or rebuild ever meets a payload conflict, a metadata mismatch or an invalid event |
| PipelineTheorems.FoldHighest | mvp-lab/mvp_app/adapters.py:295-296 | folding the fenced PUT over any deliveries leaves the highest version of each order |
| PipelineTheorems.FoldOrderFree | mvp-lab/mvp_app/message_drill.py:176-191 | reordering and duplicating deliveries changes nothing |
| Adapters.Search.IndexOrder | mvp-lab/mvp_app/adapters.py:293-317 | the document is written exactly when newer, and the answer is the check of what is stored |
| Adapters.AnswerMeaning | mvp-lab/mvp_app/adapters.py:293-317 | the answer by version and content of the stored document |
| Adapters.Repository.Create | mvp-lab/mvp_app/adapters.py:114-135 | one order row and one unsent outbox row per new key; a known key answers from its order, or is refused for other data, and changes nothing |
| Adapters.CreateTwice | mvp-lab/mvp_app/adapters.py:109-135 | created, then replayed with the same data, then refused with other data |
| Adapters.Repository.Update | mvp-lab/mvp_app/adapters.py:172-182 | one allowed transition and its outbox row, or an error and nothing |
| Adapters.Repository.PendingOne | mvp-lab/mvp_app/adapters.py:184-188 | the search returns the lowest unsent slot |
| Adapters.Repository.MarkSent | mvp-lab/mvp_app/adapters.py:190-192 | only that row becomes sent, and marking twice changes nothing |
| Adapters.RelayOnce | mvp-lab/mvp_app/core.py:196-205 | a row is marked only after an acknowledged publish; otherwise it stays pending |
| Adapters.ProjectOne | mvp-lab/mvp_app/core.py:208-218 | the offset may move exactly when the event is valid and the index did not refuse it, and then the index holds its version or newer |
| Adapters.Rebuild | mvp-lab/mvp_app/admin.py:8-28 | each counter is the number of rows answered so, the index is the fold of the rows attempted, and the first refusal ends it |
| Quarantine.CheckIsExact | mvp-lab/mvp_app/message_safety.py:128-142 | an envelope is accepted with a key and raw bytes if and only if quarantining them produces it |
| Quarantine.RecordExactly | mvp-lab/mvp_app/message_safety.py:112-125 | a message is preserved exactly if it is from this run's partition and fits, and then whole |
| Quarantine.SameIdentity | mvp-lab/mvp_app/message_safety.py:112-125 | one source position always gets the same id, whatever the reason |
| Quarantine.DistinctIdentity | mvp-lab/mvp_app/message_safety.py:120-123 | with an injective identity digest two ids agree if and only if source position, key hash and payload hash do |
| Messages.EveryOffsetAccounted | mvp-lab/mvp_app/message_safety.py:162-198 | in every run each offset below the checkpoint is projected or has its dead-letter record |
| Messages.DecodeExactly | mvp-lab/mvp_app/message_safety.py:80-176 | a record decodes to an event exactly if size, JSON, schema, ids, order fields and key are all right |
| Messages.CallFailure | mvp-lab/mvp_app/message_safety.py:100-109 | the index call fails for good exactly on a mapping rejection or other content under the same version, wrote nothing then, and says which |
| Messages.StrictBlocks | mvp-lab/mvp_app/message_safety.py:178-183 | strict stops if and only if the record is poison of any kind, names the first fact that fails, and nothing has changed |
| Messages.StrictNeverPassesPoison | mvp-lab/mvp_app/message_safety.py:162-198 | in every strict run nothing is quarantined and every passed offset is genuine, fact by fact, and in the index |
| Messages.StrictStaysAtPoison | mvp-lab/mvp_app/message_safety.py:178-183 | while attempts meet poison, any strict run only queues what arrives |
| Messages.StrictMoves | mvp-lab/mvp_app/message_safety.py:162-198 | strict moves the offset if and only if the record is genuine, the index call raised nothing, no crash struck and the commit took effect; it never quarantines |
| Messages.TransientStays | mvp-lab/mvp_app/message_safety.py:100-109 | an error that is not permanent never moves the offset and is never quarantined |
| Messages.QuarantineAdvances | mvp-lab/mvp_app/message_safety.py:184-188 | answered calls move past poison of any kind and leave exactly its envelope behind, with the reason |
| Repair.UniqueExactly | mvp-lab/mvp_app/message_drill.py:92-99 | deduplication keeps exactly the quarantined records, each once, and refuses exactly foreign, altered or conflicting ones |
| Repair.RepairLands | mvp-lab/mvp_app/message_drill.py:92-110 | repairing the whole dead-letter topic: the strict consumer passes every repair and each order ends at the SQL row its lookup read, or newer |
| Repair.RepairIsCurrent | mvp-lab/mvp_app/message_safety.py:145-159 | a repair carries the current SQL row of exactly the order the quarantined record was keyed by, a committed version |
| Repair.RepairExactly | mvp-lab/mvp_app/message_safety.py:145-159 | a record naming an allowed fixture of this run is repaired exactly if SQL has that order, valid |
| Repair.RepairRefuses | mvp-lab/mvp_app/message_safety.py:145-159 | nothing else is repaired |
| Repair.AuthenticRun | mvp-lab/mvp_app/message_drill.py:66-90 | consuming any list of committed versions with answered calls passes all of them and leaves each order at its version or newer |
| MessageRunner.Runner.IndexDocument | mvp-lab/mvp_app/adapters.py:293-317 | the possibly failing index call has the specified effect and failure |
| MessageRunner.Runner.Quarantine | mvp-lab/mvp_app/message_safety.py:178-188 | the handler blocks, quarantines or re-raises as the failure's class and the policy decide |
| MessageRunner.Runner.ProcessRecord | mvp-lab/mvp_app/message_safety.py:162-198 | one record is handled as the specification says, in its order of effects |
| MessageRunner.Runner.Consume | mvp-lab/mvp_app/message_drill.py:66-90 | the loop is the specified fold of attempts, ended by any exception; it keeps every offset accounted for, and under strict in the index |
| MessageRunner.Runner.Deduplicate | mvp-lab/mvp_app/message_drill.py:93-98 | the loop over the topic computes the specified deduplication |
| MessageRunner.Runner.SendAll | mvp-lab/mvp_app/message_drill.py:100-104 | repairs are sent in order up to the first refusal or unacknowledged publish |
| MessageRunner.Runner.RepairAll | mvp-lab/mvp_app/message_drill.py:92-110 | repair goes through exactly when all is consistent, allowed and acknowledged, and then is the specified sending and strict consumption |
| Encodings.UrlRoundTrip | mvp-lab/mvp_app/core.py:37-55 | unpadded URL-safe base64 decodes to the bytes encoded |
| Encodings.Base64RoundTrip | mvp-lab/mvp_app/message_safety.py:124-134 | padded base64 decodes to the bytes encoded |
| Encodings.Utf8RoundTrip | mvp-lab/mvp_app/core.py:54 | UTF-8 decodes to the text encoded |
| Json.DumpRoundTrip | mvp-lab/mvp_app/core.py:37-54 | a dumped list of strings loads as itself, whatever escapes it needs |
| Cursor.CursorFits | mvp-lab/mvp_app/core.py:35-55 | every cursor for an accepted filter is within 1024 characters, even with a hundred six-byte escapes |
| Cursor.CursorRoundTrip | mvp-lab/mvp_app/core.py:34-55 | a cursor reads back as the last row's position under its own filter and is refused under any other |
| Cursor.NextPageQuery | mvp-lab/mvp_app/core.py:17-56 | the next request built from a response is accepted and continues after its last row |
| Cursor.QueryExactly | mvp-lab/mvp_app/core.py:17-46 | which queries are accepted with what meaning, and which error each other gets, in order |
| Cursor.CursorExactly | mvp-lab/mvp_app/core.py:34-44 | a cursor is accepted exactly if it is short, decodes, and lists a time, an id and this filter |
| Pages.LikeContains | mvp-lab/mvp_app/adapters.py:155-158 | the escaped pattern matches exactly the texts containing the filter, wildcards literal |
| Pages.MatchMeaning | mvp-lab/mvp_app/adapters.py:153-161 | the filter means: item contains the text regardless of case, or id contains it, and the status |
| Pages.PageFacts | mvp-lab/mvp_app/adapters.py:153-170 | a page is ordered, has no holes and is full when it says there is more |
| Pages.ResponseIsPage | mvp-lab/mvp_app/core.py:49-56 | the response is that page, and its cursor leads to the page's last row |
| Pages.NoRepeats | mvp-lab/mvp_app/adapters.py:162-170 | while rows are inserted and changed between pages, no row is ever returned twice |
| Pages.Complete | mvp-lab/mvp_app/adapters.py:162-170 | a finished walk has returned every row present and matching throughout |
| Pages.Terminates | mvp-lab/mvp_app/adapters.py:153-170 | over a fixed table following the cursor ends |
| Pages.ExactEnumeration | mvp-lab/mvp_app/adapters.py:153-170 | over a fixed table any positive limits return exactly the matching rows in order, each once |
| Transfers.Certified | mariadb-ha-lab/scripts/workload.py:87-99 | absolute values read from an old snapshot are exact where certification accepts them |
| Transfers.StepSound | mariadb-ha-lab/scripts/workload.py:78-147 | every lookup, snapshot, commit, late commit and retry keeps the cluster invariant |
| Transfers.MoneyIsConserved | mariadb-ha-lab/scripts/workload.py:78-103 | at every node the total is conserved and no balance is negative |
| Transfers.MovesAtMostOnce | mariadb-ha-lab/scripts/workload.py:121-147 | a request id moves money at most once over all attempts and late commits |
| Transfers.HostMeansReceipt | mariadb-ha-lab/scripts/workload.py:81-99 | a returned host means a receipt with exactly that source, target, amount and host |
| Transfers.InsufficientExactly | mariadb-ha-lab/scripts/workload.py:90-93 | a request told it lacks funds has moved money if and only if its receipt was in the snapshot read |
| Transfers.InsufficientThoughMoved | mariadb-ha-lab/scripts/workload.py:81-93 | such a request exists |
| Transfers.TransferGoes | mariadb-ha-lab/scripts/workload.py:78-103 | a funded transfer that meets no trouble is certified, moves exactly its amount and returns its host |
| Transfers.AttemptsBounded | mariadb-ha-lab/scripts/workload.py:121-147 | in every run a request is tried at most eight times and is unresolved exactly after the eighth |
| TransferWorker.Bank.Transfer | mariadb-ha-lab/scripts/workload.py:78-103 | one transfer moves exactly when new, funded and its commit took effect; its answer is true of the tables |
| TransferWorker.Bank.Request | mariadb-ha-lab/scripts/workload.py:116-150 | up to eight attempts under one id move the money once or not at all; it gives up only on a fatal error or eight retryable ones |
| FaultDrill.ClusterChanged | elasticsearch/scripts/fault_lab.py:274-278 | changing journalled cluster keys in both scopes stays covered by the journal |
| FaultDrill.IndexChanged | elasticsearch/scripts/fault_lab.py:348-352 | changing journalled seed-index settings stays covered by the journal |
| FaultDrill.AllRestored | elasticsearch/scripts/fault_lab.py:528-541 | when every journalled key reads back, nodes are up and no index has the canary's name, nothing differs from the baseline |
| FaultDrill.Drill.Begin | elasticsearch/scripts/fault_lab.py:293-400 | for every scenario and every point of failure all deviations are in the saved journal and in what the process knows; it finishes exactly with the scenario's fault in the world, and does when every call works and the name is free |
| FaultDrill.Drill.Break | elasticsearch/scripts/fault_lab.py:365-397 | finishing means exactly the scenario's fault: the node down, the replicas, or the settings in the persistent scope and absent from the transient one; all of it journalled before |
| FaultDrill.Drill.Recover | elasticsearch/scripts/fault_lab.py:505-557 | one that returns has restored everything and removed the journal; one that fails or dies leaves all deviations covered; with all calls working it returns exactly if no foreign index has the canary's name |
| FaultDrill.Drill.RemoveCanary | elasticsearch/scripts/fault_lab.py:494-503 | an index is deleted only under the canary's name and this run's mark; a foreign one stays and is reported |
| FaultDrill.Drill.Verify | elasticsearch/scripts/fault_lab.py:522-557 | the journal goes last, only when everything looks as it did, and never while a foreign index has the canary's name |
| FaultDrill.Drill.Run | elasticsearch/scripts/fault_lab.py:559-582 | a drill leaves the baseline or a journal that covers what differs; whatever is raised is rolled back, also when told to leave; another active drill and foreign indices are untouched |
| Bulk.SettledWasAcked | elasticsearch/scripts/lablib.py:46-57 | without fatal items, a record not sent again was acknowledged |
| Bulk.BulkSend | elasticsearch/scripts/lablib.py:30-66 | at most retries + 1 requests; the first response that is not to be repeated decides success or which failure; on return every record is stored with its own content; nothing else is ever written |
| Bulk.DeliveredExactly | elasticsearch/scripts/lablib.py:33-66 | success means some allowed request was answered clean and all before it were repeated |
| Bulk.Batches | elasticsearch/scripts/generate_and_load.py:146-165 | batches are non-empty, within both limits, as full as the next document allows, and concatenate to the documents; it fails exactly on an oversized document |
| Bulk.SeedIndex | elasticsearch/scripts/generate_and_load.py:136-165 | a load completes exactly if no document is oversized and every batch is delivered, and then has every document stored with its own content |
| Pacing.PacingHolds | mariadb-ha-lab/scripts/simulator.py:99-184 | starts an interval apart, at most seconds times rate of them, slots accounted for, all but the last before the deadline |
| Pacing.NeverEarly | mariadb-ha-lab/scripts/simulator.py:175-180 | no attempt starts ahead of its slot |
| Pacing.NextSlotExactly | mariadb-ha-lab/scripts/simulator.py:175-180 | the next slot is the first not yet due when the operation ended: missed slots are skipped, no other |
| Pacing.StartsAreReadings | mariadb-ha-lab/scripts/simulator.py:112-117 | each recorded start is its round's second look at the clock, and each first look was before the deadline |
| Pacing.LateExactly | mariadb-ha-lab/scripts/simulator.py:112-117 | a run has a late start if and only if its last start is late |
| Pacing.StartsBounded | mariadb-ha-lab/scripts/simulator.py:112-117 | with the two looks at most a gap apart, every start is less than that gap after the deadline |
| Pacing.OnTimeExactly | mariadb-ha-lab/scripts/simulator.py:112-117 | all runs within a gap start before the deadline if and only if the gap is zero |
| Pacing.LateStart | mariadb-ha-lab/scripts/simulator.py:112-117 | for every plan and every positive gap, a run whose start is at the deadline |
| Pacing.Run | mariadb-ha-lab/scripts/simulator.py:99-184 | the loop performs such a run, ends only when window or slots are used up, and sleeps exactly its waits and the rest of the window |

## Left out

- Locks beyond rows and unique keys: gap locks, lock timeouts and deadlock detection are one nondeterministic error after a full rollback.
- Row ids of ledger and event rows: a collision is a driver error like any other; order ids are arbitrary and checked against the primary key.
- The transaction trace and its budget: an exception after a commit is covered by the unknown-commit answer.
- JSON spelling of event payloads in the checkout lab: a payload is what it decodes to, or unreadable.
- The reports of `verify_result`, `plan` and `report` in the transaction lab: they re-run the modelled audit or format its output.
- Type tests of Python values (`isinstance`, `type(x) is int`): the typed model has no such values; lone surrogates do not exist as characters.
- UTF-16, UTF-32 and byte-order-mark detection of `json.loads` for hand-made cursors, and JSON values other than arrays of strings, which the cursor check refuses anyway.
- Database collations: ids, timestamps and keys compare by character; LOWER is any character map that leaves wildcards alone.
- Caches: deleting and filling them is best effort and changes no modelled state.
- TxRepository.Repository.Purchase: driver errors inside the read-only lookup are not modelled.
- Pipeline: a consumer is one session reading at the committed offset, and a failed commit takes effect at once or never.
- FaultDrill.Drill.Begin: topology and health checks, the fault check and each polling loop are one call each that succeeds or fails.
- FaultDrill.Drill.Run: run ids are fresh, so no index carries a run's mark before it; one object makes one run, as the command line does.
- FaultDrill.Drill.RemoveCanary: the canary's own settings and probe document are not modelled, only that it exists and who owns it.
- FaultDrill.Drill.Recover: an exception of a restoring call outside the classes it catches is not told apart from a crash at that call.
- Repair.RepairLands: canonical JSON of a sent event is assumed to load as that event; inspection and publish budgets are not modelled.
- Transfers: flow control and node provisioning are not modelled; a node's state is any prefix of the certified order not older than its causal read.
- Bulk.SeedIndex: the refresh interval around a load and the output file are not modelled.
- Pacing.Run: the SQL operations are intervals of time, and floating-point rounding is not modelled.
- Host routing, connection pools, drivers, HTTP and containers appear only as calls that succeed, fail or lose their answer.
