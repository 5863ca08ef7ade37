# Agent Tree RL: a verified model

Agent Tree RL is a single-writer decision controller. It answers decision, benchmark, training, promotion and rollback
requests against one SQLite file, searches a typed decision game with PUCT, learns from the search results, and backs its
database and policy artifacts up into a signed bundle. This project models the parts whose correctness is a matter of whole
runs, and proves what those parts are for.

## How the model is built

**The store and the control plane.** `Store` gives every table operation as a function on a database value, with the error
it raises. `SqliteStore` is the object that updates its tables in place; each method is proved to have exactly the effect of
that function. `Control` puts the operations together: a request is a process with a program counter, every outermost
transaction is one atomic step, requests interleave freely, a thread may die, the whole server may crash between any two
steps, and recovery runs `reconcile_startup`. A run is any finite sequence of such actions, including unfavourable
ones: clocks may jump, renewals may come late, a step may raise. `ControlInvariant`, `ControlSteps`, `ControlBudget` and
`ControlCommit` show that one invariant survives every action; `ControlTheorems` and `ControlLater` draw the conclusions,
`ControlReply` says how long a reply lasts, `ControlOwner` whose record a commit completes, `ControlCharge` which effects
share a charge, and `ControlRollback` what promotions and rollbacks do to the champion chain. `ControlScript` runs the usual sequences of steps, and with it these modules and
`ControlStale` exhibit the runs from the empty database in which a property fails.
`ControlRows` follows single rows over whole runs, and `StoreLaws` says how the operations undo, repeat and exclude each other.
`ControlPlane` writes `run_decision` and `train_challenger` as the programs they are and proves that running them is a run
of this protocol. `Transactions` treats the nested `transaction` blocks themselves, with their savepoints, exceptions and
threads. `Replay` treats nonces and receipts under the clock.

**The engine.** `Scenario` is the four-phase game, `Scorer` the benchmark, `PolicyModel` the priors and blended values,
`Rollout` the greedy completion. `SearchTree` proves the counting laws of a search tree for any game; `SearchWalk` has the
walks over it; `Search` instantiates both for the decision game and says what a search result promises; `PuctSearch` is the
search object with its cache, its tree and its loops. `ModelLearning` and `Learner` are the updates of the model and
`learn_from_result`, and `LearnerAgreement` proves that the learner accepts whatever the search produces. The modules
`ScorerLaws`, `PolicyLaws`, `PuctLaws`, `ChoiceLaws`, `ModelLaws` and `LearnerLaws` say what these functions compute in terms
of the game, the tree and the model alone. Floating point
numbers are `real`. The functions `exp`, `log`, `sqrt` and `tanh` and the model digest are arbitrary functions with the
stated ranges. A digest is identified with the payload it covers.

**Backup, restore and admission.** `Restore` is the restore procedure as a machine that may crash, or have a file operation
fail, at every step; `DataDirectory` is the same procedure as a program, proved to follow the machine. `Bundle` relates
creating and restoring a bundle, and `BundleLaws` says exactly what each of them accepts. `Admission` is the request admission and drain protocol over arbitrary interleavings of
threads, and `JsonLimits` the iterative limiter of request bodies.

## What the proofs found

Where the code does less than one might expect, the model keeps the code and the lemma gives the exact condition.

- The weights of a suite may add up to anything `math.isclose` accepts. Its default relative tolerance is 1e-9 of the larger
  operand, so the composite is bounded by 1/(1 - 1e-9), which is slightly more than 1 + 1e-9; `Scorer.CompositeLimitIsSharp`
  shows no smaller bound holds.
- Raising a receipt metric can lower the reward of an infeasible position unless `violation_reward` is -1
  (`Scorer.MonotoneExactly`).
- An answer may itself open a question, so a finished game can have an open question (`Scenario.TerminalHasFourPlies`, with a
  valid scenario in `Scenario.AnswerLeavesQuestionOpen`), and a legal candidate is refused exactly when it reopens the question
  it answers (`Scenario.CandidateApplies`, with a valid scenario in `Scenario.LegalCandidateIsRefused`).
- The cleanup of a failed restore removes the installed tree before the marker. A crash between the two leaves a marker whose
  tree is gone; every later attempt then fails and the database stays absent (`Restore.MarkerIsComplete`,
  `Restore.CrashInCleanupLosesTree`, `Restore.ScarredFailsClosed`).
- The same cleanup leaves a damaged tree without a marker when errors stop its removal, and a restore never overwrites
  another bundle's marker; `Restore.RerunInstallsExactly` says from which disks one more run succeeds.
- A bundle restores exactly when its manifest is within the cap that only restore checks, and no two tenants collide in their
  truncated namespaces on the same object (`Bundle.BundleRestores`); `Bundle.OversizedManifestIsRefused` and
  `Bundle.CollidingTenantsAreRefused` are bundles that are written and then refused.
- A rollback compares artifact ids and not generations. If the same artifact has been promoted again meanwhile, the rollback
  commits and can install an artifact that is not the predecessor (`ControlRollback.RollbackAcrossInterleaving`, with a run of
  three training, four promotion and one rollback requests in `ControlStale.StaleRollbackMissesPredecessor`). It also fails
  when its idempotency record has been deleted after its expiry, whatever the champion is.
- The permit of a request is returned before its count. Running bodies are bounded, the active count is not
  (`Admission.ActiveCountIsUnbounded`).
- No envelope is ever stored twice under its default receipt id, whatever the delays, because that id is the envelope's hash and
  the table's primary key (`Replay.EnvelopesAreRecordedOnce`). The nonce guard by itself gives this, and for receipt ids that
  callers name the store gives it, exactly when the delay between verification and claim is at most the grace minus the skew
  (`Replay.NonceGuardIsExact`, `Replay.ChosenIdsAreExact`).
- A completed idempotency record expires and is then deleted by any claim, so the reply of a decision is not permanent. Over
  all runs whose clock readings span at most W seconds, receipt, event, charge and reply are all present or all absent exactly
  when W is at most the TTL of 86,400 seconds (`ControlReply.RepliesLastExactlyTheTtl`); `ControlReply.LateClaimDropsReply` is
  the run in which the reply is gone and the other three parts are there.
- Idempotency records carry no owner. A request that works for longer than the TTL can complete the record of another request
  that has claimed its key meanwhile, which then answers with the wrong result; within the TTL this never happens
  (`ControlOwner.CommitsCompleteTheirOwnRecord`).
- The reservation of a benchmark is named after its idempotency key. Two committed benchmark runs under one key and one quota
  window are charged once, and no other two effects ever share a charge (`ControlCharge.SharedChargesExactly`,
  `ControlCharge.TwoBenchmarksOneCharge`).

## Model

| member | source | states |
|---|---|---|
| `SqliteStore.SQLiteStore.CreateBudget` | agent_tree_rl/store.py:1049-1069 | In place, exactly the effect of the table operation: an absent budget is inserted empty, an existing one must have the same limit, and a raise changes nothing; the function it follows keeps the ledger (`ControlInvariant.CreateKeepsLedger`). |
| `SqliteStore.SQLiteStore.ReserveBudget` | agent_tree_rl/store.py:1071-1110 | Exactly the effect of the table operation, errors included: nonpositive units are refused, an existing reservation id succeeds whatever its status when the units agree, and otherwise units move into `reserved` only within the limit. |
| `SqliteStore.SQLiteStore.TransitionReservation` | agent_tree_rl/store.py:1126-1157 | Exactly the effect of consuming or releasing a reservation: units leave `reserved` and go to `consumed` or nowhere, repeating is harmless, any other status raises and changes nothing. |
| `SqliteStore.SQLiteStore.ClaimIdempotency` | agent_tree_rl/store.py:850-890 | Exactly the effect of a claim: expired records of any status are deleted first, a missing record is inserted IN_PROGRESS and reported new, a present one is returned as it is, and a different request hash raises and rolls the deletion back. |
| `SqliteStore.SQLiteStore.FinishIdempotency` | agent_tree_rl/store.py:902-930 | Exactly the effect of finishing: only an IN_PROGRESS record changes, repeating the same outcome is harmless, anything else raises. |
| `SqliteStore.SQLiteStore.AcquireLease` | agent_tree_rl/store.py:932-993 | Exactly the effect of acquiring: a lease held and unexpired by another holder is unavailable, a takeover raises the fencing token by one, and the returned lease is the stored row. |
| `SqliteStore.SQLiteStore.RenewLease` | agent_tree_rl/store.py:995-1024 | Exactly the effect of renewing: only the live holder with the current token extends the lease. |
| `SqliteStore.SQLiteStore.ReleaseLease` | agent_tree_rl/store.py:1026-1038 | Exactly the effect of releasing: only the holder with its token frees the lease, and the token stays. |
| `SqliteStore.SQLiteStore.RegisterArtifact` | agent_tree_rl/store.py:1206-1248 | Exactly the effect of registering: a row equal in policy, version and content is accepted again, a different row or a taken version raises. |
| `SqliteStore.SQLiteStore.RecordTrainingRun` | agent_tree_rl/store.py:1259-1340 | Exactly the effect of recording: the same row, report included, is accepted again, a different row under its id raises, the artifact must exist in the family. |
| `SqliteStore.SQLiteStore.PromotePolicy` | agent_tree_rl/store.py:1367-1443 | Exactly the effect of a promotion: compare and swap on the champion's artifact id, the next generation, one appended audit row, no change when the artifact is already champion. |
| `SqliteStore.SQLiteStore.SumUnits` | agent_tree_rl/store.py:443-452 | The loop over the reservation table adds up exactly the units of one budget in one status. |
| `SqliteStore.SQLiteStore.CheckAccounting` | agent_tree_rl/store.py:443-461 | The check passes if and only if every budget row equals the sums over its reservations. |
| `SqliteStore.SQLiteStore.ReconcileStartup` | agent_tree_rl/store.py:417-505 | Recovery has exactly the specified effect on all tables or raises with none, and its four reported numbers are the interrupted records, open reservations, their units and held leases of the state before. |
| `StoreLaws.CreateIsIdempotent` | agent_tree_rl/store.py:1049-1069 | A budget can be created if and only if it is absent or has this limit; created again it is the same, with another limit it conflicts. |
| `StoreLaws.ReserveExactly` | agent_tree_rl/store.py:1071-1110 | A new reservation is granted if and only if its units are positive and available, takes exactly them from its own budget and raises the version by one. |
| `StoreLaws.ReserveThenSettle` | agent_tree_rl/store.py:1071-1157 | Reserving and releasing gives the units back; reserving and consuming keeps them taken and counts them as consumed; each step raises the version by one. |
| `StoreLaws.SettledStays` | agent_tree_rl/store.py:1126-1157 | A settled reservation accepts the same outcome again and conflicts with the other. |
| `StoreLaws.FinishIsFinal` | agent_tree_rl/store.py:902-930 | A finished record accepts the same outcome again and conflicts with any other, and finishing changes nothing but status and result. |
| `StoreLaws.ClaimThenClaim` | agent_tree_rl/store.py:850-890 | A claimed record is found again by the same request until its expiry has passed, and then the key is claimed anew. |
| `StoreLaws.AcquireExcludes` | agent_tree_rl/store.py:932-993 | An acquired lease is unavailable to every other holder until it expires, and then passes on with the next token. |
| `StoreLaws.ReleaseFrees` | agent_tree_rl/store.py:1026-1038 | A released lease can be acquired at once with the next token, and its former holder can neither renew nor release it. |
| `StoreLaws.RegisterBinds` | agent_tree_rl/store.py:1206-1248 | A registered artifact id conflicts with any other row, and its policy version with any other artifact of the tenant. |
| `StoreLaws.RecordExactly` | agent_tree_rl/store.py:1259-1340 | A training run is recorded if and only if its token is positive and either the identical row is there or its id is new and its artifact is registered in its family. |
| `StoreLaws.PromoteExactly` | agent_tree_rl/store.py:1367-1443 | A promotion succeeds if and only if the artifact is registered in the family and the champion is the expected one; it touches no other family. |
| `StoreLaws.RecoveryWrites` | agent_tree_rl/store.py:463-505 | Row by row what recovery writes: failures that never expire, released reservations, budgets without reserved units under the next version, freed leases with their tokens, and nothing else. |
| `StoreLaws.RecoveryIsIdempotent` | agent_tree_rl/store.py:417-505 | Recovery done twice leaves the tables of recovery done once. |
| `ControlInvariant.TransitionKeepsLedger` | agent_tree_rl/store.py:1126-1157 | Consuming or releasing keeps every budget row equal to its reservation sums within the limit, always succeeds on a RESERVED row, and can only fail with NotFound or Conflict. |
| `ControlInvariant.ReserveKeepsLedger` | agent_tree_rl/store.py:1071-1110 | Reserving keeps every budget row equal to its reservation sums within the limit. |
| `ControlInvariant.CreateKeepsLedger` | agent_tree_rl/store.py:1049-1069 | Creating a budget keeps the ledger. |
| `ControlInvariant.ReconcileKeepsLedger` | agent_tree_rl/store.py:417-505 | With a balanced ledger recovery never meets its mismatch error, leaves nothing reserved, and keeps limits and consumed units. |
| `ControlSteps.GuardIsSound` | agent_tree_rl/control.py:583-591 | When the training guard reads no reserved units, its reservation is not RESERVED, so the skipped release was not due. |
| `ControlTheorems.RunKeeps` | agent_tree_rl/control.py:150-244 | The protocol invariant survives every finite run of submissions, steps, deaths, crashes and recoveries. |
| `ControlTheorems.Reachable` | agent_tree_rl/control.py:958-1004 | Every reachable state of the control protocol satisfies the invariant (ledger, holders, processes, effects, records, training, champion chain). |
| `ControlTheorems.DecisionsAreAtomic` | agent_tree_rl/control.py:150-244 | In every reachable state the experience receipt, the audit event and the CONSUMED reservation of a decision are all present or all absent, and its COMPLETED reply implies them; the exact condition for the reply is `ControlReply.RepliesLastExactlyTheTtl`. |
| `ControlReply.RepliesLastExactlyTheTtl` | agent_tree_rl/store.py:857-869 | Over all runs whose clock readings lie in a window of W seconds, receipt, event, charge and reply of every decision are all present or all absent if and only if W is at most 86,400. |
| `ControlReply.ReplyStays` | agent_tree_rl/control.py:150-244 | In every run within such a window no record is deleted or inserted twice, so a committed decision has its reply. |
| `ControlReply.LateClaimDropsReply` | agent_tree_rl/store.py:865-869 | For every wider window, a run from the empty database: one decision, then a claim of another key that deletes its reply; receipt, event and charge are there, the reply is not. |
| `ControlOwner.CommitsCompleteTheirOwnRecord` | agent_tree_rl/store.py:865-930 | Over all runs whose clock readings lie in a window of W seconds every commit completes the record of its own request, by its hash, if and only if W is at most 86,400. |
| `ControlOwner.KeyIsClaimedAgain` | agent_tree_rl/store.py:865-890 | For every wider window, a run from the empty database in which a decision is at work while the record under its key is that of another request. |
| `ControlTheorems.RecordsCommitAtMostOnce` | agent_tree_rl/control.py:958-1004 | One idempotency record, from insertion to deletion, gets at most one committed effect even when executions overlap, and a commit whose record is still there is its COMPLETED result. |
| `ControlTheorems.LedgerAlwaysBalances` | agent_tree_rl/store.py:1049-1157 | In every reachable state reserved and consumed equal the sums of RESERVED and CONSUMED reservations and stay within the limit. |
| `ControlTheorems.NoLeakedCapacity` | agent_tree_rl/control.py:238-242 | When every request has ended, nothing is reserved in any budget, after any run. |
| `ControlCharge.SharedChargesExactly` | agent_tree_rl/control.py:404-416 | In every reachable state two committed effects are charged to one reservation if and only if both are benchmark runs under one key and one budget; decisions and training runs have charges of their own. |
| `ControlCharge.TwoBenchmarksOneCharge` | agent_tree_rl/store.py:1087-1090 | A run from the empty database in which one key, claimed again after its record expired and within one quota window, commits two benchmark runs for one consumed unit. |
| `ControlTheorems.RecoveryIsSound` | agent_tree_rl/store.py:417-505 | From every reachable crash state recovery succeeds, leaves reserved at 0, keeps consumed units, limits, tokens and all committed effects, frees every lease, and turns exactly the IN_PROGRESS records into FAILED ones with the interruption result and no expiry. |
| `ControlLater.TombstonesAreForever` | agent_tree_rl/store.py:865-890 | No later run deletes, changes, re-executes or commits under an interrupted key. |
| `ControlRows.RecordsKeepTheirRequest` | agent_tree_rl/store.py:876-890 | Over every run, a record that was not claimed anew is the record that was there and has the same request hash. |
| `ControlRows.OtherRequestIsRefused` | agent_tree_rl/store.py:875-877 | A claim conflicts if and only if the key has an unexpired record of another request hash; the process then ends and no table changes; otherwise the record has the hash of the request. |
| `ControlRows.RepeatsAreNotExecuted` | agent_tree_rl/control.py:966-973 | A request is executed if and only if its key has no unexpired record; the claim deletes exactly the expired records and inserts at most its own. |
| `ControlRows.LeasesAreExclusive` | agent_tree_rl/store.py:932-1038 | In every reachable state and at every action a lease row changes only as: created with token 1, prolonged by its live holder, given back by its holder under its token, freed by recovery, or taken with the next token when free or expired. |
| `ControlRows.LiveLeaseIsRefused` | agent_tree_rl/store.py:989-992 | A trainer that asks for another worker's live lease is refused as unavailable, and nothing changes but its position. |
| `ControlRows.LeaseIsReturned` | agent_tree_rl/control.py:592-601 | A training request that still holds its lease gives it back at its end, and then anyone may have it. |
| `ControlRows.ArtifactsAreImmutable` | agent_tree_rl/store.py:1206-1248 | In every reachable state two artifacts of one tenant with the same policy and version are the same, and over every later run no artifact row changes or disappears. |
| `ControlLater.TakenOverWorkerNeverCommits` | agent_tree_rl/control.py:506-582 | A training worker whose lease token was passed never commits a training row or any event, whatever happens next. |
| `ControlLater.TrainingIsFenced` | agent_tree_rl/store.py:1259-1340 | In every reachable state the training rows of one family carry strictly increasing fencing tokens. |
| `ControlLater.PromotionChainHolds` | agent_tree_rl/store.py:1367-1443 | In every reachable state the audit generations of a family are exactly 1..n, each row's previous artifact is the preceding row's and differs from its own, and the champion is row n. |
| `ControlLater.RunKeepsAudit` | agent_tree_rl/store.py:1367-1443 | Audit rows are append-only over every run. |
| `ControlRollback.PromotionComparesAndSwaps` | agent_tree_rl/control.py:683-712 | In every reachable state the commit step of a promotion takes effect if and only if the artifact is registered in the family, the champion is still what the process read and its record is open; otherwise no table changes; it then is champion. |
| `ControlRollback.RunReads` | agent_tree_rl/control.py:731-746 | In every reachable state a rollback process past its reads has, in the audit trail, the row of the generation it saw, naming the artifact it saw and its target as the previous one. |
| `ControlRollback.CommitStep` | agent_tree_rl/control.py:747-765 | In every reachable state the commit step of a rollback process takes effect if and only if the champion is the artifact it saw and its record is open; otherwise the tables are unchanged; its effect is a rollback to the predecessor if and only if the champion row names the target as its previous artifact. |
| `ControlRollback.RollbackAcrossInterleaving` | agent_tree_rl/control.py:731-765 | For every run between the read and the commit of a rollback process: the commit takes effect if and only if the champion is the artifact read and the record is open, and then restores the predecessor if and only if the previous fields of the champion rows at read and at commit agree; with an unchanged generation and an open record it does. |
| `ControlRollback.RollbackRestoresPredecessor` | agent_tree_rl/control.py:719-767 | With no promotion between read and commit the process commits, installs the predecessor as the next generation, keeps every old audit row and leaves the trail a chain. |
| `ControlRollback.TwoRollbacksRestoreChampion` | agent_tree_rl/control.py:719-767 | Two such commits by two processes, with any run that does not promote the family in between, bring back the original champion two generations on. |
| `ControlRollback.FirstChampionHasNoTarget` | agent_tree_rl/control.py:739-746 | A located rollback process goes on to its transaction if and only if the champion it read is not of generation 1. |
| `ControlStale.StaleRollbackMissesPredecessor` | agent_tree_rl/control.py:731-765 | A run from the empty database: A and B promoted, a rollback reads B over A, C and B are promoted, the rollback commits and installs A although the predecessor is C. |
| `ControlPlane.ControlPlane.RunDecision` | agent_tree_rl/control.py:150-244 | The program, with any pattern of failures, is a run of the protocol that ends its process, and it responds if and only if the record of this very request, by its hash, is COMPLETED at the end, with that result. |
| `ControlPlane.ControlPlane.Write` | agent_tree_rl/control.py:198-231 | The four writes of a decision happen together or leave the tables as they were, as the protocol's commit says. |
| `ControlPlane.ControlPlane.Handle` | agent_tree_rl/control.py:979-991 | The exception handler answers from the completed record of this very request, or marks the record failed and raises, and ends the process. |
| `ControlPlane.ControlPlane.TrainChallenger` | agent_tree_rl/control.py:485-603 | The training program, with any heartbeats and failures and its finally clause, is a run of the protocol that ends its process, and it responds if and only if the record of this very request, by its hash, is COMPLETED at the end, with that result. |
| `ControlPlane.ControlPlane.WriteTraining` | agent_tree_rl/control.py:527-581 | The fencing check and the writes of the training commit happen together or leave the tables as they were. |
| `ControlPlane.ControlPlane.TrainUnderLease` | agent_tree_rl/control.py:497-601 | Every way out of the training body passes through the finally clause and ends settled or in the handler. |
| `Transactions.Session.Run` | agent_tree_rl/store.py:507-534 | A program of nested blocks with caught and uncaught exceptions leaves, through BEGIN, SAVEPOINT, ROLLBACK TO and RELEASE, the database and outcome of the recursive all-or-nothing semantics, and restores depth and savepoints. |
| `Transactions.Session.Block` | agent_tree_rl/store.py:507-534 | One block, outermost or nested, is atomic: its body's effect or none. |
| `Transactions.ThreadsRefineNestedBlocks` | agent_tree_rl/store.py:507-534 | For every interleaving of threads under the reentrant lock the machine refines a stack of nested views, and never begins inside another thread's open transaction. |
| `Transactions.NoDirtyReads` | agent_tree_rl/store.py:571-583 | A thread outside any block that holds the lock sees exactly the committed database. |
| `Transactions.ThrownBlockLeavesNoTrace` | agent_tree_rl/store.py:507-534 | On the connection, for every interleaving and nesting depth: a block that raises leaves database, open transaction, savepoints, lock and depth as they were at its entry, whatever inner blocks had been released. |
| `Replay.ReceiptStore.ClaimReplayNonce` | agent_tree_rl/store.py:664-685 | A claim prunes expired nonces and succeeds exactly when the nonce is not held, keeping it until expiry plus grace. |
| `Replay.ReceiptStore.PruneReplayNonces` | agent_tree_rl/store.py:687-694 | A nonce stays if and only if it has no expiry or one at or after the cutoff, unchanged, and the number of removed rows is returned. |
| `Replay.ReceiptStore.RecordReceipt` | agent_tree_rl/store.py:696-739 | A receipt is recorded together with its nonce, under the given id or the hash of its envelope, if and only if the nonce is free, the id is not in use and the insert does not fail otherwise; else both tables are as they were. |
| `Replay.ClaimsWereVerified` | agent_tree_rl/crypto.py:282-288 | In every run a claimed or recorded envelope was verified before, at a time when it was issued at most a skew ahead and expired at most a skew ago. |
| `Replay.EnvelopesAreRecordedOnce` | agent_tree_rl/store.py:714-738 | Over every run of ticks, verifications, guard calls, records, prunes and failed inserts, with any delay, grace and skew, no envelope is stored twice under default receipt ids. |
| `Replay.NonceGuardIsExact` | agent_tree_rl/crypto.py:282-298 | Over all such runs no envelope's nonce is successfully claimed twice, if and only if the delay from verification to claim is at most grace minus skew. |
| `Replay.ChosenIdsAreExact` | agent_tree_rl/store.py:696-739 | When callers may name receipt ids, no envelope is ever stored twice if and only if the same condition holds. |
| `Replay.LateGuardAccepts` | agent_tree_rl/store.py:664-685 | For every longer delay, a run in which the guard accepts the nonce of a recorded envelope a second time. |
| `Admission.AdmissionIsBounded` | agent_tree_rl/api.py:195-250 | Over every interleaving permits plus holders is constant for both pools, running work bodies never exceed the workers, and the active count is the number of counted requests, so it never underflows. |
| `Admission.ActiveCountIsUnbounded` | agent_tree_rl/api.py:229-241 | A bound on the active count holds over all runs if and only if there are no workers. |
| `Admission.DrainOnlyCountsDown` | agent_tree_rl/api.py:195-241 | Once draining, always draining, and the active count never rises. |
| `Admission.DrainedIsFinal` | agent_tree_rl/api.py:243-250 | Once the count is 0 while draining, no work body runs or ever starts. |
| `Admission.ProductionHTTPServer.AdmitRequest` | agent_tree_rl/api.py:207-227 | With any actions of other threads between its sections, what the call does is a run of the protocol; it returns no code if and only if the body may run, and a rejection means draining or no permit. |
| `Admission.ProductionHTTPServer.ReleaseAdmission` | agent_tree_rl/api.py:229-241 | With any actions in between, a run of the protocol in which neither semaphore exceeds its initial count nor the active count underflows, and the drain is reported if and only if no counted request is left. |
| `Admission.ProductionHTTPServer.BeginDraining` | agent_tree_rl/api.py:195-205 | A run of the protocol after which draining is set; a change is reported if and only if no drain happened before; with a count of 0 no work body runs in any future. |
| `JsonLimits.ValidateJsonLimits` | agent_tree_rl/api.py:107-125 | For any limits the explicit-stack loop accepts exactly the values whose recursive count and nesting are within them, blames a limit that is really exceeded, and terminates on every value. |
| `JsonLimits.StrictJsonLimits` | agent_tree_rl/api.py:107-125 | With the program's limits: at most 10,000 values and 64 levels of containers. |
| `Restore.DatabaseNeverWithoutTree` | agent_tree_rl/backup.py:152-304 | In every reachable disk, after any crashes, failures and reruns, an installed database has its whole validated artifact tree beside it. |
| `Restore.MarkerIsComplete` | agent_tree_rl/backup.py:277-304 | A present marker has each part staged or installed if and only if the cleanup is not between removing the tree and the marker, and no earlier cleanup crashed there. |
| `Restore.ScarredFailsClosed` | agent_tree_rl/backup.py:307-395 | After such a crash no attempt changes the disk again and no database is ever installed. |
| `Restore.CrashInCleanupLosesTree` | agent_tree_rl/backup.py:294-304 | A run for every valid bundle that reaches the incomplete marker. |
| `Restore.ResumeFinishes` | agent_tree_rl/backup.py:307-395 | An uninterrupted resume of a complete marker ends with both parts installed and no marker. |
| `Restore.FreshFinishes` | agent_tree_rl/backup.py:152-304 | An uninterrupted restore into an empty directory ends with both parts installed and no marker. |
| `Restore.RestoreSurvivesCrashes` | agent_tree_rl/backup.py:152-304 | After any sequence of crashes and reruns of one valid bundle, one more uninterrupted run installs it. |
| `Restore.RerunInstallsExactly` | agent_tree_rl/backup.py:152-304 | After any run with faults, crashes and other bundles, one uninterrupted run of a valid bundle ends with it installed if and only if it was installed or the disk is empty of both parts and marker or holds its own complete marker; else the disk is unchanged. |
| `Restore.InvalidBundleChangesNothing` | agent_tree_rl/backup.py:294-304 | From every reachable idle disk a bundle that fails its checks ends with the disk unchanged. |
| `DataDirectory.DataDirectory.RestoreBundle` | agent_tree_rl/backup.py:152-304 | The program, with any pattern of failing file operations, ends exactly where the restore machine ends, and success means both parts installed and no marker. |
| `DataDirectory.DataDirectory.Resume` | agent_tree_rl/backup.py:307-395 | The resume path follows the machine to its end, and success means both parts installed. |
| `DataDirectory.DataDirectory.Attempt` | agent_tree_rl/backup.py:178-301 | The try block ends with everything installed or in the cleanup that matches what had been installed. |
| `DataDirectory.PlayedIsARun` | agent_tree_rl/backup.py:152-304 | What the program does is a run of steps and failures of the restore machine that ends idle, so every theorem about runs covers it. |
| `Bundle.CollectObjects` | agent_tree_rl/backup.py:64-89 | The loop verifies every row and keeps one object per digest, or fails at the first bad row. |
| `Bundle.StageArtifacts` | agent_tree_rl/backup.py:246-257 | The loop writes each row's object under its own tenant, or fails at the first path already taken. |
| `Bundle.ValidateArtifactTree` | agent_tree_rl/backup.py:430-464 | Accepts exactly the trees that hold the paths the rows name, no others, each within the size cap and with its digest. |
| `Bundle.UnpackedExactly` | agent_tree_rl/backup.py:246-257 | Unpacking succeeds if and only if no two rows share a path. |
| `Bundle.BundleRestores` | agent_tree_rl/backup.py:179-258 | A created bundle passes every restore check if and only if its manifest is within the cap and no two rows collide. |
| `Bundle.OversizedManifestIsRefused` | agent_tree_rl/backup.py:122-143 | A database and a tree whose bundle is written without a collision and refused by restore for its manifest. |
| `Bundle.CollidingTenantsAreRefused` | agent_tree_rl/backup.py:246-257 | A database and a tree whose bundle is written with a manifest within the cap and refused by restore for two tenants sharing a path. |
| `Bundle.RoundTripPreserves` | agent_tree_rl/backup.py:64-143 | Restoring a created bundle gives the same database and snapshot and a valid tree, and that tree is the named part of the original per-tenant tree if and only if every named object was intact there. |
| `BundleLaws.CollectExactly` | agent_tree_rl/backup.py:69-89 | The objects are collected if and only if every row has its canonical id and URI and the first row of each object has an intact copy under its tenant. |
| `BundleLaws.CollectsFirstCopies` | agent_tree_rl/backup.py:76-83 | Each object is the copy of the first tenant whose row names it. |
| `BundleLaws.TreeValidExactly` | agent_tree_rl/backup.py:430-464 | A tree is valid if and only if every row is canonical with an intact copy at its path and there is no other path. |
| `BundleLaws.RestoreChecks` | agent_tree_rl/backup.py:179-245 | A bundle that restores has a trusted valid signature, a manifest within the cap, a database and objects of the declared sizes and hashes, and a snapshot that agrees with the manifest. |
| `BundleLaws.ManifestPinsRestore` | agent_tree_rl/backup.py:179-258 | Two bundles with one manifest that both restore give the same database and tree. |
| `Scenario.Filter` | agent_tree_rl/engine.py:548-564 | The legal moves are exactly the eligible ones of the phase, with distinct ids. |
| `Scenario.LegalExactly` | agent_tree_rl/engine.py:548-564 | A move is legal if and only if the game is not over, the move is in the current phase, its actor is not benched, and an answer answers an open question. |
| `Scenario.LegalInOrder` | agent_tree_rl/engine.py:554-564 | The legal moves keep the order of the phase. |
| `Scenario.SafeAbstainIs` | agent_tree_rl/engine.py:617-634 | The system abstention is the initial position ended by one free abstaining move that adds no evidence, violation, question or cost. |
| `Scenario.DedupKeepsFirst` | agent_tree_rl/engine.py:607-613 | Deduplication keeps the first occurrence of each element, in order, and nothing twice. |
| `Scenario.ReachedIsRecomputed` | agent_tree_rl/engine.py:566-615 | Every accumulated field of a reachable position (cost, deduplicated evidence and violations, open questions, phase, status) equals its recomputation from the whole trajectory. |
| `Scenario.TerminalHasFourPlies` | agent_tree_rl/engine.py:482-526 | A finished game has four plies, and no open question if and only if its answer opened none. |
| `Scenario.AnswerLeavesQuestionOpen` | agent_tree_rl/engine.py:516-524 | A valid scenario with a reachable committed position that has an open question. |
| `Scenario.CandidateApplies` | agent_tree_rl/engine.py:566-615 | A legal candidate of a reachable position is applied if and only if it is not an answer that reopens its own question. |
| `Scenario.LegalCandidateIsRefused` | agent_tree_rl/engine.py:584-588 | A valid scenario with a reachable position and a legal candidate that is refused. |
| `Scenario.DigestIdentifies` | agent_tree_rl/engine.py:153-170 | Reachable or abstaining positions with equal state hashes are equal. |
| `Scenario.DigestForgetsOrder` | agent_tree_rl/engine.py:162-165 | Arbitrary positions that differ only in the order of violations share a hash. |
| `Scorer.Accumulate` | agent_tree_rl/engine.py:422-446 | One pass over the plies yields the weighted mean of every metric and the failures in order. |
| `Scorer.Score` | agent_tree_rl/engine.py:338-472 | The scorer with its loops computes the declared score of every position. |
| `ScorerLaws.RewardExactly` | agent_tree_rl/engine.py:382-472 | An unclipped feasible reward is twice the composite less one and the cost weight times the cost, a clipped one is at its bound for that reason, an infeasible one is the violation reward, the system abstention earns the abstention reward. |
| `ScorerLaws.CostLowersReward` | agent_tree_rl/engine.py:457-463 | Of two feasible committed games with the same metrics the dearer never earns more, and unclipped rewards differ by exactly the cost weight times the difference in cost. |
| `ScorerLaws.CostLowersAbstention` | agent_tree_rl/engine.py:382-387 | The same for played abstentions. |
| `ScorerLaws.FourPlyMetric` | agent_tree_rl/engine.py:422-446 | A metric of a four-ply game is the mean of its receipts weighted by the importance of the plies that count. |
| `ScorerLaws.CompositeIsWeighted` | agent_tree_rl/engine.py:455-457 | The composite is zero at zero and rises by a metric's weight times its gain. |
| `ScorerLaws.FailuresExactly` | agent_tree_rl/engine.py:404-454 | A card lists a failure if and only if the game deserves it, for each of the eight kinds. |
| `Scorer.ScoreBounds` | agent_tree_rl/engine.py:338-472 | Metrics are in [0,1], the composite in [0, 1/(1-1e-9)], the reward in [-1,1], an abstention's reward at most 0. |
| `Scorer.CompositeLimitIsSharp` | agent_tree_rl/engine.py:223-278 | A number bounds every composite if and only if it is at least 1/(1-1e-9), which exceeds 1+1e-9. |
| `ScorerLaws.WeightSumsAccepted` | agent_tree_rl/engine.py:223-278 | A weight sum is accepted if and only if it lies between 1 - 1e-9 and 1/(1 - 1e-9). |
| `Scorer.FeasibleExactly` | agent_tree_rl/engine.py:404-472 | A position that does not abstain is feasible if and only if it is committed, complete, closed, without violation, with trusted evidence, every receipt, every safety floor and every hard gate met. |
| `Scorer.RaisingReceiptsHelps` | agent_tree_rl/engine.py:404-472 | Raising receipt metrics never makes a feasible position infeasible or lowers its reward, and with violation reward -1 never lowers any reward. |
| `Scorer.MonotoneExactly` | agent_tree_rl/engine.py:404-472 | Rewards are monotone in the receipts for all suites with a given violation reward if and only if it is -1. |
| `Order.Top` | agent_tree_rl/engine.py:1123-1136 | The choice of `max` by a numeric key and an identifier: the first greatest entry. |
| `Order.Greatest` | agent_tree_rl/engine.py:1123-1136 | The scanning loop returns that entry. |
| `Order.BeforeExactly` | agent_tree_rl/engine.py:1119-1136 | Text comes before text if and only if it is a proper prefix or has the smaller character where they first differ. |
| `PolicyModel.PriorsAreADistribution` | agent_tree_rl/engine.py:791-803 | The priors are nonnegative, cover the moves and add up to 1, in the fallback too. |
| `PolicyLaws.PriorsFollowMerit` | agent_tree_rl/engine.py:782-803 | A greater base prior, greater learned weights or a more reliable actor never lowers the prior, the other two being equal. |
| `PolicyLaws.LogitGaps` | agent_tree_rl/engine.py:782-789 | Moves that differ in base prior, tags or actor alone differ in their logits by exactly that term. |
| `PolicyLaws.PeakIsGreatest` | agent_tree_rl/engine.py:797-798 | The subtracted peak is the greatest logit. |
| `PolicyModel.BlendBounds` | agent_tree_rl/engine.py:811-824 | Blending a learned value with a heuristic in [-1,1] stays in [-1,1]. |
| `PolicyLaws.BlendExactly` | agent_tree_rl/engine.py:820-824 | Without updates the blend is the heuristic, from 60 on the mean of both, and before it moves towards the learned value by updates/120. |
| `Rollout.GreedyReached` | agent_tree_rl/engine.py:1138-1158 | The greedy completion extends the trajectory to a reachable position that is terminal or has no legal move. |
| `PolicyLaws.RolloutPlaysTheBest` | agent_tree_rl/engine.py:1140-1157 | A rollout plays the legal move with the greatest 0.78 times quality plus 0.22 times prior, the last by identifier among equals. |
| `PolicyLaws.QualityExactly` | agent_tree_rl/engine.py:314-328 | The predicted quality is the predicted composite less the cost penalty, within [0,1]. |
| `Rollout.PlayableNeverRaises` | agent_tree_rl/engine.py:1138-1165 | With every move predicted and no answer reopening its question, no completion or leaf evaluation raises. |
| `Rollout.LeafBounds` | agent_tree_rl/engine.py:1160-1165 | Leaf values are in [-1,1]. |
| `Rollout.RankedOrdered` | agent_tree_rl/engine.py:1104-1121 | The order in which moves are tried is sorted by prior and identifier. |
| `PolicyLaws.TriedByPrior` | agent_tree_rl/engine.py:1119-1121 | Of two tried moves the earlier has the greater prior, or the same and not the later identifier. |
| `SearchTree.ExpandKeeps` | agent_tree_rl/engine.py:1205-1217 | Adding a child keeps the tree linked: parents, moves, positions, and tried plus untried moves equal to the node's order. |
| `SearchTree.ExpandCounts` | agent_tree_rl/engine.py:1205-1217 | Adding a child with no visit keeps the counting laws of every other node. |
| `SearchTree.BackupBalances` | agent_tree_rl/engine.py:1226-1228 | Backing a value up along a path restores the counting laws at every node and raises the root's visits by one. |
| `SearchTree.ValuesModerate` | agent_tree_rl/engine.py:1226-1228 | In a counted tree with unit values the sum of values of a node never exceeds its visits. |
| `SearchWalk.TerminalNodes` | agent_tree_rl/engine.py:1168-1176 | The explicit-stack walk finds every terminal node exactly once. |
| `SearchWalk.PathTo` | agent_tree_rl/engine.py:1179-1186 | Walking up the parents gives the moves from the root. |
| `SearchWalk.NodePath` | agent_tree_rl/engine.py:1323-1330 | Walking up the parents gives the nodes from the root. |
| `SearchWalk.BackUp` | agent_tree_rl/engine.py:1226-1228 | The loop gives one visit and the value to every node of the path and to no other. |
| `Search.NodeReached` | agent_tree_rl/engine.py:1188-1228 | Every node is a reachable position whose trajectory is its way from the root. |
| `Search.TreeConserves` | agent_tree_rl/engine.py:1188-1228 | In a searched tree visits are 1 plus the children's (root: exactly the children's), tried and untried moves partition the legal moves, each path is its trajectory, and the value sum is within the visits. |
| `Search.SearchConserves` | agent_tree_rl/engine.py:1188-1303 | Every sound search result has as many root visits as simulations, and the laws of `Search.TreeConserves` hold at every node of its tree. |
| `Search.HitIsSound` | agent_tree_rl/engine.py:1095-1102 | A position is in the cache if and only if it was scored, and a hit equals a fresh evaluation. |
| `Search.VisitTarget` | agent_tree_rl/engine.py:1306-1320 | The target gives every child its share of the visits, over exactly the children. |
| `ChoiceLaws.TargetIsVisitShare` | agent_tree_rl/engine.py:1306-1320 | In a searched tree the target of a tried move is its child's share of the visits of all children. |
| `ChoiceLaws.StoppedNodeValue` | agent_tree_rl/engine.py:1198-1228 | A childless node is worth its leaf value plus, for every further visit, the reward of the finished game, or the violation reward where no move is legal. |
| `ChoiceLaws.NodeCarriesItsPrior` | agent_tree_rl/engine.py:1205-1217 | Every node but the root carries the prior of its move among the legal moves of its parent. |
| `Search.SafeAndBest` | agent_tree_rl/engine.py:1230-1256 | The returned score is feasible, a committed result meets every gate, its reward is the greatest over all feasible terminals of the tree, and with none the system abstention is returned. |
| `ChoiceLaws.ChosenByRewardCostVisitsPath` | agent_tree_rl/engine.py:1237-1245 | Among feasible terminals the chosen one has the greatest reward, then the least cost, then the most visits, then the last path. |
| `PuctSearch.PUCTSearch.ScoreOf` | agent_tree_rl/engine.py:1095-1102 | The cached score equals a fresh evaluation, and the evaluation count stays the number of distinct positions scored. |
| `PuctSearch.PUCTSearch.GreedyCompletion` | agent_tree_rl/engine.py:1138-1158 | The loop plays the recursive greedy completion, errors included. |
| `PuctSearch.PUCTSearch.EvaluateLeaf` | agent_tree_rl/engine.py:1160-1165 | The leaf value blends the completed score, and the cache stays sound. |
| `PuctSearch.PUCTSearch.SelectChild` | agent_tree_rl/engine.py:1123-1136 | The selected child has the greatest PUCT score, by identifier on ties. |
| `PuctLaws.SelectionExactly` | agent_tree_rl/engine.py:1123-1136 | No child has a greater mean plus exploration term than the selected one, and of equals it has the last identifier. |
| `PuctLaws.SelectionPrefers` | agent_tree_rl/engine.py:1123-1136 | Among children of equal mean and visits none has a greater prior than the selected one, among equal mean and positive prior none has fewer visits, among equal prior and visits none has a greater mean, and an unvisited child yields only to a positive mean or a prior greater by the visits. |
| `PuctSearch.PUCTSearch.Descend` | agent_tree_rl/engine.py:1195-1224 | A descent ends on a path that can be backed up with its value; it raises only when the scenario is not playable. |
| `PuctSearch.PUCTSearch.Simulate` | agent_tree_rl/engine.py:1194-1228 | One simulation keeps the tree linked and counted and raises the root's visits by one. |
| `PuctSearch.PUCTSearch.Conclude` | agent_tree_rl/engine.py:1230-1303 | The result is the best feasible terminal by reward, cost, visits and path, with one target per node above it, or the abstention, and its receipt covers it. |
| `PuctSearch.PUCTSearch.PolicyTargets` | agent_tree_rl/engine.py:931-955 | One target receipt per node above the terminal, each of which passes every check of its constructor: distinct named candidates and a distribution over them. |
| `PuctSearch.PUCTSearch.Run` | agent_tree_rl/engine.py:1188-1303 | For every simulation count the result is sound with that many root visits and its target receipts are valid; a nonpositive count is refused; nothing else raises for a playable scenario. |
| `ModelLearning.PolicyKeepsValid` | agent_tree_rl/engine.py:830-858 | A policy update keeps every weight within its limit and changes nothing but policy weights. |
| `ModelLaws.PolicyFollowsTarget` | agent_tree_rl/engine.py:850-858 | A policy step moves the weight of a move's own tag by the rate times the gap between target and prior over its tags, up to the limit; so it never moves away from the target. |
| `ModelLaws.PolicyLeavesOtherTags` | agent_tree_rl/engine.py:851-858 | A policy step leaves the weight of a tag that no move has. |
| `ModelLaws.PolicyStepsExactly` | agent_tree_rl/engine.py:836-848 | A policy step raises if and only if the target names an unknown move, has a negative share, or does not add up to 1 within 1e-8, or the rate is outside (0,1]. |
| `ModelLearning.ValueKeepsValid` | agent_tree_rl/engine.py:860-881 | A value update keeps weights and bias within the limit, counts one update and changes nothing else. |
| `ModelLearning.ValueStepFollowsReward` | agent_tree_rl/engine.py:860-881 | A value update never moves the learned value of its position away from the reward. |
| `ModelLaws.ValueStepExactly` | agent_tree_rl/engine.py:867-880 | A value step moves the bias by rate times error times the slope of tanh, each feature's weight by its share of that, up to the limit, and no other weight. |
| `ModelLearning.ObservedKeeps` | agent_tree_rl/engine.py:661-666 | An observation adds one sample to its actor only, and can bench only that actor and unbench none. |
| `ModelLaws.BenchedExactly` | agent_tree_rl/engine.py:883-893 | After an observation an agent is benched if and only if it was before, or it has enough samples and its mean plus 1.64 deviations is below the threshold. |
| `ModelLearning.PolicyValueModel.LearnPolicy` | agent_tree_rl/engine.py:830-858 | In place, the declared policy update, or an error that leaves the model as it was. |
| `ModelLearning.PolicyValueModel.LearnValue` | agent_tree_rl/engine.py:860-881 | In place, the declared value update, or an error that leaves the model as it was. |
| `ModelLearning.PolicyValueModel.ObserveBenchmark` | agent_tree_rl/engine.py:883-893 | In place, the declared observation of the move's actor, or an error that leaves every record as it was. |
| `Learner.ReplaySelected` | agent_tree_rl/engine.py:1365-1376 | The loop replays the trajectory and lists the states before each move, or fails where the replay fails. |
| `Learner.ValidateTargets` | agent_tree_rl/engine.py:1391-1406 | Accepts exactly the targets that match their replayed states and legal candidates, and yields their lessons. |
| `Learner.LearnFromResult` | agent_tree_rl/engine.py:1333-1425 | Either every check and update passes and the model becomes the declared successor, or the model is untouched. |
| `LearnerLaws.LearnedExactly` | agent_tree_rl/engine.py:1341-1406 | A result is learned if and only if it carries this scenario, this suite and the version of the current model, its receipt digests it, its state and score are those of its replayed, finished game, and its targets are distinct positions of that game with their legal moves and a distribution over them. |
| `LearnerLaws.ResultsAreLearnedOnce` | agent_tree_rl/engine.py:1349-1350 | The model a result published, and every later generation, refuses that result. |
| `LearnerLaws.ReceiptsPinResults` | agent_tree_rl/engine.py:1352-1363 | Results learned under one receipt agree in everything that is learned from. |
| `LearnerLaws.LearnedIsTaughtInOrder` | agent_tree_rl/engine.py:1408-1425 | The published model is reached target by target: a policy step at 0.18, then a value step at 0.12 towards the reward; a result without targets is one value step on the initial position. |
| `Learner.LearnedPublishes` | agent_tree_rl/engine.py:1333-1425 | Learning publishes exactly the next generation, keeps all weights within limits, raises the value updates by the number of targets or 1, and keeps the agents and the benched set. |
| `LearnerAgreement.SearchResultIsLearned` | agent_tree_rl/engine.py:1333-1425 | Every sound search result passes every check of the learner on the unchanged model, and is learned with 4 value updates for a chosen terminal and 1 for the abstention. |

## Left out

- SQLite itself: SQL text, the write-ahead log, migrations, triggers and PRAGMAs; a table is a map or a sequence, and an outermost transaction is atomic.
- Cryptography and encodings: HMAC, SHA-256, base64 and JSON texts are opaque or injective; the verifier's shape and signature checks appear only as an envelope that passed them.
- `run_evidence`, worker processes and the hidden benchmark's arithmetic: their outcomes are decided outside the program; the benchmark request takes part in the protocol with its budget and its commit.
- `evaluate_hidden_benchmark`, `promote` and `rollback` are protocol steps only and not also programs, which would repeat the shape of the two that are.
- Promotion gates, reports and separation-of-duty checks before a promotion: single-branch conditions; a request that fails one simply raises.
- Identifiers are integers where the program has texts; the checks that texts are not empty are left out.
- Timestamps that no check reads back (created, updated, heartbeat, acquired); the content hash, URI and metadata of an artifact are one opaque value.
- The torn restore marker: writing the marker is atomic; a torn one is refused by its authentication and fails closed.
- File permissions, symbolic links, inode checks and zip headers: file system facts, not logic.
- Floating point rounding, the numerics of exp, log, sqrt and tanh, and the random root noise of the search: values are real, and the priors of the root are the model's.
- Search.VisitTarget: only temperature 1, the one the program uses in a search result.
- Rollout.PlayableNeverRaises: one direction; whether an unplayable scenario raises depends on which branches a particular search visits.
- Scenario.Valid: without the uniqueness of semantic signatures, which no theorem needs, so all results hold for more scenarios.
- In `PuctSearch` the tree is a sequence of nodes with indices for parent and child references; aliasing of nodes is not modelled.
- `receipt_id` texts: a given id and an envelope hash are kept apart as values; a caller that passes another envelope's hash is covered.
- Quota windows: the budget a benchmark names is part of its request, so the window it falls in is chosen and not computed.
- `wait_for_drain`: its timeout; the theorem is about what holds once the count is seen at 0.
- HTTP parsing, routing, authentication and roles; the command line, metrics, logging, release scripts and deployment files.
