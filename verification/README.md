# A sharded ledger with consensus in every shard: model and proofs

Accounts are spread over clusters of 3f+1 replicas. Inside a cluster a PBFT-style protocol agrees on a
log; a transfer between accounts of two clusters runs two-phase commit on top, where each phase
("P" prepare, "C" commit, "A" abort; the empty status, here `Plain`, for a transfer inside one cluster)
is one consensus run. Account locks, a balance check at the debited cluster's leader, a write-ahead log
and an executor that applies the log in order keep the money right.

## How the model is built

Layer 2, the ledger and the two-phase commit:

- `Transfers`, `Ledger`: transfers, configuration, the database of a node as a value.
- `Cluster`: one cluster as its leader sees it. A consensus run is a `Running` period that ends in
  `Commit` or `Fail`; timers and lost messages are the free choice between the two.
- `TwoPhase`: all clusters together, each step guarded by what the remote calls let a leader know.
- `Replay`, `Solvency`, `Guarantees`, `Conservation`: what a log stands for, why no balance goes below
  zero, lock exclusivity, conservation of money.
- `Resubmission`, `Overdraft`: intra-shard requests that are submitted again, which failures of commit
  and abort runs are harmless then, and what the others lead to.
- `Serialisability`: runs in which every numbered consensus run commits, with any resubmissions, are
  equivalent to one ledger that takes the requests one at a time.

Layer 1, the consensus inside a cluster, for every f and arbitrary behaviour of up to f replicas:

- `Messages`, `Replica`, `Consensus`: signed messages in a set that only grows, one replica's handlers as
  functions on its state, all replicas together; agreement by quorum intersection.
- `SingleView`, `AllViews`, `ViewChanges`, `Renumbering`: what holds within a view and in all views, what a
  new view keeps, for which groups a committed number is never given out again, and which missing checks
  would ensure it.
- `Credit`: the groups of all clusters, in any views, with the certificate that a participant's leader
  checks before it proposes a prepare, and the debit quorum it forces.

Both together and the code's own form:

- `System`, `EndToEnd`: every cluster with its leader, its group of replicas and every backup's own
  database; the guarantees on every non-faulty replica.
- `Databases`, `Nodes`: the database and the node as classes whose methods change their fields as the
  source's methods do. Each method is proved to make exactly the step of `Ledger` or `Replica`, the two
  modules whose functions the state machines above are built from, and says on the fields themselves what
  it changes.
- `Refinement`, `Coupling`: under the assumptions on honest senders, counting certificates is a step of the
  protocol, and the executor's loop yields the balances of the common log. `Coupling` says what agrees
  between a node's fields and the states of its cluster, its replica and its books; for each handler it
  gives a method that calls the handler on a node that agrees and ensures which steps the machines take
  with it, that they are open, and that everything agrees again.
- `Certificates`, `NewViews`, `Coordinators`, `BalanceLists`, `Sorting`: counting signed votes, building
  the list of a new view, the coordinator's sequence of runs and calls, balances on the wire.

## Assumptions

- A digest is an injective function of the client's request, so a request is named by a number and its
  digest by that number. The digest does not cover the phase: agreement on the phase rests on a
  non-faulty leader that sends one pre-prepare to all. Signatures cannot be forged: a vote of a
  non-faulty replica exists only if that replica sent it.
- A certificate holds one message per signer for its view and number, as an honest collector builds it.
  The validators compare only signature and digest (node/operations.go:325-424), and
  `validatePCPCommits` counts without looking at who signed or at the signer's cluster
  (node/rpc.go:507-527). `Certificates.CountsSigners` says exactly when counting messages counts
  signers, `Certificates.RepeatedSigner` gives a list for which it does not.
- A backup can commit only with the list its leader has collected (node/rpc.go:247-301,
  node/operations.go:308-318): a run that fails at a non-faulty leader commits nowhere.
- New views only go up, and a replica that is changing views, or has sent a view change for a later view,
  signs no commits. The `NewView` handler itself does not compare the views (node/rpc.go:343-393) and
  `sendCommitReq` does not look at `ViewChanging` (node/operations.go:275-323). All results about the
  consensus rest on this; `Renumbering.LateViewRepeats` shows what a late new view does without it.
- A new view is signed by the leader of the view that is left (node/rpc.go:347-353, node/utils.go:127-131).
  Its list of pre-prepares decides where its receivers go on (node/rpc.go:384-388), and nothing compares the
  list with the view changes that come with it: a faulty sender's list is arbitrary. Its view changes are
  those of 2f+1 distinct replicas, one message per signer as above.
- Amounts are non-negative, client sequence numbers are unique, both accounts exist, and the named
  clusters own them. A cross-shard request is submitted once; an intra-shard one is submitted again only
  after its previous handler has returned.
- In `TwoPhase` and `System` the leaders are non-faulty, and a participant is called only by a coordinator
  whose prepare has committed; a call of `PCPrepare` succeeds exactly if the participant's prepare run did,
  and one that does not arrive counts as an error. `Credit` assumes nothing of the coordinator's leader but
  that the certificate it sends is honestly collected, as above.
- Waiting for locks, the handlers' timers and the resending of commits are nondeterministic choices or
  parameters. Database operations do not fail. One executed entry is one step.

## What turned out not to hold

- No balance is negative in runs without resubmission. With resubmitted intra-shard requests it can be,
  when a commit or abort run fails: the failing branch releases the request's locks whatever it still needs
  them for (node/operations.go:98-119), and a resubmission fills a gap under its old number.
  `Resubmission.Harmless` is the guard of that branch: the failure releases no lock that another request
  holds, and, if the request's own prepare is not executed yet, no resubmission can fill a gap below that
  prepare and debit the same account. With harmless failures only, no balance of any replica is ever
  negative (`EndToEnd.NoReplicaNegative`), and neither is any prefix of the log. Conversely
  (`Overdraft.HarmOverdraws`), from every reachable state in which a failure lets two debits collide on
  one account, the run goes on to a negative balance, and that failure is not harmless.
  Two such runs: in `Overdraft.Overdrawn` a coordinator's commit run fails while its debit waits above a
  gap; in `Overdraft.OverdrawnAtParticipant` a participant's abort run, which never took locks again after
  its failed prepare, fails and releases the lock that a resubmitted request holds by then.
- A committed number can be given out again in any group with a faulty replica, and, as long as new views
  are adopted in order, in no other (`Renumbering.ExactCondition`). Three checks are missing. A new view's list is not compared with its view
  changes (node/rpc.go:376-388), so a faulty leader of the view that is left can send its successors back to
  1 in the very next view (`Renumbering.FaultySenderReuses`, for every such group). And a pre-prepare's
  number is not compared with the start of its view (node/rpc.go:107-124), so a faulty leader can have a
  committed entry overwritten, and the view after it starts with the number again (`Renumbering.Reused`,
  although all lists fit). With both checks no number is reused (`ViewChanges.NoReuse`); with the first
  alone not in the next view (`ViewChanges.NextViewAbove`). Third, a new view is not compared with the
  replica's own (node/rpc.go:343-393): one that is delivered again, or late, when its sender leads once more
  resets the count, also in groups without faulty replicas, and a non-faulty leader then proposes a second
  request at a committed number of its view (`Renumbering.LateViewRepeats`).
- The participant's wait for the coordinator's commit before it aborts by itself (node/rpc.go:451-458) never
  changes what it does: after its own failed prepare no commit can come (`Coupling.AnswerCoordinator`).

## Model

| member | source | states |
|---|---|---|
| Serialisability.Serialisable | node/pbft_runner.go:19-64 | in every run whose numbered consensus runs all commit, whatever intra-shard requests are submitted again, one global ledger taking the decisions in lock-point order reaches the same verdict on each at its place and accepts no request twice; without resubmission each request is decided once; and once all are through every balance of every cluster is that ledger's |
| Serialisability.AcceptedIsCommitted | node/pbft_runner.go:19-64 | in the same runs, once all requests are through, the ones the serial ledger accepts are exactly those with a commit entry in both clusters (a plain entry if intra-shard) |
| EndToEnd.ReplicasSerialisable | node/node.go:260-321 | the same on every non-faulty replica that has executed as far as its leader, with consensus, faulty backups and resubmissions modelled |
| Guarantees.NeverNegative | node/operations.go:25-49 | no balance is negative at a leader, nor after any gap-free prefix of the committed log, also when runs fail, release their locks and leave gaps |
| EndToEnd.NoReplicaNegative | node/node.go:260-279 | no balance of any non-faulty replica of any cluster is ever negative: whatever runs fail if nothing is resubmitted, and with resubmissions if the failed commit and abort runs are harmless |
| EndToEnd.NoPrefixNegative | node/node.go:260-279 | under the same conditions no gap-free prefix of a cluster's common log overdraws an account, executed by anyone or not |
| Solvency.PrefixesSolvent | node/node.go:260-279 | executing any contiguous prefix of the committed log, also beyond where the leader's executor stands, overdraws no account |
| Resubmission.NeverNegativeResubmitted | node/rpc.go:43-67 | with resubmitted intra-shard requests no balance is negative, at a leader and after any gap-free prefix of its log, if every failed commit or abort run releases no lock another request holds and exposes no debit to a gap below it |
| Overdraft.Overdrawn | node/operations.go:98-119 | a concrete run in which a coordinator's failed commit run and a resubmission end in a negative balance |
| Overdraft.OverdrawnAtParticipant | node/rpc.go:451-458 | a concrete run in which a participant's failed abort run releases the lock of a resubmitted request and a balance gets negative |
| Overdraft.CollisionOverdraws | node/operations.go:98-119 | from every reachable state in which a due debit and a request that can be resubmitted into a gap exceed one account together, the run can go on to a negative balance |
| Overdraft.HarmOverdraws | node/operations.go:98-119 | a failure of any run that leads from a harmless run to such a state is not harmless, and the run goes on to a negative balance |
| Conservation.Conserved | db/balances.go:34-49 | in every state of every run, cluster balances plus debits without their credit minus credits without their debit equal the initial total; undone prepares cancel |
| Conservation.ConservedWhenThrough | node/utils.go:485-501 | once every cross-shard transfer is decided and executed on both sides the clusters hold exactly the initial total |
| TwoPhase.Atomicity | node/pbft_runner.go:21-61 | no transfer is committed in one cluster and aborted in another or in the same log, every commit entry follows a prepare of the same transfer in its log, and a commit implies a committed prepare in both clusters |
| TwoPhase.AtMostOnce | node/rpc.go:43-67 | however often it is resubmitted, an intra-shard request has one number in one log over the whole run |
| TwoPhase.LogGrows | node/utils.go:450-462 | a committed entry is never changed or removed in a run |
| EndToEnd.StoredOnce | node/operations.go:53-83 | the non-faulty replicas of all clusters together store an intra-shard request at one number only, also with retransmission |
| EndToEnd.AppliedOnce | db/balances.go:34-49 | a replica that has executed a request's first-phase entry and no abort holds the balances of the log without that entry plus exactly one application of the transfer, however often it was submitted |
| Guarantees.LockExclusivity | db/locks.go:11-64 | without failed runs a leader's locks are exactly the accounts of its unfinished requests, held until the executor has passed their last entry, each by one request |
| Solvency.CheckStays | node/operations.go:39-48 | while a request holds its locks, no step of another request and no executed entry changes the outcome of its balance check, as long as no run has failed |
| Resubmission.CheckStays | node/operations.go:39-48 | the same with resubmitted requests, also after failed runs, as long as every committed first run that waits for the executor still has its locks; and in any case a passed check of a debit the executor can reach stays passed |
| Solvency.ExecBalances | node/node.go:306-321 | executing the next entry with the write-ahead log does to the balances what the log alone says, and keeps them equal to the initial balances plus the transfers that have moved |
| Replay.ExactUndo | node/utils.go:485-501 | whatever other entries interleave, a prepare and the later abort of a transfer leave every balance as if neither had run, and in between differ by exactly the transfer |
| Ledger.UndoesAll | node/utils.go:485-501 | undoing any log of transfers in the order they were applied gives back the balances before them |
| EndToEnd.UndoneOnReplica | node/utils.go:485-501 | every non-faulty replica that has executed the abort of a prepared transfer holds, by its own write-ahead log, the balances of the log in which neither has any effect |
| Cluster.StepBasic | node/node.go:247-321 | every leader step keeps each number owned by one request, each log entry backed by that request's state, and the write-ahead log equal to the committed prepares |
| Consensus.CommitAgreement | node/operations.go:394-424 | for every f, two non-faulty replicas that commit one number in one view, at any two moments, hold the same digest, whatever f faulty replicas (leader included) send |
| Consensus.PreparedUnique | node/operations.go:325-338 | two non-faulty replicas are never prepared for different digests at one number of one view |
| Consensus.StepInv | node/rpc.go:114-124 | every step keeps: an entry past a stage has that stage's quorum of signed votes, votes match the log, and non-faulty replicas vote for one digest per view and number |
| ViewChanges.NoReuse | node/operations.go:564-644 | if lists and numbers that come from faulty replicas are checked, then once 2f+1 replicas signed commits for a number every non-faulty replica in a later view counts from above it and none proposes or accepts anything for it |
| ViewChanges.NextViewAbove | node/rpc.go:376-388 | if lists are checked, replicas in the very next view count from above every committed number, whatever numbers faulty leaders give out |
| ViewChanges.AboveUnlessOverwritten | node/operations.go:497-507 | a list that fits 2f+1 view changes starts its view above every committed number that no view in between has given out again |
| Renumbering.Reused | node/rpc.go:107-124 | a concrete run of four replicas, all lists fitting, in which a faulty leader overwrites a committed number and a later view gives it out again |
| Renumbering.ExactCondition | node/rpc.go:384-388 | in all runs of a group without retransmission whose new views are adopted in order no committed number is given out again, if and only if none of the group's replicas is faulty |
| Renumbering.LateViewRepeats | node/rpc.go:343-393 | in every group whose first leader is non-faulty, also without faulty replicas, a run after which a new view that is delivered again passes all that the handler compares and makes that leader propose a second request at a committed number of its view |
| Renumbering.FaultySenderReuses | node/rpc.go:376-388 | for every group with a faulty replica, a run in which all numbers are checked and its list sends a non-faulty replica back below a committed number |
| Renumbering.CheckedNeverReuses | node/rpc.go:107-124 | with both checks no run of any group reuses a committed number |
| SingleView.GapFree | node/rpc.go:107-112 | in the first view the pre-prepared numbers of a non-faulty replica, leader included, are 1..k and it votes for and stores only those |
| AllViews.GapFree | node/rpc.go:107-112 | in every run, whatever views it adopts, a non-faulty replica that never proposes has pre-prepares for exactly 1..k and stores and votes for nothing else |
| SingleView.Ladder | node/operations.go:340-364 | in the first view and without retransmission, behind every stored entry stand its pre-prepare with the same phase, a log entry of the same request at least committed, 2f prepares of distinct backups and 2f+1 commits of distinct replicas |
| AllViews.Ladder | node/operations.go:340-364 | in every run, with any views and retransmissions, behind every entry a non-faulty replica has stored stand, in one view, a pre-prepare with the same phase, 2f prepares of distinct backups and 2f+1 commits of distinct replicas |
| SingleView.StagesRise | node/node.go:392-409 | in the first view and without retransmission a log entry never loses its digest and never falls back |
| AllViews.EntriesRise | node/node.go:392-409 | in every run without retransmission a log entry is never lost and only moves on: to a later view, or within a view with one digest to later stages |
| SingleView.StoresAgree | node/utils.go:450-469 | with a non-faulty leader a replica stores only what the leader stores, in the same phase, also with retransmission |
| EndToEnd.ReplicaAgreement | node/node.go:260-321 | a non-faulty backup has executed exactly a prefix of its cluster's common log and holds the balances that prefix stands for; equally far replicas have equal balances |
| EndToEnd.CreditImpliesDebit | node/rpc.go:431-438 | in every run of the system, resubmissions included, a non-faulty participant replica with a committed prepare implies 2f+1 signed commits for that request in the coordinator cluster, of which f+1 non-faulty replicas had it prepared; by the certificate check alone |
| Credit.CreditImpliesDebit | node/rpc.go:491-528 | the same for groups in any views, with retransmission and whoever leads the coordinator, if the certificate is honestly collected and the participant leaders that pre-prepared the credit are non-faulty |
| System.StepInv | node/operations.go:340-364 | every step of the whole system keeps leader, consensus group and each backup's database consistent with one log |
| Refinement.ExecutorFollowsLog | node/node.go:260-279 | however many stored entries the executor loop finds, it ends with the balances the common log stands for |
| Refinement.CommitsAreStep | node/operations.go:185-222 | counting an honestly collected commit list is the protocol's commit step, enabled, with the same outcome and the same resulting replica |
| Refinement.PreparesAreStep | node/operations.go:265-271 | enough honestly collected prepares make the protocol's prepare step, with the vote that is sent |
| Coupling.StartLeader | node/node.go:117-219 | a new leader node agrees with the initial states of its cluster and group, is live, and has been told of no commit |
| Coupling.StartBackup | node/node.go:117-219 | a new backup node agrees with the initial state of its group and has the books of a fresh shard |
| Coupling.RunsTogether | node/operations.go:20-120 | in every state of every run of the system the cluster and group of each leader satisfy what the leader's handlers are coupled under |
| Coupling.OpenIsStep | node/operations.go:20-120 | a step the coupling shows open to a leader is a step of the system, with its effect on that cluster and group alone, if the other leader's answers and the certificate allow it |
| Coupling.ExchangeIsStep | node/rpc.go:88-301 | every other enabled step of a group, of a backup or of a faulty replica, is a step of the system |
| Coupling.AdmitRequest | node/rpc.go:43-67 | an intra-shard request is handled under the number of its earlier run, and once that run's handler has returned this is the system's resubmission step |
| Coupling.LockRequest | node/operations.go:25-49 | an attempt to take the locks is busy exactly while the acquiring step is closed; otherwise it is that step followed by the refusal, with the database as before, or by the passed balance check |
| Coupling.NumberRequest | node/operations.go:51-83 | numbering a run is the system's step that assigns the number together with the group's proposal, or with the old pre-prepare sent again |
| Coupling.StartDecision | node/operations.go:25-83 | a leader whose commit or abort may start is ready for the run whatever locks are held, its database untouched, and numbering it is the system's step with its proposal |
| Coupling.NumberIsStep | node/operations.go:51-90 | numbering a run is one step of the system, after which the run is under way with this pre-prepare sent, if the other leader's answers and the certificate allow it |
| Coupling.FinishRequest | node/operations.go:98-119 | the end of a run is its failure, or the group's prepare step followed by commit or failure, as the two counts say; the leader is left with the lists that counted |
| Coupling.RunCommits | node/operations.go:98-119 | wherever 2f backups have sent prepares and 2f+1 replicas commits, the leader's own among them, there are lists it can collect with which its run commits |
| Coupling.EndIsSteps | node/operations.go:98-119 | the end of a run is one step of the system without 2f prepares, and with them the prepare step followed by the commit or the failure |
| Coupling.ExecuteAtLeader | node/node.go:260-279 | executing the next entry is the cluster's execution step on database and executor, in whatever stage the log entry is by then; where it is still committed the node agrees in everything again |
| Coupling.EraseLog | node/pbft_runner.go:46 | after the coordinator's own commit the erasing step is open, and erasing the write-ahead log entry is that step |
| Coupling.ReceivePrePrepare | node/rpc.go:88-184 | a pre-prepare is accepted exactly if it passes the checks and is a commit or abort or finds its locks free; that is the protocol's accept step with the vote sent, or writes again an entry the backup had |
| Coupling.ReceivePrepares | node/operations.go:258-273 | a backup votes exactly on 2f counted prepares, which is the protocol's prepare step with the vote sent; too few leave the replica as it was |
| Coupling.PassOnPrepares | node/rpc.go:217-245 | what a leader hands out after a run that got 2f prepares makes a backup vote to commit |
| Coupling.ReceiveCommits | node/operations.go:308-318 | enough commits are the protocol's commit step, and the backup's database notes a prepare as the system's books do |
| Coupling.PassOnCommits | node/rpc.go:276-301 | what a leader hands out after a run that got 2f+1 commits makes a prepared backup take the protocol's commit step |
| Coupling.ExecuteAtBackup | node/node.go:260-279 | executing the next entry is the system's step on the backup's books, in whatever stage the log entry is by then; where it is still committed the node agrees in everything again |
| Coupling.LeaveView | node/operations.go:480-534 | sending a view change is the protocol's step, reporting what the replica has prepared |
| Coupling.JoinView | node/rpc.go:316-341 | joining a view change is that same step, and only the leader of the view that is left starts a new one |
| Coupling.OfferView | node/operations.go:536-646 | the sender's new view is one a non-faulty replica may offer, its list fitting its view changes, and the sender adopts it |
| Coupling.ReceiveView | node/rpc.go:343-393 | a new view is adopted exactly if it is verified with 2f+1 rightly signed view changes, whichever view it is, with the number the unchecked list ends with, as the protocol's adoption does, which is open if the view is a later one |
| Coupling.AnswerCoordinator | node/rpc.go:431-458 | the participant acknowledges exactly if the coordinator may commit; otherwise the coordinator may abort, and after its prepare the run of the one or the other is open to it; the participant's own abort is open after a failed run, and the coordinator is then in no commit run, so the commit it waits for cannot come |
| Coupling.HearCommit | node/rpc.go:460-475 | a commit message, which follows the coordinator's commit, is noted; the participant has still been told only what is committed, and its commit run may start once its prepare has committed, and again after every failed try |
| Coupling.ToldStays | node/rpc.go:460-475 | no step of any cluster undoes a coordinator's commit, so what the participant has been told stays true |
| Coupling.CheckCoordinator | node/rpc.go:491-528 | a list the coordinator collected honestly passes the participant's check exactly if it allows the participant to number the transfer |
| Certificates.CountsSigners | node/operations.go:366-392 | the number of messages that count is at least the number of signers, and equal exactly if no signer is repeated |
| Certificates.MatchingCounts | node/operations.go:366-424 | as many messages count as positions of the list hold a verified vote for the digest |
| Certificates.MatchingKeeps | node/operations.go:366-424 | the counted list keeps every verified vote for the digest as often as it occurs and nothing else |
| Certificates.RepeatedSigner | node/rpc.go:507-527 | three copies of one commit count as three |
| Certificates.CommitQuorum | node/operations.go:394-424 | an honest list passes the count exactly if it is a quorum of 2f+1 distinct replicas |
| Certificates.PrepareQuorum | node/operations.go:366-392 | the same for prepares and 2f distinct backups |
| NewViews.BuildList | node/operations.go:564-607 | the list covers the least to the greatest reported number, null in gaps; as long as no two reports for one number differ, every number a view change reports is in it with the digest reported |
| NewViews.ListDecided | node/operations.go:566-573 | of all reports for one number the first, in the order of the view changes and of the reports of each, decides the digest the list has for it |
| NewViews.ListCovers | node/operations.go:578-607 | each number of the range occurs once, ascending, with a reported digest where there is one and the null digest elsewhere |
| NewViews.ListKeepsReports | node/operations.go:564-573 | every reported digest is kept if and only if no two reports for one number differ |
| NewViews.ListIgnoresOrder | node/operations.go:566-573 | when reports agree, neither their order nor repetitions change the list |
| NewViews.Start | node/operations.go:634-644 | the sender gets that list and goes on one above every number any view change reports |
| NewViews.ListGreatest | node/operations.go:634-644 | the number after the end of the list is above everything a view change reports and, unless it is 1, directly above one of the reports |
| NewViews.ListEnds | node/rpc.go:384-388 | the number after an honestly built list's last entry, which the receivers take, is that same number, so the list fits its view changes |
| BalanceLists.ToList | node/utils.go:387-403 | the list has exactly one entry for each client of the map, with its amount, strictly sorted by client, and converts back to the very map it came from |
| BalanceLists.ToMap | node/utils.go:405-411 | the map has exactly the clients of the list, each with the amount of its last entry |
| BalanceLists.NameLexicographic | node/utils.go:387-403 | the order of the names: a prefix first, and else the smaller character where they first differ |
| BalanceLists.ListUnique | node/utils.go:387-403 | two strictly sorted lists of one map are equal, so map iteration order does not matter |
| Coordinators.RunCrossShard | node/pbft_runner.go:19-64 | a failed prepare run ends the handler; without an acknowledgement the abort is run and nothing else follows; with one the commit is run, and after its success the client gets its reply, the log is erased and the commit message is sent for every answer with no acknowledgement before it and never after one; all steps are ones the two-phase commit allows |
| Coordinators.LegalMeansAtomic | node/pbft_runner.go:33-61 | the participant is told to commit only after both prepares and the coordinator's commit, and never in a handler that aborts |
| Coordinators.ResendsUntilAcknowledged | node/pbft_runner.go:47-60 | one commit message per answer up to the first acknowledgement and none after |
| Databases.Database.GetBalance | db/balances.go:13-25 | the stored balance, or an error exactly for accounts of other shards |
| Databases.Database.UpdateBalances | db/balances.go:34-49 | the sequential read-modify-writes amount to the transfer, also for a transfer to oneself and for accounts of other shards |
| Databases.Database.InitiateBalances | db/balances.go:51-65 | every account of the shard, and no other, gets the initial balance |
| Databases.Database.CheckLocks | db/locks.go:50-64 | succeeds exactly if none of the accounts is locked |
| Databases.Database.CheckAndGetLocks | db/locks.go:35-48 | both locks are taken if both were free and none otherwise; a Byzantine node takes none |
| Databases.Database.ReleaseLocks | db/locks.go:11-21 | exactly the named locks are gone |
| Databases.Database.AppendToWal | db/wal.go:23-45 | the new logs follow what the entry held |
| Databases.Database.EraseWal | db/wal.go:108-113 | the entry is gone and no other changes |
| Nodes.Node.constructor | node/node.go:117-219 | a new node is live and not Byzantine, in view 1 with number 1, everything it collects is empty, no lock is held and every account of its shard has the initial balance |
| Nodes.Node.WriteLog | node/node.go:221-245 | a fresh pre-prepared entry of the current view, whatever was there |
| Nodes.Node.UpdateLog | node/node.go:392-409 | an entry moves to a later stage or stays |
| Nodes.Node.SaveToDatastore | node/utils.go:450-462 | the logged request is stored under the given phase |
| Nodes.Node.AllStored | node/utils.go:471-483 | all stored entries from 1 on, ascending, gaps skipped |
| Nodes.Node.Admit | node/rpc.go:19-74 | a dead or view-changing node ignores a request, as it does one without the client's signature; the leader handles it under the number it was logged with and every other node forwards it to the leader |
| Nodes.Node.TryLocks | node/operations.go:25-49 | a first-phase run is busy exactly while one of its locks is held and refused exactly if the locks are free and the debited balance is too low, and holds both locks if it is ready; a commit or abort is ready at once, whatever is locked, and leaves the database alone |
| Nodes.Node.Number | node/operations.go:51-90 | a new request is proposed at the next number, an old one is logged afresh under its own |
| Nodes.Node.CheckMessage | node/rpc.go:88-160 | a pre-prepare passes exactly if the node is live, digest and signatures are right and the protocol may accept it |
| Nodes.Node.AcceptMessage | node/rpc.go:162-184 | a first-phase pre-prepare waits exactly while one of its locks is held and then takes them, a commit or abort is accepted at once; accepting is the replica's accept step with a fresh log entry and the vote of the node |
| Nodes.Node.VerifyVote | node/utils.go:149-184 | a vote is passed on exactly if it is verified and for the digest of the log, the empty digest if nothing is logged |
| Nodes.Node.HandOutPrepares | node/rpc.go:187-245 | a leader that is live, not Byzantine and not changing views answers with the very list of prepares it has collected for the number, exactly if it holds 2f |
| Nodes.Node.HandOutCommits | node/rpc.go:247-301 | a leader that is live and not changing views answers with the very list of commits it has collected, exactly if it holds 2f+1 |
| Nodes.Node.ValidatePrepares | node/operations.go:325-338 | succeeds exactly on 2f counted prepares and then marks the entry prepared |
| Nodes.Node.ValidateCommits | node/operations.go:340-364 | succeeds exactly on 2f+1 counted commits, and then commits, logs a prepare for undo and stores the entry |
| Nodes.Node.PrepareReply | node/operations.go:258-273 | a backup votes to commit exactly if 2f of the leader's prepares are verified and for the digest of a logged entry, and keeps those, or else the list as it came |
| Nodes.Node.FinishRun | node/operations.go:98-119 | the leader's run ends with the request committed and logged exactly if both counts are reached, and else with its locks released and nothing stored; the prepares and commits that counted are what it keeps to hand out; a Byzantine leader marks and stores nothing and keeps the locks only if its counts suffice |
| Nodes.Node.ValidateCoordinator | node/rpc.go:491-528 | the participant's check succeeds exactly on a verified client and 2f+1 positions of the list with verified commits for the request's digest |
| Nodes.Node.UndoWal | node/utils.go:485-502 | the reverse of every logged transfer is applied in order, and nothing if there is no log |
| Nodes.Node.ExecuteEntry | node/node.go:306-321 | executing an entry moves money and releases locks as the ledger's specification says |
| Nodes.Node.Executor | node/node.go:260-279 | executes exactly the stored entries up to the first missing number, one after the other, and marks in the log exactly those that are not prepares |
| Nodes.Node.SendViewChange | node/operations.go:480-534 | a live node leaves for a later view it has not asked for yet, reports exactly the numbers it has prepared with the digests of their pre-prepares, in order, and keeps its own message with those it has received |
| Nodes.Node.SendNewView | node/operations.go:536-646 | the new leader, once per view, adopts it and goes on where its list ends; as long as no two reports for one number differ, the list holds every number the view changes report with its digest |
| Nodes.Node.ReceiveNewView | node/rpc.go:343-393 | a replica adopts a new view exactly if it is verified and at least 2f+1 of its view changes have a right signature, and goes on after the last entry of its list, whatever its own number was |
| Nodes.Node.ReceiveViewChange | node/rpc.go:316-341 | a verified view change is kept, and no other; a live node joins at the f+1st and the leader of the view that is left starts the new one from the 2f+1st on |
| Nodes.Node.ValidateChanges | node/operations.go:648-689 | succeeds exactly if at least 2f+1 of the view changes have a right signature |

## Left out

- Consensus.Enabled: a faulty leader's second pre-prepare for a number with the same digest and another phase is not modelled; a non-faulty leader never sends one.
- Consensus.Enabled: the executor's update of a log entry to "executed" (node/node.go:267) is in the class `Nodes.Node` only; after a view change it can mark an entry of a later view.
- ViewChanges.NoReuse: requires the two checks that the code lacks and runs without retransmission; `Renumbering.ExactCondition` shows that without the checks it fails in every group with a faulty replica.
- SingleView.Ladder: the stage of the log entry is stated for runs without retransmission, since a retransmission sets it back to pre-prepared (node/node.go:225-232); the quorums behind the entry are stated for all runs by `AllViews.Ladder`.
- AllViews.GapFree: replicas that never propose; a leader can leave a gap where its view starts, since it numbers from the end of the new view's list.
- EndToEnd.NoReplicaNegative: with resubmissions it requires harmless failures. The converse is for failures after which the amounts collide (`Overdraft.Collides`); a failure that is not harmless but whose debits fit the account together does no damage, and no condition is given that is met by exactly the damaging failures.
- Serialisability.Serialisable: runs in which a numbered consensus run fails are not serialised; a failed run leaves a gap that stops the executor.
- EndToEnd.ReplicaAgreement: non-faulty leaders and a single view; the locks of backups only delay them and are not part of their books.
- Credit.CreditImpliesDebit: the participant's leader that pre-prepared the credit has to be non-faulty, since the check is its alone, and the certificate holds one vote per signer of the coordinator's replicas; without that the count proves nothing (`Certificates.RepeatedSigner`).
- Coordinators.RunCrossShard: the outcomes of runs and calls are parameters, and the handler ends when the list of answers does; the source resends without bound.
- Nodes.Node.AcceptMessage: one attempt of the loop that waits for locks; what other handlers do between two attempts is the next call's starting state.
- Nodes.Node.Executor: stops where the source starts to wait for the next entry.
- Coupling.ExecuteAtLeader: after a retransmission or a view change the executor can mark an entry as executed that has been logged afresh; the protocol's state does not show that mark, so then only database and executor are said to agree.
- Coupling.ExecuteAtBackup: the same for backups.
- Coupling.ReceivePrePrepare: a second pre-prepare for a number in the same view that differs only in its phase, which only a faulty leader sends, is no step of the protocol.
- Coupling.ReceiveView: a replica that becomes the leader has no commit lists left from earlier views; the code keeps them, and would hand them out for the same number until the new run ends.
- Nodes.Node.ValidateCommits: that the write-ahead log is written before the datastore is visible in the method's body, not in its contract.
- Integers are unbounded: the wrap-around of 64-bit balances and sequence numbers is not modelled.
- Garbage collection and checkpoints, which no node sends: the last stable checkpoint is 0.
- The executor's rewind on a new view, whose matching restore of balances is commented out: the ledger's guarantees are for one view.
- Cross-shard retransmission, whose request log keeps only the latest phase's number.
- Liveness: lock waits can deadlock, and a failed run stops the executor until its gap is filled.
- Transport, keys and hashing, crash recovery, the client gateway and its routing, reply counting, menus and file reading.
