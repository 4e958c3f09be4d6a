# Monitoring hub: a verified model

A Dafny 4.11 model of the parts of the monitoring hub where several processes, tables or functions have to agree with
each other: the fingerprint cache in front of every alert number, the alert rollup itself, the migration tracker, leader
election, the weekly digest, environment resolution and suggestions, access scopes and group inheritance, chart
bucketing, topology sync, the connection pool's leak guard, and alert thresholds. Code that changes things step by step
is modelled by classes and loops proved against a specification; what several processes do at once is modelled as a
state machine in which any step may follow any other and a process may die between any two of its steps. The theorems
are about all inputs, all reachable states or all runs.

`dafny verify dfyconfig.toml` checks everything.

| file | what it models |
|---|---|
| `AlertCache.dfy` | the cache object, and any number of workers, threads and writers interleaved around it |
| `AlertFingerprint.dfy` | the fingerprint query and the changes it cannot see |
| `AlertRules.dfy` | alert states in SQL's three-valued logic |
| `AlertRollup.dfy`, `AlertConsistency.dfy` | the rollup loop, its declarative meaning, the health ring |
| `SqlSplitter.dfy`, `Migrations.dfy`, `MigrationRuns.dfy` | splitting a migration file, the commands, runs cut short anywhere |
| `LeaderElection.dfy` | the named lock, the loop without a probe and the probing one, any number of workers |
| `EnvDigest.dfy` | claim, send, record, interleaved with crashes |
| `EnvironmentClassifier.dfy`, `EnvironmentSuggestions.dfy` | the resolver over an arbitrary attachment graph, the suggestion index |
| `AccessScope.dfy`, `OrgGroups.dfy`, `Delegation.dfy` | what a grant means, the escalation gate, the group tree, runs of delegation |
| `MetricDisplay.dfy` | window and bucket sizes, bucketing, a whole response |
| `TopologySync.dfy` | the edge table and its sync |
| `DbPool.dfy` | checkouts, the leak guard, the cursor context manager |
| `ThresholdCoverage.dfy`, `ThresholdLimits.dfy` | coverage and the placeholder upgrade, learned limits |
| `Options.dfy`, `Text.dfy` | `Option`; stripping and lower-casing |

Where the code and its own comments disagree the model follows the code, and a lemma shows the difference:

- `alerts_fingerprint` is documented as changing whenever an open alert does (app/alert_cache.py:47-49). The
  evaluator's refresh of `last_seen_at` makes a stale alert firing again and leaves it as it is
  (`AlertFingerprint.RefreshIsServedStale`); two writes that take one alert down from CRITICAL and another up to it
  bring it back (`AlertFingerprint.SwapIsServedStale`); a write to the accounts is not read at all
  (`AlertFingerprint.AccountWriteIsServedStale`). `AlertFingerprint.OneRowHistoryExactly` and
  `AlertFingerprint.AccountWriteExactly` say exactly which updates are safe.
- The embedded leader loop is documented as running `start_fn` in exactly one worker
  (apply_db_pool_leak_and_leader_election_fix.py:138-143). That takes two hypotheses, and neither can be spared at any
  step of any run (`LeaderElection.KeptExactly`; concrete runs are `LeaderElection.SessionLossBreaksIt` and
  `LeaderElection.RaisingStartBreaksIt`).
- Siblings that disagree are documented as giving no suggestion (app/environment_classifier.py:451-452). A basis whose
  siblings disagree is passed over, and another basis still decides
  (`EnvironmentSuggestions.SplitSiblingsStillSuggest`).
- `get_accessible_regions_for_account` does not look at the cloud of a grant
  (apply_org_group_rbac.py:539-545). Beside an AWS grant for one region, an Azure grant opens every region of the AWS
  account (`AccessScope.AzureWildcardShowsAwsRegions`); `AccessScope.RegionsExactlyWhen` says exactly when the answer
  is right.
- The unique key of an edge joins its parts with `:`, which identifiers may contain
  (db/migrations/021_resource_relationships.sql:53-57). `TopologySync.KeysCanCoincide` shows two edges with one key,
  and `TopologySync.SyncedExactlyWhenUnambiguous` says exactly when a call leaves the edges it was given.
- `widen_window_hours` is documented as answering None when the metric has no point (app/metric_display.py:312-313).
  It also does so when no longer window than the one requested is allowed (`MetricDisplay.NoWindowExactlyWhen`).
- A placeholder threshold switched to dynamic is counted as alerting by the coverage page and treated as anomaly-only
  by the evaluator (`ThresholdCoverage.AlertingMeansALineExactly`).
- The limit shown for a '>=' line at the size floor is a breach on a reading of exactly the floor, where the evaluator
  sees none (`ThresholdLimits.ShownLimitAgreesExactly`).

## Model

| member | source | states |
|---|---|---|
| AlertCache.FingerprintCache.Clear | app/alert_cache.py:75-77 | the entry is empty afterwards, so the next call misses |
| AlertCache.FingerprintCache.Get | app/alert_cache.py:79-92 | one uninterrupted call: a hit answers the entry and changes nothing; a miss stores what was computed under the fingerprint read before computing; a compute that raises stores nothing |
| AlertCache.FaithfulRunsAreLinearizable | app/alert_cache.py:63-92 | in every interleaving of calls, stores, clears, writes and clock ticks over any number of workers, if the history of the database is faithful (between two versions with one fingerprint nothing else was rolled up), each finished call with a readable fingerprint answers the rollup of a version between its fingerprint read and its return |
| AlertCache.LinearizableExactlyWhenFaithful | app/alert_cache.py:63-92 | a history of versions is safe for every schedule exactly when it is faithful |
| AlertCache.NoReturnIsFaithful | app/alert_cache.py:64-66 | a history in which a fingerprint value never comes back after changing, and equal fingerprints mean equal rollups, is faithful |
| AlertCache.StaleScheduleAnswersWrongly | app/alert_cache.py:79-92 | the fingerprint goes A, B, A: a value computed in the middle is stored under A and answered to a call made entirely afterwards |
| AlertCache.AnswersAreYoungerThanTtl | app/alert_cache.py:84-88 | even when the fingerprint could not be read, an answer was stored less than the TTL before the caller's clock reading and was taken from the database no later than stored |
| AlertCache.QuietCallsAgree | app/alert_cache.py:99-116 | two finished calls on any workers whose windows saw no write give the same answer |
| AlertFingerprint.OneRowUpdateIsSeenExactly | app/alert_cache.py:30-44 | in any table, an update of one row changes the fingerprint exactly when it changes the row's own share of the eleven aggregates |
| AlertFingerprint.InsertIsSeen | app/alert_cache.py:30-44 | opening or removing an alert always changes the fingerprint |
| AlertFingerprint.WhatAnUnseenUpdateCanChange | app/alert_cache.py:46-60 | an update the fingerprint misses but the rollup counts differently, as another kind or under another resource or service, moves the severity below CRITICAL, touches the freshness timestamps or moves the alert to another resource |
| AlertFingerprint.RollupSeesExactlyTheKind | app/alert_rules.py:370-406 | whatever the other rows are, updating one open alert on its resource changes the rollup exactly when it changes the kind the alert is counted as |
| AlertFingerprint.OneRowHistoryExactly | app/alert_cache.py:46-60 | in any table, the cache answers rightly under every schedule over one update of one open alert if and only if the update changes the alert's own share of the eleven aggregates or leaves the kind it is counted as |
| AlertFingerprint.RefreshIsServedStale | app/collector/alert_evaluator.py:908-922 | refreshing last_seen_at of a stale alert makes it firing, and whatever else the table holds the concrete cache over the concrete rollup can answer a call made entirely afterwards with the old rollup |
| AlertFingerprint.SwapKeepsTheFingerprintExactly | app/collector/alert_evaluator.py:949-988 | in any table, when the evaluator takes one alert from CRITICAL to WARNING and another up to CRITICAL, the fingerprint comes back exactly when the second was active and not acknowledged |
| AlertFingerprint.SwapIsServedStale | app/collector/alert_evaluator.py:949-988 | and when they belong to different services and the first was firing, a call made entirely after both writes can be answered with the rollup from before both, though each write changes the fingerprint |
| AlertFingerprint.AccountWriteExactly | app/alert_rules.py:273-283 | in any table, the cache answers rightly under every schedule over a write that switches accounts on or off (one that leaves the alerts alone, as at app/api/admin/accounts.py:366-369) if and only if no open alert belongs to a switched account |
| AlertFingerprint.AccountWriteIsServedStale | app/alert_rules.py:273-283 | otherwise a call made entirely after the write can be answered with the rollup from before it |
| AlertRules.FiringWhereExactly | app/alert_rules.py:244-297 | for every row, NULLs included: the WHERE fragment is TRUE exactly when the CASE says firing and the row is active with a silenced flag and a timestamp |
| AlertRules.FiringWhereIsFiring | app/alert_rules.py:290-297 | on rows with a known status, a silenced flag and a timestamp the two definitions of firing coincide |
| AlertRules.FiringWhereOnStoredRows | app/alert_rules.py:290-297 | on every row the table's NOT NULL columns allow, they coincide exactly when the status is one of the three the application writes or the row is suppressed |
| AlertRules.UnchangedRowOnlyAges | app/alert_rules.py:261-270 | while its row is unchanged an alert only moves from suppressed to firing to stale |
| AlertRollup.ComputeRollup | app/alert_rules.py:370-406 | the loop that fills three dictionaries of counters computes the declarative rollup: every number is a count of rows with its key and kind, every resource number the size of a set of ids |
| AlertConsistency.ServicesAddUp | app/alert_rules.py:370-399 | each of an account's six counters is the sum over its services |
| AlertConsistency.ResourcesAddUp | app/alert_rules.py:370-406 | and the sum over its resources |
| AlertConsistency.ResourcesAffectedAreTheFiringOnes | app/alert_rules.py:346-367 | resources_affected, critical_resources and warning_resources are the numbers of the account's resources whose own entry counts a firing, CRITICAL or WARNING row |
| AlertConsistency.RollupIgnoresOrder | app/alert_rules.py:370-406 | everything but a resource's service field is the same for any order of the rows |
| AlertConsistency.JoinedRollupIgnoresOrder | app/alert_rules.py:312-335 | for rows that come out of the join, one type a resource, the whole rollup is |
| AlertConsistency.ServiceDependsOnOrder | app/alert_rules.py:382-385 | without that the service field depends on which row came first |
| AlertConsistency.ServiceRing | app/alert_rules.py:410-446 | the loop's ring: critical and warning services by their counters, totals over the union with the active ones |
| AlertConsistency.RingPartitions | app/alert_rules.py:438-442 | critical and warning lists are disjoint and healthy is what is left, never negative, for any set of active services |
| AlertConsistency.RingShowsExactlyTheFiring | app/alert_rules.py:416-423 | rollup and ring composed: a service is critical exactly when a row of it is firing at CRITICAL, warning exactly when none is and one fires at WARNING |
| AlertConsistency.NoFiringRowIsHidden | app/alert_rules.py:419-423 | a firing CRITICAL row puts its service in the critical list, a firing WARNING row in one of the two |
| SqlSplitter.StatementsArePlain | migrate.py:184-206 | whatever the file holds, every statement is trimmed, non-empty and free of `;` and `--` |
| SqlSplitter.SplitUndoesJoinExactly | migrate.py:184-206 | splitting undoes joining with `;` exactly for lists of plain statements |
| SqlSplitter.SplitUndoesPrint | migrate.py:184-206 | also with arbitrary blank statements, white space and line comments, which may hold `;`, around them |
| Migrations.FindNumberCollisions | migrate.py:147-153 | the grouping loop returns each number used by more than one file with its files in order |
| Migrations.RefusedExactlyOnCollision | migrate.py:319-325 | all-pending is refused exactly when two listed files carry one number |
| Migrations.Database.Apply | migrate.py:209-273 | one apply cut short after any number of steps, in a session that may hold variables from earlier files, leaves the specified schema, records, log and variables; whether a statement commits itself depends on the database and the session it runs in |
| Migrations.Database.ApplyAll | migrate.py:313-342 | the pending files one after another, in listing order, until one fails or the process dies |
| Migrations.Database.BaselineAll | migrate.py:156-181 | all chosen files are recorded without running, or none is |
| Migrations.Database.BootstrapAll | migrate.py:293-310 | baseline of the covered files, then all pending |
| MigrationRuns.ExecuteKeepsAPrefix | migrate.py:259-271 | what is durable when a file is cut short is some beginning of it, one whose last statement committed or whose next one failed and committed, what the session sees a longer one |
| MigrationRuns.InterruptedRunsReachTheCleanState | migrate.py:313-342 | any number of all-pending runs cut short anywhere, then one that completes, leave the schema and the records of one clean run, if each pending file, cut short on the schema a clean run of the files before it gives, still ends where it would have when run in full, whatever variables the session holds |
| MigrationRuns.AbsorbingFilesAreReplayable | migrate.py:244-254 | which holds on every database for files that absorb replay of their own beginnings and set session variables before they read them |
| MigrationRuns.InterruptedRunsCanFinish | migrate.py:313-342 | and if a clean run would complete, some run after the interrupted ones does |
| MigrationRuns.ResumableExactlyWhenAbsorbed | migrate.py:235-271 | for any file on a given database, every way of cutting apply short is made good by applying it again exactly when the file absorbs, there, those of its beginnings that can outlast the process |
| MigrationRuns.DdlKeepsEveryBeginning | migrate.py:236-238 | and in a file whose statements all commit these are all its beginnings |
| MigrationRuns.ScriptRecordsAreTrue | migrate.py:259-267 | over every sequence of commands cut short anywhere, a file recorded as `script` has had all its statements executed in order, and records are never dropped or changed |
| MigrationRuns.BootstrapExecutesTheRest | migrate.py:293-310 | whatever the files do, a completed bootstrap, of a fresh database or again, leaves nothing pending, keeps every earlier record, and of the files it records only the covered ones have not been executed |
| LeaderElection.LockServer.GetLock | apply_db_pool_leak_and_leader_election_fix.py:126-134 | a session gets the lock exactly when it is free or already its own; a dead session's query raises |
| LeaderElection.Loop.Iterate | apply_db_pool_leak_and_leader_election_fix.py:146-185 | one pass of the loop, with and without the probe, including connection failures and a raising start_fn |
| LeaderElection.PassIsFourActions | apply_db_pool_leak_and_leader_election_fix.py:146-185 | a pass is the sequence of four actions that the interleaved system runs one by one |
| LeaderElection.CollectorsRunOnce | apply_db_pool_leak_and_leader_election_fix.py:137-185 | in every run where live started processes keep their session and start_fn does not raise, a started process holds the lock, at most one live process has called start_fn, and none calls it twice |
| LeaderElection.KeptExactly | apply_db_pool_leak_and_leader_election_fix.py:146-185 | in any state such runs reach, a step keeps the two hypotheses if and only if every such run that goes on from it has one leader, the holder of the lock, started once |
| LeaderElection.RaisedStartsAgain | apply_db_pool_leak_and_leader_election_fix.py:158-159 | from any such state a start_fn that raises goes on to a second start in the same process |
| LeaderElection.SessionLossMakesTwoLeaders | apply_db_pool_leak_and_leader_election_fix.py:151-165 | from any such state with a leader and another live worker, losing the leader's session goes on to two leaders |
| LeaderElection.SurvivorTakesOver | apply_db_pool_leak_and_leader_election_fix.py:166-170 | when the leader dies the lock is free and the next poll of any survivor acquires it, or the one after when the survivor has lost its own session too |
| LeaderElection.SessionLossBreaksIt | apply_db_pool_leak_and_leader_election_fix.py:151-165 | a run in which a silently lost session leaves two leaders |
| LeaderElection.RaisingStartBreaksIt | apply_db_pool_leak_and_leader_election_fix.py:158-159 | a run in which one process starts its collectors twice |
| LeaderElection.OverlapMeansALostSession | app/collector/leader.py:148-217 | the probing loop, in every run whatever fails: of two processes told to collect one has lost its session |
| LeaderElection.NextPollStopsAStaleLeader | app/collector/leader.py:184-201 | and that one's next poll tells its collectors to stop |
| LeaderElection.PollKeepsTheTrueLeader | app/collector/leader.py:173-189 | a poll never disturbs a leader that holds the lock |
| LeaderElection.ProbeEndsTheOverlap | app/collector/leader.py:173-189 | the run that breaks the unprobed loop is over after the old leader's next poll |
| EnvDigest.DigestLog.InsertIgnore | app/env_digest.py:173-177 | the row is claimed exactly when the account has none for the week |
| EnvDigest.DigestLog.SendWeeklyDigest | app/env_digest.py:157-209 | one undisturbed run handles the plan's accounts in order: skipped, taken by another, no recipients, sent or failed |
| EnvDigest.ResultsAreTheNewRows | app/env_digest.py:157-209 | such a run keeps every earlier row, and the statuses it returns are exactly those of the rows it adds |
| EnvDigest.UndisturbedRunIsTheLoop | app/env_digest.py:157-209 | the state machine's claim, deliver and record of each row in turn, with nothing in between, leave the rows that loop leaves |
| EnvDigest.SentAtMostOnce | app/env_digest.py:157-209 | over every interleaving of runs with crashes between any two steps, at most one delivery for an account and week, and what is recorded as sent was sent |
| EnvDigest.SafePlansSendDisjointDigests | app/env_digest.py:96-113 | in every run, with crashes, in which each plan repeats no item that an unfinished run of another week still has to send for the same account, the digests recorded as sent for one account list pairwise disjoint items |
| EnvDigest.PlanIsSafeExactly | app/env_digest.py:96-113 | in any state such runs reach, that condition on a plan holds if and only if no such run going on from it records two digests with a common item as sent for one account |
| EnvDigest.SentDigestsAreDisjoint | app/env_digest.py:96-113 | so they are disjoint when runs of different weeks do not overlap |
| EnvDigest.OverlapRepeatsAnItem | app/env_digest.py:99-101 | two overlapping runs, planned seconds apart on either side of the end of a week, that send one item twice |
| EnvDigest.NeverNewAgain | app/env_digest.py:99-111 | over every run in which weeks do not overlap: a resource that appears between a digest's plan and its row, once the digest is recorded as sent, is listed by no delivery of the account, earlier or later |
| EnvDigest.DiscoveredTooLate | app/env_digest.py:173-177 | a run in which a resource appears just then |
| EnvDigest.NeverListedLater | app/env_digest.py:99-119 | over every run in which weeks do not overlap: once a digest is recorded as sent, no delivery planned later lists a resource of the account that is no newer than its row, listed by it or not |
| EnvDigest.CutOffForGood | app/env_digest.py:117-119 | a run in which the 201st new resource is left out in that way |
| EnvironmentClassifier.PriorityExactly | app/environment_classifier.py:186-220 | exactly when each source decides and exactly when none does: a person, then a tag (the first listed key that names one environment), then the name or id, then unanimous attachments, then the account default for a resource about which name, id and attachments say nothing at all; otherwise it is unplaced |
| EnvironmentClassifier.TagsSayExactly | app/environment_classifier.py:142-153 | the tag scan answers t exactly when some listed key names t and no earlier one names anything |
| EnvironmentClassifier.UnplacedIsProd | app/environment_classifier.py:220 | an unplaced resource is PROD |
| EnvironmentClassifier.OwnEvidenceIgnoresRelated | app/environment_classifier.py:172-184 | a decision that may be passed on is the same with any attachments |
| EnvironmentClassifier.InheritedIsUnanimous | app/environment_classifier.py:172-184 | an inherited environment is that of every attached resource with evidence of its own, and there is one |
| EnvironmentClassifier.ConflictNeverTakesTheDefault | app/environment_classifier.py:201-213 | a resource whose name contradicts itself is inherited or unplaced, never placed by the account default |
| EnvironmentClassifier.OrderOfParentsIsIrrelevant | app/environment_classifier.py:172-184 | only which decisions the usable attachments carry matters |
| EnvironmentClassifier.ClassifyRows | app/collector/env_sync.py:132-150 | the loops compute a two-pass labelling, which is the one consistent labelling of the graph |
| EnvironmentClassifier.ExactlyOneConsistentLabelling | app/collector/env_sync.py:132-150 | for an arbitrary attachment graph, cycles included, a labelling is consistent with the resolver exactly when it is the two-pass result |
| EnvironmentClassifier.InheritanceIsOneStep | app/environment_classifier.py:47-49 | a label depends on the row and its parents' own evidence only, whatever else two graphs contain |
| EnvironmentClassifier.SelfAttachmentAddsNothing | app/collector/env_sync.py:137-139 | a labelling of a graph is consistent with self-attachments dropped exactly when it is with them kept |
| EnvironmentSuggestions.Vote | app/environment_classifier.py:501-511 | the two loops compute the environment all candidates agree on and the number of evidence units |
| EnvironmentSuggestions.SuggestionIndex.constructor | app/environment_classifier.py:527-543 | the three dictionaries hold exactly the siblings with evidence of their own, under each of their keys |
| EnvironmentSuggestions.SuggestionIndex.Suggest | app/environment_classifier.py:550-593 | the indexed answer is the answer of a direct filter-and-vote scan over all siblings |
| EnvironmentSuggestions.SuggestionIsUnanimous | app/environment_classifier.py:550-593 | everything behind the winning basis has the suggested environment by its own evidence and is not the target, whose name does not speak only for the other environment |
| EnvironmentSuggestions.SuggestedExactlyWhen | app/environment_classifier.py:582-593 | an environment is suggested exactly when some basis points at it, none points elsewhere and the target's own name does not contradict it |
| EnvironmentSuggestions.SplitSiblingsStillSuggest | app/environment_classifier.py:451-452 | a split basis does not stop another from deciding |
| EnvironmentSuggestions.HighNeedsTwoPieces | app/environment_classifier.py:556-587 | high confidence rests on two pieces of evidence or on two bases |
| EnvironmentSuggestions.OrderOfSiblingsIsIrrelevant | app/environment_classifier.py:596-604 | reordering or repeating siblings changes nothing |
| EnvironmentSuggestions.VolumeIsNoSecondVote | app/environment_classifier.py:494-498 | a volume beside its instance changes nothing a basis finds |
| AccessScope.CoveringIsContainment | apply_org_group_rbac.py:557-593 | one grant covers a request exactly when it permits every access the request permits |
| AccessScope.GateExactly | apply_org_group_rbac.py:596-611 | the gate accepts exactly the non-empty lists of requests each of which lies inside one grant |
| AccessScope.GateIsSound | apply_org_group_rbac.py:596-611 | what passes permits nothing the actor's scope does not |
| AccessScope.GateIsNotComplete | apply_org_group_rbac.py:597-604 | a request contained in two grants together does not pass |
| AccessScope.GateIsTransitive | apply_org_group_rbac.py:596-611 | passing the gate is transitive |
| AccessScope.ChainStaysInside | apply_org_group_rbac.py:596-611 | every link of a chain of passed grants stays inside the first granter's scope |
| AccessScope.AccountIdsExactly | apply_org_group_rbac.py:495-522 | no account in which the scope permits something is hidden, and the answer is right about an account exactly when it is not the case that a grant names it under another cloud while no grant of its own cloud applies to it |
| AccessScope.PlacedGrantsShowWhatTheyReach | apply_org_group_rbac.py:614-637 | so with grants that name accounts of their own cloud, as are stored, an account is shown exactly when the scope permits some access in it |
| AccessScope.AccessibleRegions | apply_org_group_rbac.py:525-547 | the region loop computes the union of the applying grants' regions, or no restriction |
| AccessScope.RegionsNeverHide | apply_org_group_rbac.py:525-547 | no region the scope reaches in the account is hidden |
| AccessScope.RegionsExactlyWhen | apply_org_group_rbac.py:539-545 | the answer is exact exactly when grants of other clouds that the account picks up add nothing |
| AccessScope.AzureWildcardShowsAwsRegions | apply_org_group_rbac.py:539-545 | an AWS grant for one region beside an Azure grant without regions: the AWS account is shown every region and reached in one |
| OrgGroups.GetGroupChain | apply_org_group_rbac.py:319-340 | the loop ends on arbitrary, also cyclic, parent links and follows them |
| OrgGroups.WalkFollowsParents | apply_org_group_rbac.py:332-340 | on arbitrary links: no group twice, each followed by its parent, the walk stops only where no new known parent is left |
| OrgGroups.ChainExactly | apply_org_group_rbac.py:319-330 | in a forest the chain of an L1, L2, L3 group has one, two, three groups, one of each level up to an L1 |
| OrgGroups.ValidatedExactly | apply_org_group_rbac.py:393-424 | a request is accepted exactly when the group it asks for would have its place in the hierarchy |
| OrgGroups.HierarchyStaysAForest | apply_org_group_rbac.py:852-935 | over every interleaving of creations (validate, then insert) and deletions (check, then delete) the links form such a forest |
| OrgGroups.GroupTable.CreateGroup | apply_org_group_rbac.py:852-892 | a group is created exactly when name, level and parent are acceptable, and the forest is kept |
| OrgGroups.GroupTable.DeleteGroup | apply_org_group_rbac.py:906-937 | a group with children is refused; otherwise it goes with its policies and memberships |
| OrgGroups.GroupTable.GetEffectiveScope | apply_org_group_rbac.py:434-492 | the loops compute the own grants and the policies of every group on a chain of a direct membership |
| OrgGroups.EffectiveGrantsExactly | apply_org_group_rbac.py:434-492 | a grant is effective exactly when it is the user's own or a policy of a direct group or of one above it |
| OrgGroups.ChildHasParentsGrants | apply_org_group_rbac.py:434-446 | a member of a child group has every group grant a member of its parent has |
| Delegation.NothingIsGainedByDelegation | app/api/admin/users.py:109-150 | over every run of grants by administrators and others, revocations and reorganizations, every effective grant lies inside one grant an administrator made |
| MetricDisplay.BucketSecondsSuffices | app/metric_display.py:296-303 | the size chosen is a nice one and the smallest that suffices; a window fits into the target number of buckets exactly when it is no longer than that many days |
| MetricDisplay.Bucketize | app/metric_display.py:348-384 | the two loops compute the declarative buckets, or hand a malformed series back |
| MetricDisplay.BucketsPartition | app/metric_display.py:359-382 | keys strictly increase and the buckets stand for exactly the keys that have readings |
| MetricDisplay.KeyIsItsInterval | app/metric_display.py:366 | each reading lies in its own bucket's interval |
| MetricDisplay.BucketsConserve | app/metric_display.py:359-382 | counts and scaled sums are conserved |
| MetricDisplay.OneSideOneScale | app/metric_display.py:370 | readings before the cutover count at the legacy scale, the others at the current one |
| MetricDisplay.AverageIsBetween | app/metric_display.py:373-377 | minimum and maximum are readings that bound the bucket, the average lies between them, and so does the displayed value, the metric's own statistic or the average for a rate, unless it is a sum |
| MetricDisplay.AtMost501Buckets | app/metric_display.py:296-366 | readings inside the effective window give at most 501 buckets |
| MetricDisplay.ShapeResponse | app/metric_display.py:387-414 | every key of a response is kept and the four about its window are added, every well-formed series is cut for the same window and has at most 501 buckets |
| MetricDisplay.WidenedWindowIsLeast | app/metric_display.py:311-321 | the window offered is the smallest preset with two readings, else the smallest with one |
| MetricDisplay.NoWindowExactlyWhen | app/metric_display.py:311-321 | none is offered exactly when the longest window is empty or not longer than the requested one |
| TopologySync.EdgeTable.SyncAutoEdges | app/topology_sync.py:54-85 | a call whose statements all succeed leaves the specified table; whatever raises, the table is as before |
| TopologySync.UpsertExactly | app/topology_sync.py:60-66 | in any table, writing an edge keeps every row and leaves the edge or the manual row it repeats exactly when no different row has its key |
| TopologySync.SyncExactly | app/topology_sync.py:54-79 | the scope's auto edges are exactly the pairs that are not manual edges, and every other row is as it was, when keys are unambiguous |
| TopologySync.SyncedExactlyWhenUnambiguous | app/topology_sync.py:54-85 | in any table, whatever scopes it holds, a call leaves exactly that if and only if the stored rows and the pairs all have keys of their own |
| TopologySync.ColonFreeCallsAreSynced | app/topology_sync.py:54-85 | so every call does in tables whose source identifiers hold no ':' |
| TopologySync.SyncTwice | app/topology_sync.py:54-79 | repeating the call changes nothing |
| TopologySync.ColonFreeSourcesAreUnambiguous | db/migrations/021_resource_relationships.sql:53-57 | keys are unambiguous among edges whose source identifiers hold no ':' |
| TopologySync.KeysCanCoincide | db/migrations/021_resource_relationships.sql:53-57 | one pair whose key is another, manual edge's: the manual edge is overwritten and the pair is not stored |
| DbPool.SlotsAreConserved | app/db.py:64-95 | over every run of checkouts, repeated closes and finalizers, idle plus checked-out slots make up the pool, no slot is held twice and each checkout makes at most one real close |
| DbPool.SlotStaysWithItsHolder | app/db.py:68-76 | an issued slot stays with its checkout through any run that does not close or finalize that very checkout |
| DbPool.LeakIsRecovered | app/db.py:80-94 | a dropped checkout gets its slot back when its finalizer fires |
| DbPool.UnguardedCloseReleasesAnothersSlot | app/db.py:65-76 | without the guard a second close frees a slot issued to someone else |
| DbPool.ConnectionPool.GuardedClose | app/db.py:68-76 | the first close returns the slot, any later one changes nothing |
| DbPool.ConnectionPool.WithCursor | app/db.py:98-127 | every path returns the slot; writes last exactly when the body returned, a commit was asked for and it succeeded; exceptions go on |
| ThresholdCoverage.Coverage | app/threshold_coverage.py:69-92 | the loop's totals and per-service counts are the counts of rows by state, and the list is one change for each upgradable row |
| ThresholdCoverage.StatesAddUp | app/threshold_coverage.py:59-66 | the four states share the account's rows out among themselves |
| ThresholdCoverage.AlertingMeansALineExactly | app/threshold_coverage.py:59-66 | coverage and the evaluator's mode agree on an enabled row exactly when it is not a dynamic placeholder |
| ThresholdCoverage.ThresholdTable.UpgradePlaceholders | app/threshold_coverage.py:95-110 | undisturbed: exactly the upgradable rows get their default, the number applied is the number of rows changed, a dry run changes nothing |
| ThresholdCoverage.UpgradeMovesToAlerting | app/threshold_coverage.py:95-110 | no row is left upgradable, each that was is alerting, every other count is as it was |
| ThresholdCoverage.UpgradeTwice | app/threshold_coverage.py:95-110 | a second upgrade finds nothing to do |
| ThresholdCoverage.UpgradesOnlyFillPlaceholders | app/threshold_coverage.py:100-109 | over every interleaving with edits, additions and deletions, the table is the one the edits alone would have made, except that a row whose line is exactly the placeholder there may carry the default of its own metric instead |
| ThresholdCoverage.FlagsDoNotStopAnUpdate | app/threshold_coverage.py:100-109 | a row switched off, or to dynamic, between the snapshot and its update still gets its default and keeps its switches |
| ThresholdLimits.IntegerizeAgreesExactly | app/threshold_defaults.py:568-576 | the whole-number limit gives the raw limit's verdict on every integer reading exactly when no integer lies within 1e-9 on the side it is rounded over |
| ThresholdLimits.IntegerizeIsMonotone | app/threshold_defaults.py:568-576 | rounding never reverses two limits |
| ThresholdLimits.ClampedBoundsAreSafe | app/collector/alert_evaluator.py:273-304 | whatever the learned band, warning comes no later than critical and critical is never tighter than the configured one |
| ThresholdLimits.LimitsAreOrdered | app/threshold_effective.py:59-92 | for any evaluator and baseline, rounding and the size floor keep warning before critical |
| ThresholdLimits.ShownLimitAgreesExactly | app/threshold_effective.py:59-65 | the limit shown gives the evaluator's verdict except on a reading of exactly the floor against a '>=' line at or below it |
| ThresholdLimits.WholeLimitsKeepTheVerdict | app/threshold_effective.py:75-91 | a count metric's reading gets the verdict of the unrounded line |

## Left out

- The patch scripts themselves (file editing and backups), mysqldump and mysql calls, cloud SDKs, HTTP routes, audit
  rows, e-mail bodies and SMTP: I/O. Sending a digest is one step that may reach any number of recipients.
- Reason, label and warning strings, `detect_warning`, and the tag-compliance functions of
  app/environment_classifier.py: presentation, or easy repeats of the resolver's branches.
- The regular expressions that split names, tags and labels into words: parameters of the model (`Lexicon`).
- Character-set collation: the database compares statuses, names and keys here as exact strings, and upper- and
  lower-casing cover the ASCII letters.
- Rounding to six decimals, one decimal of a percentage, and floating-point error: readings and limits are reals.
- The per-class staleness windows of app/alert_rules.py:81-241: one number of minutes, given.
- The order of the ring's lists, of the upgrade list and of result sets without ORDER BY: sets, or the table's own
  order.
- That a finalizer ever fires: garbage collection is an event that may happen once the holder has dropped the object.
  That the garbage collector can collect a connection which its own closures refer to is not claimed.
- The TTL's exact share in active-to-stale changes, which change no row: `AlertCache` bounds the age of every answer
  and `AlertRules.UnchangedRowOnlyAges` says which changes these are.
- The learned bounds themselves (`_dynamic_bounds`, `_anomaly_only_bound`), the polling model, and the page cache of
  app/threshold_effective.py:119-171: parameters, or a plain time-to-live.
- A failing `reset` inside the connector's own close: the real close returns the slot.
- Two threads that close one connection object at the same instant: the flag's check and its setting are one step.
- v2 role bindings and permissions (app/auth/rbac.py), role changes and user deletion: `Delegation` follows scopes
  only.
- EnvDigest.SentDigestsAreDisjoint: needs the runs of different weeks not to overlap; the exact condition on each plan
  is `EnvDigest.PlanIsSafeExactly`.
- LeaderElection.CollectorsRunOnce: stated for runs that keep sessions and whose start_fn does not raise;
  `LeaderElection.KeptExactly` shows that neither can be spared.
- TopologySync.SyncExactly: assumes that no two of the edges involved share a key;
  `TopologySync.SyncedExactlyWhenUnambiguous` shows that this is exact.
