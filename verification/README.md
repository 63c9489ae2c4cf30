# Coordination logic of the PostgreSQL K8s charm

This project models how the units of a PostgreSQL charm, and the clusters they form, coordinate through
Juju databags and secrets, and proves what that coordination keeps. Four parts of the charm are covered.

**Databags.** A databag is a string map in which writing the empty string deletes the key
(`Databags.Update`). Every handler below is one atomic step on such maps. Handlers run one hook at a
time, in any order across units.

**Asynchronous replication between two clusters** (`CounterScan`, `PromotionCounters`, `Demotion`,
`DemotionRound`, `DemotionLife`, `DemotionElections`, `DemotionCarryOver`). Each cluster publishes a
promoted-cluster counter and the highest one names the primary. A cluster sees the other one's counter late:
in the model it may see any value the other side has published so far, and each unit's own view never goes
back. Inside a demoted cluster the units stop, empty their data folder, wait for each other at a barrier,
restart leader first (`LeaderRestartsFirst`), and the leader marks the cluster initialised again. A unit's record keeps, besides its
databag fields, the counter it saw at each wipe, so that statements about wipes can be made. A hook that
raises loses its databag writes, as in Juju, and a promotion runs the leader's handler within the same hook.
The Juju leader may change at any moment of a relation's life. Its leader-elected hook clears the initialised
flag when the leader annotation is missing, and its peer-relation-changed and pebble-ready hooks set the flag
again once the primary endpoint answers, unless it sees the other cluster as the primary. Four things about the
code came out of the proofs:

- Two clusters can hold the same positive counter exactly when the consumer side starts the relation in
  standalone read-only mode (`TiesNeedReadOnlyConsumer`).
- The barrier promises "stopped and wiped in this round" exactly when no unit enters the round already
  marked `stopped` (`BarrierHoldsIffNoCarryOver`), and such a left-over mark is reachable: a unit reacts to a
  demotion, its leader promotes the cluster again before running the demotion hook itself, and the next
  demotion finds the old mark (`CarryOverHappens`).
- What holds instead is that at each restart every unit is down with an emptied data folder or was restarted
  for this very counter (`RestartsAreSafe`), and that the initialised flag comes back only at the end of a round,
  when every unit runs on data restarted for the promoted counter, or in a leader that is not marked `stopped`
  and does not see the other cluster as the primary (`FlagReturnsOnlyWhenAllRestarted`). Both need that no
  change of leader is a marked one: one that makes a unit with the `stopped` mark leader while the cluster counts
  as initialised, or while that unit does not see the other cluster as the primary.
- That condition is exact. For every reachable state and every change of leader, the flag keeps its meaning in
  all continuations if and only if the change is not a marked one (`FlagStaysHonestIff`), and all later restarts
  are safe if and only if it is not, or some data folder is missing so that nothing ever restarts
  (`RestartsStaySafeIff`). A marked leader skips both the wipe and the clearing of the flag, so its cluster can
  be promoted in the middle of a demotion and demoted again with the leader's database of the earlier round, and
  such a round can end with the flag set (`ElectionLiftsFlagOnOldData`). A run up to a marked change of leader
  is given (`MarkedElectionHappens`).

**Rolling upgrade on Kubernetes** (`UpgradeHandlers`, `UpgradeRollout`, `UpgradeProgress`). Unit states and the
persisted stack in the upgrade relation, the cached stack that each call of the recursive handler pops in place,
the StatefulSet partition, and the pods. Kubernetes may replace a pod only if its ordinal is at least the
partition and it is still at the old revision. The runs allow leader changes, failures, and pre-upgrade-check or
resume-upgrade at any moment. A pod may be replaced only after every higher unit has had a healthy verdict of its own
(`HigherUnitsReportedHealthy`), and an unhealthy one freezes all lower pods (`UnhealthyUnitFreezesLower`). Two things
came out of the proofs:

- The persisted stack is always 0 .. k-1, and every unit at or above k has completed, with one exception: a leader
  in the middle of the order whose own partition patch fails right after its completion has popped it.
  `StackCoversUnlessOwnPatchFails` says that this is the only exception and `OwnPatchFailureHappens` reaches it.
- Without a failed unit, an upgrade can still be finished if and only if it is not resting between two units, at
  least two of them done, with the partition above the next one (`UpgradeFinishesUnlessStuck`). Exactly two
  actions bring this about, both while the upgrade so rests (`StuckByUntimelyActionOnly`): a repeated
  pre-upgrade-check, and a repeated resume-upgrade that comes before the leader has taken the second unit off the
  stack. Both are reachable (`UntimelyActionsHappen`).

**Data kept in two stores** (`SecretCache`, `RelationStore`, `PeerSecrets`, `SecretNames`). Relation fields
live in a plain databag or in one Juju secret per group of fields, read through a cache. Reads, updates and
deletions are proved to act on one plain map, also over whole runs (`Store.Replay`, `LastWriteWins`), with each
secret field in the secret that its label names and in no other. A
deletion of several fields removes exactly these fields if and only if they all sit in one secret, each listed
once, or none of the listed secret fields has a value (`DeleteIsExact`). The charm's own peer secrets add a
translated field name, a marker for deleted values and legacy plain copies in the databag; any sequence of set,
remove and get acts on a plain map (`Peer.Replay`, `LastValueWins`). A legacy plain copy is dropped by the
first set, but removing a key that still has one has no visible effect (`LegacyCopyStays`).

**Backups** (`S3Handshake`, `Timestamps`, `BackupLabels`, `Timelines`). The handshake by which leader and
primary initialise S3 through the application and unit databags, under any interleaving and with leader and
primary changing at any time. With no old answer around, a request stays pending until the application databag
holds the result of an attempt made after it, whatever the schedule (`RequestGetsOwnResult`), and it is settled
once the primary has made an attempt that ends and another leader has looked at its answer
(`RequestIsDelivered`). But a leader can adopt an answer left over from an earlier request: it adopts nothing old
if and only if no unit carries an answer, or the leader is the primary and settles the request itself
(`NothingOldIsAdoptedIff`). Credentials that change a second time before the primary's clean-up hook are enough
(`SecondRequestGetsFirstAnswer`), and so is a primary that becomes leader (`LeftoverIsAdopted`). Once every unit has
seen its credentials removed, nothing old is left to adopt (`RequestAfterRemoval`).

Then the labels of backups: a substring search by timestamp finds the right label although dependent backups
also carry their base's timestamp, and answers with another backup's label exactly when the id is only the base
of a listed backup (`WrongLabelWhenBaseHidden`). The restore action, the only caller of the search, asks for
ids of the listing only (`src/backups.py:1017`, `src/backups.py:1118`), so it always gets the right label
(`ListedIdIsFetched`). String order on the fixed-width ids is time order, so the greatest eligible string is
the nearest timeline.

Classes follow the handlers that write databags in sequence, and each of their methods states its whole new
state through a function of the old one; the lemmas are about those functions and about runs of them. Answers of
Juju, Patroni, Kubernetes, Pebble and S3 are parameters of the steps.

## Model

| member | source | states |
|---|---|---|
| CounterScan.HighestCounter | src/relations/async_replication.py:198-214 | the loop over relations and databags computes the greatest visible counter |
| CounterScan.PrimaryCluster | src/relations/async_replication.py:216-235 | the loop names the owner that the greatest-counter scan ends with |
| CounterScan.ScanFindsGreatest | src/relations/async_replication.py:198-235 | the scan ends with an upper bound of all counters; none is named exactly when it is 0, otherwise the first databag holding it |
| CounterScan.ScanIsViewOf | src/relations/async_replication.py:198-235 | with one relation both scans conclude: the greater counter wins, the remote side wins a positive tie, none when both are 0 |
| PromotionCounters.ReplicationSide.CanPromoteCluster | src/relations/async_replication.py:112-145 | promotion is allowed exactly when the other checks pass and this cluster is not the primary it sees |
| PromotionCounters.ReplicationSide.HandleReplicationChange | src/relations/async_replication.py:417-451 | a permitted promotion publishes the greatest visible counter plus one, anything else changes nothing |
| PromotionCounters.ReplicationSide.OnCreateReplication | src/relations/async_replication.py:556-573 | create-replication promotes only on the offer side and only when no primary is visible |
| PromotionCounters.ReplicationSide.OnPromoteToPrimary | src/relations/async_replication.py:575-590 | promote-to-primary needs a visible primary or the read-only status |
| PromotionCounters.ReplicationSide.SetAppStatus | src/relations/async_replication.py:674-688 | the status is read-only exactly while the peer counter is "0", otherwise active, primary or standby after the visible primary |
| PromotionCounters.WhoPromotes | src/relations/async_replication.py:112-145 | only the cluster behind promotes, only having seen the latest counter, and moves to n + 1 |
| PromotionCounters.SideBehindCanPromote | src/relations/async_replication.py:417-451 | after the first promotion the cluster behind can always promote with the other's latest counter in view |
| PromotionCounters.StepCounts | src/relations/async_replication.py:417-451 | every step under any stale view keeps "after n promotions" true of both counters and of everything published |
| PromotionCounters.RunCounts | src/relations/async_replication.py:417-451 | the same over whole runs |
| PromotionCounters.CountersAfterPromotions | src/relations/async_replication.py:198-235 | from a fresh relation, n promotions leave the counters at exactly n and n - 1 |
| PromotionCounters.OnlyOneMayPromote | src/relations/async_replication.py:112-145 | in every reachable state at most one side has a view with which it may promote |
| PromotionCounters.TiesNeedReadOnlyConsumer | src/relations/async_replication.py:409-415 | positive ties are unreachable if and only if the consumer side does not start read-only |
| PromotionCounters.LatestViewsAgree | src/relations/async_replication.py:674-688 | with both latest counters seen, both sides name the same cluster, and one shows Primary exactly when the other shows Standby |
| PromotionCounters.StatusMeans | src/relations/async_replication.py:674-688 | a cluster shows itself as the primary exactly when its counter is greater than the one it sees, as standby when it is not ahead of a positive one, read-only exactly at "0" |
| PromotionCounters.GreaterCounterShowsPrimary | src/relations/async_replication.py:674-688 | after any run, with the latest counters in view, the greater counter's side shows Primary and the other Standby |
| PromotionCounters.TwoPrimariesMeansStaleView | src/relations/async_replication.py:462-464 | if both name themselves, the smaller counter's side holds a stale view |
| Demotion.AsyncReplication.ConfigurePrimaryCluster | src/relations/async_replication.py:147-175 | the primary's units record the counter unless the leader still waits for its promotion |
| Demotion.AsyncReplication.StopDatabase | src/relations/async_replication.py:690-713 | stop, clear the flag, wipe and mark, with the early returns and the raised errors |
| Demotion.AsyncReplication.HandleDatabaseStart | src/relations/async_replication.py:340-382 | a started member loses its mark and records the counter; the leader sets the flag when all follow |
| Demotion.AsyncReplication.StartDatabase | src/relations/async_replication.py:532-537 | the service is started on the present data folder and the start is handled |
| Demotion.AsyncReplication.FollowPrimaryCluster | src/relations/async_replication.py:505-537 | stop, barrier, standby leader, container, start, in that order |
| Demotion.AsyncReplication.OnAsyncRelationChanged | src/relations/async_replication.py:487-537 | one whole run of the handler from the counters it sees |
| Demotion.AsyncReplication.OnPeerRelationChanged | src/charm.py:1048-1107 | the leader of a cluster that is not initialised sets the flag once the endpoint answers, unless it sees the other cluster as the primary |
| Demotion.Handled | src/relations/async_replication.py:487-537 | a run never touches the record of another unit, the membership or the leader |
| DemotionRound.NoCarryOverIsSafe | src/relations/async_replication.py:505-537 | if every past-barrier unit was wiped in the round, no start precedes a wipe in any continuation, whoever leads |
| DemotionRound.BarrierHoldsIffNoCarryOver | src/relations/async_replication.py:505-520 | whoever leads, all units are stopped and wiped in the round before any start, if and only if none entered it marked stopped |
| DemotionRound.BarrierStaysOpen | src/relations/async_replication.py:508-520 | an open barrier stays open for every unit while the counter is the same |
| DemotionRound.PrimaryOnlyRecords | src/relations/async_replication.py:147-175 | under its own cluster's promotion a unit only records the counter, the leader not before its promotion has gone through; without a primary it only looks |
| DemotionRound.FollowerIsLeftAlone | src/relations/async_replication.py:500-503 | a unit that already follows is left alone, the leader's record included |
| DemotionRound.OnlyLeaderClearsFlag | src/relations/async_replication.py:340-382 | the flag is cleared only by the leader, when it stops or its member has not started; a leader that stops clears it unless all others follow |
| DemotionRound.RecordsOnlyOnceStarted | src/relations/async_replication.py:340-382 | a unit loses its mark and records the counter only once asked to start and found started; a leader without its annotation clears the flag meanwhile |
| DemotionRound.DownUnitStartsIff | src/relations/async_replication.py:505-537 | a unit that is down starts if and only if its stop went through, all others are stopped or follow, the container answers, and a standby leader is up or it is the Juju leader |
| DemotionRound.WaitsForStandbyLeader | src/relations/async_replication.py:522-530 | without a standby leader another unit that is down stays down with its mark, and records nothing |
| DemotionRound.LeaderRestartsFirst | src/relations/async_replication.py:522-537 | in every run of a round with one leader, another unit has restarted data or has recorded the counter only while the leader runs on restarted data |
| DemotionRound.VisitNeverUndoes | src/relations/async_replication.py:487-537 | a run strictly lowers (units to stop, units to start, flag) or changes nothing |
| DemotionRound.SomeoneCanProgress | src/relations/async_replication.py:487-537 | every unfinished state has a unit whose run lowers that measure |
| DemotionRound.FourSweepsFinish | src/relations/async_replication.py:340-382 | four passes over all units, each in any order, end with all following and the flag set |
| DemotionLife.RestartsAreSafe | src/relations/async_replication.py:505-537 | in any life of a relation without a marked change of leader, at every restart each unit is emptied and down or restarted for this counter |
| DemotionLife.FlagReturnsOnlyWhenAllRestarted | src/charm.py:560-575 | in such a life the cleared flag returns with every unit restarted, running and recording the counter, or in an unmarked leader that does not see the other cluster as the primary |
| DemotionLife.StepOk | src/relations/async_replication.py:487-537 | every promotion, hook run, leader-elected hook, flag-setting hook and unmarked change of leader keeps the invariant |
| DemotionLife.ElectionOk | src/charm.py:872-906 | a change of leader keeps it unless the new leader is marked and the flag is set or it does not see the demotion |
| DemotionLife.LeaderHookOk | src/charm.py:1048-1107 | the hook that sets the flag keeps it, even with a stale view in the middle of a round |
| DemotionLife.FlagNeedsAll | src/relations/async_replication.py:350-363 | one run sets a cleared flag only with all units following |
| DemotionLife.WipeNeedsDemotion | src/relations/async_replication.py:690-713 | a wipe happens only while the other cluster is the visible primary and the unit is neither stopped nor following |
| DemotionLife.WipesRise | src/relations/async_replication.py:453-460 | every run keeps the counters seen at a unit's wipes strictly rising |
| DemotionLife.OneWipePerPromotion | src/relations/async_replication.py:690-713 | between two wipes of one unit the highest counter it sees has strictly risen |
| DemotionCarryOver.CarryOverHappens | src/relations/async_replication.py:417-451 | a reachable round whose barrier opens on a stopped mark of an earlier round, each promotion handled at once by the leader |
| DemotionElections.RestartsStaySafeIff | src/relations/async_replication.py:690-713 | after a change of leader every continuation restarts safely, if and only if the change is not marked or a data folder is missing |
| DemotionElections.FlagStaysHonestIff | src/charm.py:560-575 | after a change of leader the flag keeps its meaning in every continuation, if and only if the change is not marked |
| DemotionElections.MarkedElectionHappens | src/charm.py:872-906 | a marked change of leader is reachable with two units, and breaks both |
| DemotionElections.ElectionGoesStale | src/relations/async_replication.py:690-713 | a marked change with all data folders present leads to a leader holding the data of an earlier round at an open barrier |
| DemotionElections.ElectionLiftsFlagOnOldData | src/relations/async_replication.py:340-382 | from there a round can end and the flag return although the leader's database is of the earlier round |
| UpgradeHandlers.LowestIsFurthestBehind | lib/charms/data_platform_libs/v0/upgrade.py:636-653 | the cluster state is a present state, and none is further behind |
| UpgradeHandlers.DataUpgrade.UpgradeStack | lib/charms/data_platform_libs/v0/upgrade.py:572-593 | the cached list if there is one, otherwise the persisted one, cached unless empty |
| UpgradeHandlers.DataUpgrade.OnUpgradeChanged | lib/charms/data_platform_libs/v0/upgrade.py:944-1020 | the recursive handler terminates; cache and persisted stack differ by at most the top |
| UpgradeHandlers.DataUpgrade.PersistPopped | lib/charms/data_platform_libs/v0/upgrade.py:989-1000 | the leader persists the popped stack and the repeated handler ends as the chain on the whole stack would |
| UpgradeHandlers.LeaderDropsLongestCompletedSuffix | lib/charms/data_platform_libs/v0/upgrade.py:944-1000 | unless the cluster failed, the leader's chain leaves the stack without its longest completed suffix |
| UpgradeHandlers.GrantedIff | lib/charms/data_platform_libs/v0/upgrade.py:1002-1020 | the chain starts an upgrade in its own unit if and only if that unit waits on top of what is left of the stack and every unit is ready or completed |
| UpgradeHandlers.ChainTouchesOnlySelf | lib/charms/data_platform_libs/v0/upgrade.py:944-1020 | a chain changes at most its own unit's state, from ready to upgrading or from completed to idle with an empty stack, and only the leader's moves the stack |
| UpgradeHandlers.RepairedIff | lib/charms/data_platform_libs/v0/upgrade.py:699-721 | a repair changes the stack if and only if the leader runs it after a failure or in a rollback, the heights differ and some unit is missing |
| UpgradeHandlers.DataUpgrade.SetUnitFailed | lib/charms/data_platform_libs/v0/upgrade.py:723-739 | the unit fails and a leader forgets its cached stack |
| UpgradeHandlers.DataUpgrade.SetUnitCompleted | lib/charms/data_platform_libs/v0/upgrade.py:741-759 | completion, the leader's stack update, and the next partition unless first or last |
| UpgradeHandlers.DataUpgrade.OnPebbleReady | src/upgrade.py:97-151 | a replaced unit completes or fails once its database has started |
| UpgradeHandlers.DataUpgrade.OnUpgradeCharm | lib/charms/data_platform_libs/v0/upgrade.py:890-942 | without a stack nothing happens; the highest unit checks support; otherwise upgrading |
| UpgradeHandlers.DataUpgrade.OnPreUpgradeCheck | lib/charms/data_platform_libs/v0/upgrade.py:776-823 | an idle cluster gets the full stack and the first partition; a failed one is repaired for rollback |
| UpgradeHandlers.DataUpgrade.OnResumeUpgrade | lib/charms/data_platform_libs/v0/upgrade.py:825-854 | the partition moves to the top only with exactly one unit upgraded |
| UpgradeHandlers.DataUpgrade.RepairUpgradeStack | lib/charms/data_platform_libs/v0/upgrade.py:699-721 | the in-place insertion loop computes the repaired stack |
| UpgradeHandlers.RepairedStackIsPermutation | lib/charms/data_platform_libs/v0/upgrade.py:699-721 | for any iteration order: duplicate free, exactly the units, old top on top, old relative order |
| UpgradeRollout.FailedClusterIsPrepared | lib/charms/data_platform_libs/v0/upgrade.py:776-823 | the check on a failed cluster puts the leader into recovery, changes nothing else but a stack of the wrong height, which then holds its own and the application's units under the old top |
| UpgradeRollout.PreCheckStarts | src/upgrade.py:270-275 | a passed check on an idle cluster of old pods starts a rollout with the partition at the highest unit |
| UpgradeRollout.RunOk | lib/charms/data_platform_libs/v0/upgrade.py:1039-1073 | every legal run keeps the rollout invariant |
| UpgradeRollout.HigherUnitsCompletedFirst | lib/charms/data_platform_libs/v0/upgrade.py:1039-1073 | whenever a pod may be replaced, every higher unit has been replaced and has completed |
| UpgradeRollout.OneUnitMidUpgrade | lib/charms/data_platform_libs/v0/upgrade.py:1039-1073 | while a unit is mid-upgrade, lower units are untouched and higher ones completed |
| UpgradeRollout.FailureFreezesLowerUnits | src/upgrade.py:97-151 | without rollback a failed unit stays failed and all lower pods stay old |
| UpgradeRollout.UnhealthyOnlyFails | src/upgrade.py:129-151 | before the database, and for the leader the endpoint, is up nothing changes; an unhealthy unit becomes failed and nothing else moves |
| UpgradeRollout.HealthyCompletes | src/upgrade.py:129-151 | a healthy unit completes, and an inner one lets the next lower unit go or fails |
| UpgradeRollout.HealthyLeaderCompletes | lib/charms/data_platform_libs/v0/upgrade.py:741-759 | a healthy leader also drops the completed suffix of the stack, its own unit included, unless a unit has failed |
| UpgradeRollout.UnhealthyUnitFreezesLower | src/upgrade.py:129-151 | after an unhealthy verdict in any run the unit stays failed and no lower pod is ever replaced |
| UpgradeRollout.HigherUnitsReportedHealthy | src/upgrade.py:129-151 | whenever a pod may be replaced, every higher unit has had a healthy verdict of its own in the run |
| UpgradeRollout.CharmHookReports | lib/charms/data_platform_libs/v0/upgrade.py:890-942 | the replaced pod's hook reports upgrading, or failed from the highest unit of an unsupported upgrade, and moves nothing else |
| UpgradeRollout.UnsupportedUpgradeStops | lib/charms/data_platform_libs/v0/upgrade.py:920-938 | an unsupported upgrade stops at the highest unit and no other pod is ever replaced |
| UpgradeRollout.StackCoversUnlessOwnPatchFails | lib/charms/data_platform_libs/v0/upgrade.py:1062-1073 | the stack is 0 .. k-1 and covers all uncompleted units, except after the leader's own failed patch, if and only if |
| UpgradeRollout.StackCoversRuns | lib/charms/data_platform_libs/v0/upgrade.py:741-759 | over runs without that failure every unit at or above k has completed |
| UpgradeRollout.OwnPatchFailureHappens | lib/charms/data_platform_libs/v0/upgrade.py:1062-1073 | that failure is reachable with three units led by the middle one |
| UpgradeRollout.IdleOnlyWhenAllCompleted | lib/charms/data_platform_libs/v0/upgrade.py:963-979 | no unit returns to idle before all have completed and the stack is empty |
| UpgradeRollout.EmptyStackOnlySettles | lib/charms/data_platform_libs/v0/upgrade.py:656-663 | with an empty stack states only move from completed to idle |
| UpgradeRollout.SweepMakesIdle | lib/charms/data_platform_libs/v0/upgrade.py:656-663 | one hook per unit in any order then makes the cluster idle |
| UpgradeProgress.UpgradeFinishesUnlessStuck | lib/charms/data_platform_libs/v0/upgrade.py:825-854 | without a failed unit, every reachable upgrade can be finished if and only if it is not stuck between units |
| UpgradeProgress.StuckForever | src/upgrade.py:255-275 | no legal step ever gets an upgrade out of there |
| UpgradeProgress.StuckByUntimelyActionOnly | lib/charms/data_platform_libs/v0/upgrade.py:776-854 | a step that fails nobody leaves the upgrade stuck if and only if it is the check or resume-upgrade repeated at rest |
| UpgradeProgress.UntimelyActionsHappen | lib/charms/data_platform_libs/v0/upgrade.py:776-854 | both are reachable in an upgrade of three units |
| UpgradeProgress.RollOut | lib/charms/data_platform_libs/v0/upgrade.py:1039-1073 | from rest, replacing and completing the units one by one finishes the upgrade |
| SecretCache.Cache.Get | lib/charms/data_platform_libs/v0/data_interfaces.py:973-983 | found exactly when Juju has the secret, and then cached |
| SecretCache.Cache.GetContent | lib/charms/data_platform_libs/v0/data_interfaces.py:914-929 | the cached content is what Juju stores |
| SecretCache.Cache.Add | lib/charms/data_platform_libs/v0/data_interfaces.py:985-993 | adds the secret unless it exists |
| SecretCache.Cache.SetContent | lib/charms/data_platform_libs/v0/data_interfaces.py:931-945 | stores the content; an empty content removes the secret but not the cached copy |
| SecretCache.Cache.Remove | lib/charms/data_platform_libs/v0/data_interfaces.py:995-1005 | removes the secret from Juju and from the cache |
| RelationStore.Store.AddOrUpdateSecret | lib/charms/data_platform_libs/v0/data_interfaces.py:1269-1337 | merges the pairs into the group's secret, creating it and its reference when missing |
| RelationStore.Store.UpdateSecrets | lib/charms/data_platform_libs/v0/data_interfaces.py:1536-1573 | the loop over groups gives every touched group its part of the data and leaves nothing over |
| RelationStore.Store.UpdateRelationData | lib/charms/data_platform_libs/v0/data_interfaces.py:1254-1267 | an update overrides entries of the one map that both stores stand for, each secret field landing in the secret its label names and its group among the references |
| RelationStore.UpdateRefines | lib/charms/data_platform_libs/v0/data_interfaces.py:1254-1337 | databag part and secret parts together are the overridden map; unwritten fields keep their values |
| RelationStore.UpdateReachesHome | lib/charms/data_platform_libs/v0/data_interfaces.py:1478-1522 | a written secret field is, with its value, in the secret of the group its label names, "extra" without a label, and in no other secret |
| RelationStore.UpdateRefers | lib/charms/data_platform_libs/v0/data_interfaces.py:1478-1522 | the references gain exactly the groups of the written fields, and the secrets keep everything that is not written |
| RelationStore.Store.FetchSecrets | lib/charms/data_platform_libs/v0/data_interfaces.py:1536-1573 | the loop over groups finds exactly the values the secrets hold for these fields |
| RelationStore.Store.FetchRelationData | lib/charms/data_platform_libs/v0/data_interfaces.py:1595-1631 | a read, of some fields or all, is a lookup in the one map |
| RelationStore.FetchRefines | lib/charms/data_platform_libs/v0/data_interfaces.py:1595-1631 | secret values plus databag values are the one map restricted to the fields |
| RelationStore.PopAll | lib/charms/data_platform_libs/v0/data_interfaces.py:1350-1362 | popping in turn succeeds exactly when all fields are there and none is listed twice |
| RelationStore.Store.DeleteFromSecret | lib/charms/data_platform_libs/v0/data_interfaces.py:1339-1375 | a group's secret loses all listed fields or none; an emptied secret and its reference go |
| RelationStore.Store.DeleteSecrets | lib/charms/data_platform_libs/v0/data_interfaces.py:1536-1573 | the loop over groups, with the fields of failing groups handed to the databag |
| RelationStore.Store.DeleteRelationData | lib/charms/data_platform_libs/v0/data_interfaces.py:1377-1385 | a deletion removes from the one map the fields that can really be removed |
| RelationStore.DeleteRefines | lib/charms/data_platform_libs/v0/data_interfaces.py:1339-1385 | both stores after a deletion stand for the map without the removed fields |
| RelationStore.DeleteIsExact | lib/charms/data_platform_libs/v0/data_interfaces.py:1339-1375 | exactly the listed fields go, if and only if they sit in one secret without repetition or no listed secret field has a value |
| RelationStore.OneSecretMeans | lib/charms/data_platform_libs/v0/data_interfaces.py:1350-1362 | the condition is that nothing is listed twice and some secret has every listed field; otherwise all listed secret fields are handed to the databag |
| RelationStore.DeleteOne | lib/charms/data_platform_libs/v0/data_interfaces.py:1377-1385 | deleting one field removes exactly that field |
| RelationStore.Store.Replay | lib/charms/data_platform_libs/v0/data_interfaces.py:1254-1385 | any sequence of writes and single deletions, over any number of hooks, acts on one plain map, and every secret holds only fields that the labels put there |
| RelationStore.LastWriteWins | lib/charms/data_platform_libs/v0/data_interfaces.py:1254-1385 | over any such run a field holds its last value written and not dropped, and unnamed fields keep theirs |
| PeerSecrets.Peer.GroupContents | lib/charms/data_platform_libs/v0/data_interfaces.py:2831-2844 | the secret's selected fields without deleted ones |
| PeerSecrets.Peer.CurrentFields | lib/charms/data_platform_libs/v0/data_interfaces.py:2477-2500 | the undeleted fields and those added by the running hook |
| PeerSecrets.Peer.FetchField | lib/charms/data_platform_libs/v0/data_interfaces.py:1595-1631 | the secret's value, else the databag's |
| PeerSecrets.Peer.UpdateField | lib/charms/data_platform_libs/v0/data_interfaces.py:2855-2870 | a secret field moves into the secret, any other write goes to the databag |
| PeerSecrets.Peer.DropPlainCopy | lib/charms/data_platform_libs/v0/data_interfaces.py:2730-2744 | a secret field's plain copy leaves the databag |
| PeerSecrets.Peer.DeleteField | lib/charms/data_platform_libs/v0/data_interfaces.py:2872-2892 | an existing secret field gets the marker, anything else is popped from the databag |
| PeerSecrets.Peer.SetPeerSecret | lib/charms/data_platform_libs/v0/data_interfaces.py:2502-2524 | the field becomes a secret field and holds the value |
| PeerSecrets.Peer.GetPeerSecret | lib/charms/data_platform_libs/v0/data_interfaces.py:2528-2546 | nothing for an unknown field, otherwise its value unless marked |
| PeerSecrets.Peer.GetSecret | src/charm.py:354-367 | the value of the key in the plain map, and nothing changes |
| PeerSecrets.Peer.SetSecret | src/charm.py:369-383 | sets the key in the plain map and drops its legacy copy; an empty value removes |
| PeerSecrets.Peer.RemoveSecret | src/charm.py:385-395 | removes the key from the plain map unless a legacy copy shows |
| PeerSecrets.Peer.StartHook | lib/charms/data_platform_libs/v0/data_interfaces.py:2431-2440 | a new hook starts without cache and new fields and shows the same values |
| PeerSecrets.Peer.Replay | src/charm.py:354-395 | any sequence of these operations acts on the plain map |
| PeerSecrets.LastValueWins | src/charm.py:354-395 | a key holds the last value set and not removed since, whatever happens to other keys |
| PeerSecrets.LegacyCopyStays | src/charm.py:361-367 | a legacy copy shows until the key is first set, removals notwithstanding |
| PeerSecrets.SeenAfterSet | src/charm.py:369-383 | writing one key's field changes what is seen of that key only |
| PeerSecrets.SeenAfterRemove | src/charm.py:385-395 | marking one key's field hides that key only |
| PeerSecrets.TranslateIs | src/charm.py:346-352 | the field of a key is the key with a dash for every underscore, without the dashes at both ends, and "cauth" for "ca" |
| PeerSecrets.SharedFieldLeaks | src/charm.py:346-352 | two keys with the same field share their value, so they must not clash |
| PeerSecrets.CleanKeysDoNotClash | src/charm.py:346-352 | keys already in field form never clash, even with the overridden "ca" |
| SecretNames.LabelLeadsBack | lib/charms/data_platform_libs/v0/data_interfaces.py:1444-1476 | a generated label yields its relation name and id, dots in the name included |
| SecretNames.LabelsAreDistinct | lib/charms/data_platform_libs/v0/data_interfaces.py:1444-1449 | labels are equal only for the same relation and the same group |
| SecretNames.LabelIsRead | lib/charms/data_platform_libs/v0/data_interfaces.py:1454-1476 | every text of at least three pieces with a number third from the end is read as a label |
| SecretNames.OnlyLabelsAreRead | lib/charms/data_platform_libs/v0/data_interfaces.py:1454-1476 | and only such a text is |
| SecretNames.GroupNamedIff | lib/charms/data_platform_libs/v0/data_interfaces.py:2575-2584 | exactly the five group names name a group |
| SecretNames.NameLeadsBack | lib/charms/data_platform_libs/v0/data_interfaces.py:2570-2584 | an internal name splits back to its field and group if and only if the field has no separator |
| S3Handshake.Backups.InitialiseStanza | src/backups.py:596-649 | the stanza is recorded, or the failure is, or nothing while another block is shown |
| S3Handshake.Backups.CheckStanza | src/backups.py:651-693 | success clears the request or marks the unit done; failure is recorded |
| S3Handshake.Backups.CoordinateStanzaFields | src/backups.py:695-717 | a leader with a pending request adopts the first databag marked done |
| S3Handshake.Backups.OnCredentialChanged | src/backups.py:781-804 | the leader asks; a primary without an answer initialises |
| S3Handshake.Backups.OnCredentialChangedPrimary | src/backups.py:806-833 | initialise, then check, with the failures of both |
| S3Handshake.Backups.OnPeerRelationChanged | src/charm.py:640-660 | adopt, answer, and clear the unit's answer once the application is done |
| S3Handshake.Backups.OnCredentialGone | src/backups.py:967-981 | all fields go, in the application databag only from the leader |
| S3Handshake.HookOk | src/backups.py:596-717 | each hook, whatever its roles and outcome, keeps the handshake invariant |
| S3Handshake.HandshakeInvariant | src/charm.py:640-660 | never both stanza and block message, no pending start with a result, a unit done exactly with one result |
| S3Handshake.HandshakeFromScratch | src/backups.py:695-717 | the same from a relation nobody has written to |
| S3Handshake.HandshakeDelivers | src/backups.py:695-717 | one full exchange between a leader and another unit as primary: asked, answered, adopted, cleared, the application holding exactly the answer |
| S3Handshake.RequestGetsOwnResult | src/backups.py:695-717 | in every schedule of one request, with the leader primary or not, the databag still asks or holds a result obtained after the ask |
| S3Handshake.RequestIsDelivered | src/charm.py:640-660 | any schedule in which the primary's attempt ends and another leader looks at its databag later settles the request with its own result |
| S3Handshake.NothingOldIsAdoptedIff | src/backups.py:695-717 | after asking, nothing old is adopted if and only if no unit carries an answer or the leader, being the primary, settled the request |
| S3Handshake.LeftoverIsAdopted | src/backups.py:781-804 | a primary that becomes leader declares new credentials good without trying them |
| S3Handshake.SecondRequestGetsFirstAnswer | src/charm.py:653-660 | with fixed roles, credentials changed before the primary's clean-up hook get the earlier answer |
| S3Handshake.RefusalBlocks | src/charm.py:1634-1641 | a refused repository after a restore leaves only its message in the application databag, written by the leader alone |
| S3Handshake.FailureWaitsForLeader | src/charm.py:644-651 | a failed attempt of another unit leaves message and answer in its databag and nothing else changes |
| S3Handshake.GoneClears | src/backups.py:967-981 | the hook empties its unit's databag and, in the leader, the application's, and touches no other unit |
| S3Handshake.GoneLeavesNothing | src/backups.py:967-981 | once every unit has run it, one of them as leader, nothing is left of the old credentials |
| S3Handshake.RequestAfterRemoval | src/backups.py:967-981 | so the next request never gets an old result, whatever state the removal found |
| Timestamps.ParseWritten | src/backups.py:564-568 | both notations read back as the date they were written from |
| Timestamps.WrittenParsed | src/backups.py:564-568 | only written dates can be read |
| Timestamps.FormatOrder | src/backups.py:508-523 | with one fixed-width layout, string order is tuple order |
| Timestamps.StringOrderIsTimeOrder | src/backups.py:508-523 | ids and compact timestamps of four-digit years order as their dates |
| Timestamps.MonthsAddUp | src/backups.py:564-568 | the months of the calendar add up to the days of the years, and the longer and shorter ones alternate around July and August |
| BackupLabels.LabelParses | src/backups.py:550-569 | a label's id is its own timestamp, with its kind, even next to the base's timestamp |
| BackupLabels.ContainsMeans | src/backups.py:1153-1161 | a timestamp occurs in a label exactly as its own or as its base's |
| BackupLabels.FetchBackupFromId | src/backups.py:1153-1161 | the label of the first backup without an error that contains the timestamp; missing exactly when no such label contains it |
| BackupLabels.ShownHolds | src/backups.py:463-472 | a listing with failed backups is the whole list, one without them holds exactly the others |
| BackupLabels.ShownKeepsOrder | src/backups.py:463-472 | each of them once, in the old order |
| BackupLabels.SearchFinds | src/backups.py:1153-1161 | the search finds the first backup carrying the timestamp as own or base |
| BackupLabels.LabelComesBack | src/backups.py:443-472 | in a chronological list every label's id leads back to that label |
| BackupLabels.ListedIdIsFetched | src/backups.py:1153-1161 | the id shown for a successful backup fetches that backup's label from the listing |
| BackupLabels.WrongLabelWhenBaseHidden | src/backups.py:1153-1161 | another backup's label is returned if and only if the id is unlisted but the base of a listed backup |
| Timelines.ListingIsComplete | src/backups.py:443-472 | the listing has exactly one entry per backup, under its start time, with its timeline |
| Timelines.ListingHasDates | src/backups.py:550-569 | every id of a listing can be read as a date |
| Timelines.ListedIs | src/backups.py:443-472 | the listing fails exactly at a label of unknown form, otherwise holds each label's id with the place of its last entry |
| Timelines.PlaceHolds | src/backups.py:463-472 | a place is the stanza and the first eight characters of the segment without leading zeros |
| Timelines.MaxItem | src/backups.py:515-516 | the item with the greatest key |
| Timelines.NearestTimeline | src/backups.py:508-523 | a timeline or a backup without an error that is not after the target, with none of either later; none exactly when there is none, an error exactly for an unknown label of a backup without an error |
| Timelines.NearestIsLast | src/backups.py:508-523 | the chosen place is a timeline no eligible backup is later than, or the last eligible backup, which no eligible timeline is later than |
| Timelines.FractionIsIgnored | src/backups.py:537-548 | the microseconds of the target never decide |

## Left out

- Demotion: scale-up or scale-down within a relation, relation-created and relation-broken hooks after the first promotion, and the archive of the old data folder.
- Demotion: restarts of a pod, whose pebble-ready hook starts the service again without looking at the mark (src/charm.py:952-1000), and restarts of an inactive or restored database; only what these hooks do to the initialised flag is modelled.
- Demotion: the statements about wipes and restarts assume that a unit's own view of the remote counter never gets older and that peer databags are read without delay.
- DemotionRound.FourSweepsFinish: assumes one leader throughout, that Patroni starts when asked, that the secret and the system identifier can be read and that data folders exist; without these a round can wait forever.
- Promotion checks other than the counters (initialised cluster, addresses, system identifier, reachability, forced promotion) are one yes-or-no answer, except that the cluster-initialised flag is tied to it in the life of a relation.
- UpgradeRollout: rollback after a failed upgrade, changes of membership, the path of old charm versions, and upgrade chains started twice in one hook; the rollback entry points themselves are modelled in UpgradeHandlers.
- UpgradeHandlers: health checks, switchovers, the list of synchronous standbys and the patches of Patroni's configuration are yes-or-no answers.
- RelationStore: relations of a Juju without secrets, the premature-access error, the other side's read of a secret it was granted, and legacy secret labels.
- RelationStore: the reference of the "extra" group's secret is looked up by the code in the remote application's databag, because that group is never among the owner's groups; the model assumes that the remote side publishes no such reference.
- RelationStore: a label map that assigns a field to the "extra" group itself, whose content the code would then leave out; the code's own map has no such entry.
- RelationStore.Override: an empty string deletes a plain field only; a secret field keeps it as a value, as in the code.
- PeerSecrets.Peer: the application scope in a unit that is not the leader, where writes are dropped (lib/charms/data_platform_libs/v0/data_interfaces.py:615-627); a Peer that is not the leader stands for the unit scope.
- PeerSecrets: keys whose translated field contains the group separator, plain copies under a translated name, and secrets shared with other units.
- SecretNames.LabelLeadsBack: numbers in the relaxed spellings that Python's `int` also accepts, and the final lookup of the relation.
- S3Handshake: the checks of bucket, repository and stanza are one outcome, and what follows after a handshake has succeeded (starting the TLS server, metrics) has no part in it.
- Timestamps: years with fewer or more than four digits, and the variable-width spellings that `strptime` also accepts.
- Timelines: reading the user's timestamp with its time zone, and turning file times into ids.
- BackupLabels: the made-up labels of failed backups, and the path and format of log files.
- Status messages, endpoints, resource limits, database and LDAP relations, TLS transfer, extensions and dashboards only add single-branch facts.
