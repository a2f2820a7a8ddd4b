# Chutes miner control plane: a verified model

The repository runs the control plane of a GPU miner: it places chutes (containerised models) on GPU servers,
preempts cheaper deployments for more valuable ones, keeps its tables in step with the validators, mirrors every
cluster's Kubernetes objects in Redis, and talks to each cluster through an agent. This project models its stateful
core in Dafny and proves what that core promises.

Classes stand for what the source changes in place (tables, accumulators, Redis hashes, health records, the agent,
the kubeconfig); each of their methods is proved equal to a function of the old state, and the theorems are proved
about those functions and about whole runs of them. Requests, failures, clocks and random draws are inputs.

| file | what it models |
|---|---|
| `Preemption.dfy` | the planner of `preempting_deploy`: victims, budgets, choice of server |
| `Allocator.dfy` | GPU claims under concurrent deploys, failures, undeploys and inventory changes |
| `NodeSizing.dfy` | per-GPU CPU and memory shares of a server and the requests built from them |
| `Scaler.dfy` | choice of server and of victim, and the loop of `scale_chute` |
| `Reconciler.dfy` | one `reconcile` pass: row loop, two purges, chutes, new chutes, servers |
| `ChuteSync.dfy` | the start of the pass: bringing chute definitions and images in line with the catalogues |
| `ResourceCache.dfy` | the resource hashes in Redis, and watch-stream replay by the agent |
| `ClusterHealth.dfy` | heartbeats, resyncs, health and cleanup passes, several processes on one Redis |
| `DeletePreflight.dfy` | the checks before an undeploy, and what a veto for staleness means for later ones |
| `AgentLifecycle.dfy` | the agent's STOPPED, DEGRADED and RUNNING states, recovery loop and persisted URL |
| `KubeConfig.dfy`, `KubeDocuments.dfy` | the merged kubeconfig; printing, parsing and loading it |
| `Options.dfy`, `Sorting.dfy` | optional values, results, stable sorting, sums |

## What turned out not to hold

Each item has a statement over all inputs that exhibits it, or a concrete counterexample, and the exact condition under
which the code does what is expected.

- The preemption planner can miss a plan when deployments of one chute hold different numbers of GPUs
  (`UnequalHoldingsMissPlan`); it is complete exactly when `Dominant` holds (`CompleteIffDominant`).
- The planner counts unverified GPUs as free, so a plan can evict a running deployment for a chute that `_verify_gpus`
  then turns away (`EvictionInVain`). A server and its ranking are safe from that exactly when no unverified GPU opens
  while verified ones are still short (`RequestsDeployIff`): over all requests, when no unverified GPU is unowned or
  held by a deployment within its budget (`AnyRequestDeploysIff`); over the requests the server's verified GPUs could
  serve, when none opens earlier in the ranking than a verified one (`VerifiedRequestsDeployIff`).
- `scale_chute` turns on the spot while the preflight vetoes its removal (`VetoedForever`), and a deployment placed on
  a server of another validator is not counted, since the server query does not look at the validator (`UpFacts`,
  `ForeignForever`). A call never ends exactly when it reaches a state that all answers still to come
  leave frozen (`EndlessIff`).
- A job the row loop keeps can still be deleted by a removal of its chute scheduled in the same pass
  (`KeptJobStillRemoved`, `TrackedKilledIff`); a row kept because its job could not be read has that job undeployed in
  the same pass (`UnreadableStillUndeployed`, `UndeployedIffUntracked`); and a chute in a rolling update is removed
  exactly when a job of it has no catalogue entry (`RollingLeftAlone`).
- An instance that the pass itself finds for a finished deployment is not purged when the pass undeploys that deployment:
  the undeploy reads what is committed, and the row's config still claims the instance (`FoundInstanceSpared`;
  `PurgedIff` says exactly what is purged).
- A chute renamed by its validator is synchronised again at every pass, since the update does not copy the name, and so
  is one whose image record disagrees with its definition (`SettlesIff`).
- Registering and resyncing write the healthy status before they rewrite the cache, so an interrupted snapshot heals a
  cluster over stale data (`InterruptedSnapshotHeals`, `StaleAfterInterruption`); and a heartbeat whose check precedes
  another process's mark undoes that mark (`LateHeartbeatUndoesMark`). `HealsIff` says exactly which steps heal.
- A deletion reported in the background that arrives after the last notice of its object drops the object if that
  notice stored it (`ReplayWithDeletionsIff`). `LateDeletionDrops` is such a run: the reaper's check finds the object
  gone, one of the same name is created, and the reaper's report comes last.
- Two starts that are both let in before either connects leave the agent connected to the first URL with the second one
  persisted (`RacingStarts`, `StartWhileRunning`); a start that arrives at a running agent is refused by the route.
- A GPU's memory share can round down to 0 (`MemoryShareZeroIff`), and with no more than 1 GB per GPU the requests
  exceed 0.8 of the usable memory (`MemorySharesFitIff`).
- Adding and removing a context under fresh names does not restore a config whose selected context has the empty name
  and is not the first (`EmptyNameDeselected`); on the configs that merges, removals and selections produce this is the
  only exception (`AddThenRemoveOnRuns`). Nor does it restore one that lists contexts and selects none
  (`AddThenRemoveCanSelect`, `AddThenRemoveIff`), which no caller does: only the owner of the merged config adds and
  removes, and `RunConsistent` shows that its config is never of that kind.

One assumption is the platform's: Kubernetes names hold no colon. Without it a lookup by name would go wrong
(`ColonNameMisread`), and `FieldSplitsBackIff` shows that it is all that is needed.

Where comments and code disagree the models follow the code: a resync is said to overwrite all of a cluster's
resources, but nodes are only added to; a merge is said to prefix names, but does not; scaling down is said to pick the
deployment that leaves most GPUs free, but ranks by cost times utilisation; `scale_chute`'s victim may be of another
version than the one being scaled.

## Model

| member | source | states |
|---|---|---|
| Preemption.PlanSafeAndTight | src/chutes-miner/chutes_miner/gepetto.py:1556-1643 | every victim of a plan is public, no job, of another chute, active for more than 3720 seconds and worth less by the first entry of its instance (nothing without one); each affected chute keeps an entry; the request is reached, and missed without the last victim; none is taken when enough GPUs are free |
| Preemption.AllowedIff | src/chutes-miner/chutes_miner/gepetto.py:1548-1628 | the planner reckons by those rules, no more and no less, for any set of victims |
| Preemption.GreedyIsBest | src/chutes-miner/chutes_miner/gepetto.py:1568-1628 | along the ranking no allowed set of victims frees more than the walk takes |
| Preemption.Exchange | src/chutes-miner/chutes_miner/gepetto.py:1618-1628 | a victim the walk skips for lack of budget can be traded for one it took, keeping the rules and losing no GPU |
| Preemption.MissedRequest | src/chutes-miner/chutes_miner/gepetto.py:1618-1643 | a skipped deployment larger than a taken one of its chute yields a request the planner misses |
| Preemption.TakenIffInBudget | src/chutes-miner/chutes_miner/gepetto.py:1618-1628 | the walk takes a deployment exactly when it is eligible and fewer earlier eligible ones of its chute come before it than the chute can spare |
| Preemption.CompleteIffDominant | src/chutes-miner/chutes_miner/gepetto.py:1556-1643 | a plan is found for every request some allowed set can meet if and only if, within each chute, no eligible deployment beyond the budget holds more GPUs than one within it |
| Preemption.EqualHoldingsComplete | src/chutes-miner/chutes_miner/gepetto.py:1556-1643 | with equal holdings within a chute a plan is found exactly when one exists |
| Preemption.BottleneckOptimal | src/chutes-miner/chutes_miner/gepetto.py:1568-1643 | no plan for the request has a less valuable most valuable victim |
| Preemption.UnequalHoldingsMissPlan | src/chutes-miner/chutes_miner/gepetto.py:1618-1643 | a server and request with a plan the planner does not find |
| Preemption.PlanMakes | src/chutes-miner/chutes_miner/gepetto.py:1556-1643 | a plan found is among the possible ones |
| Preemption.FirstPossibleServer | src/chutes-miner/chutes_miner/gepetto.py:1556-1649 | the chosen server is the first in order where making room is possible at all |
| Preemption.RequestsDeployIff | src/chutes-miner/chutes_miner/gepetto.py:1556-1643 | every plan for a request up to a cap is followed by a deploy that `_verify_gpus` lets through exactly when, along the ranking, no unverified GPU opens while fewer verified ones than the cap are open |
| Preemption.AnyRequestDeploysIff | src/chutes-miner/chutes_miner/gepetto.py:1556-1643 | every plan whatever the request is, exactly when no unverified GPU is unowned or held by a deployment within its budget |
| Preemption.VerifiedRequestsDeployIff | src/chutes-miner/chutes_miner/gepetto.py:1521-1643 | every plan for at most the server's verified GPUs is, exactly when no unverified GPU opens earlier in the ranking than a verified one |
| Preemption.EvictionInVain | src/chutes-miner/chutes_miner/gepetto.py:1557 | a server on which a plan evicts a running deployment and the chute is still turned away |
| Preemption.CountGlobalInstances | src/chutes-miner/chutes_miner/gepetto.py:1548-1552 | the running map holds, for every chute, the number of its entries among the active instances |
| Preemption.CountFree | src/chutes-miner/chutes_miner/gepetto.py:1557 | the number of GPUs without a deployment |
| Preemption.IsPassedOver | src/chutes-miner/chutes_miner/gepetto.py:1573-1623 | a deployment is skipped exactly when one of those rules forbids it or its chute has no instance to spare |
| Preemption.ProposeVictims | src/chutes-miner/chutes_miner/gepetto.py:1565-1641 | the loop with running counts finds exactly the victims of the walk |
| Preemption.ChooseServer | src/chutes-miner/chutes_miner/gepetto.py:1554-1649 | the first server in order with a plan, and its victims, or that no server has one |
| Allocator.Inventory.TrackDeployment | src/chutes-miner/chutes_miner/api/k8s/operator.py:1190-1221 | the claim commits in full or leaves the tables as they were |
| Allocator.Inventory.ClearDeployment | src/chutes-miner/chutes_miner/api/k8s/operator.py:1223-1236 | removes the row and frees its GPUs, if the row is there |
| Allocator.Inventory.Undeploy | src/chutes-miner/chutes_miner/gepetto.py:578-610 | removes the row and frees its GPUs unless the preflight vetoes |
| Allocator.Inventory.UpdateDeployment | src/chutes-miner/chutes_miner/api/k8s/operator.py:1238-1258 | the row stops being a stub, or the call fails when it disappeared |
| Allocator.Inventory.DeployChute | src/chutes-miner/chutes_miner/api/k8s/operator.py:1065-1124 | undisturbed, it succeeds exactly when the job starts and enough verified free GPUs exist, holding exactly that many of them; a failure leaves no trace |
| Allocator.PickFacts | src/chutes-miner/chutes_miner/api/k8s/operator.py:1153-1184 | a pick exists exactly when enough GPUs are available, and is that many different verified unowned GPUs of the server |
| Allocator.ClaimFacts | src/chutes-miner/chutes_miner/api/k8s/operator.py:1205-1221 | a committed claim took every GPU it wanted, all unowned before, and changed no other |
| Allocator.OneWinner | src/chutes-miner/chutes_miner/api/k8s/operator.py:1205-1220 | of two claims that share a GPU the second fails |
| Allocator.ReleaseUndoesClaim | src/chutes-miner/chutes_miner/api/k8s/operator.py:1223-1236 | clearing after a claim gives back the earlier tables |
| Allocator.ReleaseFacts | src/chutes-common/chutes_common/schemas/gpu.py:22-26 | deleting a row frees its GPUs and no others |
| Allocator.BeginFacts | src/chutes-miner/chutes_miner/api/k8s/operator.py:1153-1184 | a call settles on as many verified, unowned GPUs of the server as it asked for, or fails when there are fewer |
| Allocator.ClaimStepFacts | src/chutes-miner/chutes_miner/api/k8s/operator.py:1190-1221 | a claim commits, with row and owners, exactly when the server is there and every wanted GPU still unowned; otherwise the call fails and nothing changes |
| Allocator.FinishFacts | src/chutes-miner/chutes_miner/api/k8s/operator.py:1098-1104 | a started deployment is no stub any more, and the call fails when its row disappeared |
| Allocator.AbortFacts | src/chutes-miner/chutes_miner/api/k8s/operator.py:1106-1124 | a call that fails after its claim loses its row and frees its GPUs, with every other row and owner as it was; before it there is nothing to clear |
| Allocator.UndeployFacts | src/chutes-miner/chutes_miner/gepetto.py:578-610 | an undeploy does the same for its row, whatever the call behind it is doing |
| Allocator.InventoryFacts | src/chutes-common/chutes_common/schemas/gpu.py:15-30 | what servers and GPUs that come, are verified or go do to the tables |
| Allocator.StepKeeps | src/chutes-miner/chutes_miner/api/k8s/operator.py:1065-1145 | every step of any concurrent call keeps the allocation invariant |
| Allocator.RunKeeps | src/chutes-miner/chutes_miner/api/k8s/operator.py:1065-1236 | so does every interleaving |
| Allocator.HoldingsExact | src/chutes-miner/chutes_miner/api/k8s/operator.py:1153-1236 | after any interleaving each deployment holds exactly the GPU count it asked for, on its own server, disjoint from all others, and its job was given exactly those GPUs |
| Allocator.NothingLeaks | src/chutes-miner/chutes_miner/api/k8s/operator.py:1065-1236 | after any interleaving each row is that of exactly one call that claimed it and did not fail, a stub exactly while the call is at work, and every owned GPU is a verified one of such a row |
| NodeSizing.CpuSharesFitIff | src/chutes-miner/chutes_miner/api/server/util.py:176-179 | with all GPUs in use the CPU requests fit exactly when there is a usable CPU per GPU |
| NodeSizing.MemorySharesFitIff | src/chutes-miner/chutes_miner/api/server/util.py:180-191 | with all GPUs in use the memory requests stay within 0.8 of the usable memory exactly when it exceeds the GPU count |
| NodeSizing.CpuShareExact | src/chutes-miner/chutes_miner/api/server/util.py:176-179 | the CPU share is the largest of up to 4 that all GPUs can have, or 1 where there is none to spare |
| NodeSizing.MemoryShareExact | src/chutes-miner/chutes_miner/api/server/util.py:187-191 | the memory share is the largest, up to the GPU's own memory, that keeps all within 0.8 of the usable memory, or 1 with no more than 1 GB each |
| NodeSizing.NoShareIff | src/chutes-miner/chutes_miner/api/server/util.py:176-191 | the division fails exactly for a node with no GPU and something to divide |
| NodeSizing.MemoryShareZeroIff | src/chutes-miner/chutes_miner/api/server/util.py:187-191 | when exactly the memory share is 0 |
| NodeSizing.RequestsFollowGpus | src/chutes-miner/chutes_miner/api/k8s/util.py:63-64 | the requests of a set of deployments are the share times the GPUs they hold |
| NodeSizing.TenantsWithinGpus | src/chutes-miner/chutes_miner/api/k8s/util.py:63-64 | a server's deployments request at most one share per GPU |
| NodeSizing.CpuNeverOvercommitted | src/chutes-miner/chutes_miner/api/server/util.py:172-179 | over every run of the allocator the CPU requests on a server never exceed its capacity less two |
| NodeSizing.MemoryNeverOvercommitted | src/chutes-miner/chutes_miner/api/server/util.py:180-191 | nor the memory requests 0.8 of its capacity in GB less six |
| Scaler.EstimateGap | src/chutes-miner/chutes_miner/gepetto.py:1364-1408 | the query's free-GPU estimate is the verified free GPUs less the verified GPUs of unsupported models |
| Scaler.PickFacts | src/chutes-miner/chutes_miner/gepetto.py:1355-1429 | the server is unlocked, of the chute's kind, has disk space and a supported GPU, as many supported GPUs beyond the used ones as asked for and as many verified free ones, and at most one such server strictly before it in cost and fit; there is none exactly for a banned chute or when no server is like that |
| Scaler.PoolFacts | src/chutes-miner/chutes_miner/gepetto.py:1416-1428 | the pool is at most two servers with disk space, and fewer than `j` of those come strictly before its `j`-th |
| Scaler.GatherCandidates | src/chutes-miner/chutes_miner/gepetto.py:1421-1426 | the loop stops with the first two servers that pass the disk check |
| Scaler.OptimalScaleUpServer | src/chutes-miner/chutes_miner/gepetto.py:1355-1429 | the loop over the ranked servers returns such a server |
| Scaler.VictimFacts | src/chutes-miner/chutes_miner/gepetto.py:1317-1353 | the deployment to remove is public, of the chute at any version and validator, no job, active for 3780 seconds, holds a GPU and has an unlocked server, and no such deployment is on a server with more cost in use; there is none exactly when no deployment is like that |
| Scaler.DownFacts | src/chutes-miner/chutes_miner/gepetto.py:1716-1734 | a turn above the desired count lowers the count by at most one and the chute's non-job deployments by exactly one, or changes nothing when vetoed |
| Scaler.UpFacts | src/chutes-miner/chutes_miner/gepetto.py:1737-1779 | a turn below raises the count by at most one: by one exactly when it deploys to a server of the chute's validator; it uses up the chute's GPU count |
| Scaler.TurnFacts | src/chutes-miner/chutes_miner/gepetto.py:1716-1779 | what one turn does and whether the loop goes on, from rows, servers and answers: with no server it leaves the rest to the preempting deploy exactly when asked to |
| Scaler.DeployedFacts | src/chutes-miner/chutes_miner/api/k8s/operator.py:1190-1221 | a deployment adds one row with the chute's version and the server's validator, and claims exactly the GPU count out of verified unowned GPUs of that server |
| Scaler.UndeployedFacts | src/chutes-miner/chutes_miner/gepetto.py:578-610 | an undeploy takes the row and the owner of its GPUs, and nothing else |
| Scaler.WithdrawnRestores | src/chutes-miner/chutes_miner/gepetto.py:1772-1777 | undeploying a deployment that could not be announced, or clearing one that could not start, restores rows and GPUs |
| Scaler.StepApproaches | src/chutes-miner/chutes_miner/gepetto.py:1704-1781 | one turn moves the count towards the desired one by at most one and not past it |
| Scaler.StepShrinksIff | src/chutes-miner/chutes_miner/gepetto.py:1704-1781 | a turn that goes on lowers the measure exactly when it is not stuck: no vetoed removal, no uncounted deployment without a GPU |
| Scaler.RunIsTrace | src/chutes-miner/chutes_miner/gepetto.py:1711-1715 | every call has a run |
| Scaler.RunKeeps | src/chutes-miner/chutes_miner/gepetto.py:1704-1781 | rows keep their distinct ids and later ids stay unused over a run |
| Scaler.RunApproaches | src/chutes-miner/chutes_miner/gepetto.py:1704-1781 | every turn of a run moves towards the desired count |
| Scaler.RunOneWay | src/chutes-miner/chutes_miner/gepetto.py:1704-1781 | over a whole run the count stays between its first value and the desired one |
| Scaler.RunIsShort | src/chutes-miner/chutes_miner/gepetto.py:1711-1715 | the number of turns is bounded by the measure of the first state plus the stuck turns |
| Scaler.EndingFacts | src/chutes-miner/chutes_miner/gepetto.py:1711-1781 | a call ends for the reason its answer says: True after a removal or a running deployment, the preempting deploy exactly when asked for and no server suits, False otherwise |
| Scaler.EndlessIff | src/chutes-miner/chutes_miner/gepetto.py:1711-1730 | a call never ends exactly when it reaches a state that every answer still to come leaves frozen: a vetoed removal, or a deployment without a GPU on another validator's server |
| Scaler.VetoedForever | src/chutes-miner/chutes_miner/gepetto.py:1717-1730 | while every preflight vetoes, the loop turns on the spot for any number of turns |
| Scaler.ForeignForever | src/chutes-miner/chutes_miner/gepetto.py:1737-1767 | a chute without GPUs that only finds other validators' servers is deployed on them without end |
| Scaler.PassingEnds | src/chutes-miner/chutes_miner/gepetto.py:1711-1730 | for a chute that uses GPUs, or servers all of its own validator, preflights that pass again and again are enough for an end |
| Scaler.Gepetto.Undeploy | src/chutes-miner/chutes_miner/gepetto.py:578-610 | removes the row and its GPU claims unless vetoed |
| Scaler.Gepetto.DeployChute | src/chutes-miner/chutes_miner/api/k8s/operator.py:1065-1119 | succeeds exactly when enough verified GPUs are free and everything after the claim works, with the chute's version and the server's validator in the new row; a failure leaves the tables as they were |
| Scaler.Gepetto.TakeTurn | src/chutes-miner/chutes_miner/gepetto.py:1716-1779 | one iteration does exactly what the turn function says |
| Scaler.Gepetto.TakeTurnAt | src/chutes-miner/chutes_miner/gepetto.py:1716-1779 | and is the next step of the run |
| Scaler.Gepetto.ScaleChute | src/chutes-miner/chutes_miner/gepetto.py:1704-1781 | every call that has an end reaches it, with the tables of its run and the answer `EndingFacts` describes; the count never crosses the desired one, and True means it was reached |
| Reconciler.Reconciliation.SettleEarly | src/chutes-miner/chutes_miner/gepetto.py:1977-2008 | deletes and purges an orphaned row, schedules the deletion of a vanished instance, or leaves the row to the later branches |
| Reconciler.Reconciliation.SettleJob | src/chutes-miner/chutes_miner/gepetto.py:2018-2051 | a job's row is kept; it is tracked when its chute is in the catalogue, otherwise the chute is dropped |
| Reconciler.Reconciliation.SettleOutdated | src/chutes-miner/chutes_miner/gepetto.py:2053-2082 | an outdated row waits for a rolling update, or drops its chute once and goes on |
| Reconciler.Reconciliation.SettleServing | src/chutes-miner/chutes_miner/gepetto.py:2084-2172 | keeps, deletes or undeploys the row by its age, flags and Kubernetes job |
| Reconciler.Reconciliation.SettleByJob | src/chutes-miner/chutes_miner/gepetto.py:2121-2167 | a finished or missing job's row is undeployed unless the preflight vetoes, one that cannot be read is kept untracked, and a live one is tracked (`RowOutcome` says so on the whole pass) |
| Reconciler.Reconciliation.UndeployRow | src/chutes-miner/chutes_miner/gepetto.py:578-619 | the row goes and its committed instance is purged, unless vetoed |
| Reconciler.Reconciliation.ReconcileRow | src/chutes-miner/chutes_miner/gepetto.py:1944-2172 | one row does to the accumulators what its verdict says |
| Reconciler.Reconciliation.ReconcileRows | src/chutes-miner/chutes_miner/gepetto.py:1942-2174 | the row loop folds the verdicts |
| Reconciler.Reconciliation.PurgeUnclaimedInstances | src/chutes-miner/chutes_miner/gepetto.py:2176-2189 | purges the inventory entries no row claims by instance or config |
| Reconciler.Reconciliation.PurgeUntrackedJobs | src/chutes-miner/chutes_miner/gepetto.py:2191-2200 | schedules an undeploy for each untracked, non-legacy job |
| Reconciler.Reconciliation.ReconcileChutes | src/chutes-miner/chutes_miner/gepetto.py:2233-2263 | schedules the removal of stale chutes not yet scheduled |
| Reconciler.Reconciliation.FindNewChutes | src/chutes-miner/chutes_miner/gepetto.py:2265-2287 | schedules the creation of unknown chutes outside rolling updates |
| Reconciler.Reconciliation.CheckServers | src/chutes-miner/chutes_miner/gepetto.py:2289-2301 | schedules the removal of servers that left the cluster |
| Reconciler.RunPass | src/chutes-miner/chutes_miner/gepetto.py:1942-2307 | the pass from the row loop on computes the specified accumulators |
| Reconciler.PassFacts | src/chutes-miner/chutes_miner/gepetto.py:1942-2307 | which tasks a pass schedules, in terms of its inputs alone |
| Reconciler.RefreshFacts | src/chutes-miner/chutes_miner/gepetto.py:1947-1976 | a row takes over the instance that the last line with its config names, then verification and activity of its own line, with the times they change; nothing else in it changes |
| Reconciler.RowOutcome | src/chutes-miner/chutes_miner/gepetto.py:1944-2172 | what a pass makes of every row, from its fields, the 1800 and 300 second limits and the state of its job: whether it stays, is tracked, is undeployed, has its instance purged or reported lost, or drops its chute |
| Reconciler.PurgedIff | src/chutes-miner/chutes_miner/gepetto.py:1977-2189 | a pass purges exactly: the instance of an orphaned or vanished row, the committed instance of an undeployed one, and entries that no tracked row or job claims by instance and no row past the first checks by config, all at known validators only |
| Reconciler.ScheduledIff | src/chutes-miner/chutes_miner/gepetto.py:1999-2301 | exactly which tasks of each of the five kinds it schedules, from rows, catalogue, jobs, rolling updates and nodes |
| Reconciler.FoundInstanceSpared | src/chutes-miner/chutes_miner/gepetto.py:1947-1955 | an instance the pass found for a deployment that it undeploys is not purged in it |
| Reconciler.TrackedIsNeverPurged | src/chutes-miner/chutes_miner/gepetto.py:1942-2200 | a tracked deployment keeps its row, its job is not undeployed, no inventory entry matching it is unclaimed, and no purge names its instance |
| Reconciler.MatchedIsNeverPurged | src/chutes-miner/chutes_miner/gepetto.py:2176-2189 | an instance the inventory ties to a tracked row, by instance or config id, is purged exactly when another row carrying its id purges it, so never when ids are unique |
| Reconciler.UndeployedIffUntracked | src/chutes-miner/chutes_miner/gepetto.py:2191-2200 | a row's job is undeployed by the purge exactly when the row was not tracked |
| Reconciler.UnreadableStillUndeployed | src/chutes-miner/chutes_miner/gepetto.py:2127-2132 | a kept row whose job could not be read has that job undeployed |
| Reconciler.RemovalsAndCreationsDisjoint | src/chutes-miner/chutes_miner/gepetto.py:2030-2287 | each removal is scheduled at most once, and nothing is both removed and created |
| Reconciler.RollingLeftAlone | src/chutes-miner/chutes_miner/gepetto.py:2030-2287 | a chute in a rolling update is never created, and removed exactly when a job of it has no catalogue entry |
| Reconciler.TrackedKilledIff | src/chutes-miner/chutes_miner/gepetto.py:2018-2307 | a tracked deployment is deleted by a scheduled task exactly when its chute goes or its server left |
| Reconciler.KeptJobStillRemoved | src/chutes-miner/chutes_miner/gepetto.py:2024-2029 | a kept job whose chute is removed in the same pass |
| Reconciler.RowsTwice | src/chutes-miner/chutes_miner/gepetto.py:1942-2174 | the row loop run again in the same world keeps every row it left as it is, tracks the same deployments and instances, reports the same losses, and purges and undeploys nothing |
| Reconciler.PassTwice | src/chutes-miner/chutes_miner/gepetto.py:1942-2200 | a whole pass run again before its tasks keeps the rows, schedules the same undeploys, and purges only unclaimed inventory entries, all of the first pass's among them |
| Reconciler.HarmonyIsFixed | src/chutes-miner/chutes_miner/gepetto.py:1942-2307 | when rows, inventory, jobs, pods, catalogue and nodes agree the pass changes, purges, undeploys and schedules nothing |
| ChuteSync.Catalogue.SynchronizeChutes | src/chutes-miner/chutes_miner/gepetto.py:1793-1849 | asks for an update of exactly the lines that differ from their row in name or definition, and gives those handed out their version and definition |
| ChuteSync.Catalogue.UpdateImages | src/chutes-miner/chutes_miner/gepetto.py:1907-1940 | every row gets the first known image the catalogues tie to it |
| ChuteSync.FindImage | src/chutes-miner/chutes_miner/gepetto.py:1924-1939 | the search for that image |
| ChuteSync.FirstServingImage | src/chutes-miner/chutes_miner/gepetto.py:1907-1939 | a chute gets the image of the first catalogue line, of any chute, whose image is known and used by it |
| ChuteSync.NoImageIff | src/chutes-miner/chutes_miner/gepetto.py:1907-1939 | and keeps its own exactly when there is none |
| ChuteSync.ImagedRow | src/chutes-miner/chutes_miner/gepetto.py:1924-1939 | a row takes image and version from that record, and nothing else |
| ChuteSync.SettlesIff | src/chutes-miner/chutes_miner/gepetto.py:1818-1849 | a synchronised row asks for no further update exactly when the names agreed and the image record agrees with the definition |
| ChuteSync.WholePassIsFixed | src/chutes-miner/chutes_miner/gepetto.py:1783-2307 | when definitions, images and all other views agree the whole pass asks for no update and changes, purges, undeploys and schedules nothing |
| ResourceCache.FieldSplitsBackIff | src/chutes-common/chutes_common/redis.py:324-327 | a field splits back into its parts exactly when the name has no colon |
| ResourceCache.ColonNameMisread | src/chutes-common/chutes_common/redis.py:317-337 | a name with a colon makes a lookup return another object |
| ResourceCache.FilterMeansMatching | src/chutes-common/chutes_common/redis.py:317-337 | filtering fields is filtering the objects they stand for |
| ResourceCache.Client.ClearClusterResources | src/chutes-common/chutes_common/redis.py:364-382 | drops the cluster's hashes, sparing nodes unless asked |
| ResourceCache.Client.SetClusterResources | src/chutes-common/chutes_common/redis.py:221-238 | clears all but nodes, then stores the snapshot |
| ResourceCache.Client.UpdateResource | src/chutes-common/chutes_common/redis.py:240-259 | deletes or stores one field |
| ResourceCache.Client.GetResources | src/chutes-common/chutes_common/redis.py:261-337 | returns the fields the filters ask for |
| ResourceCache.WriteKindsReads | src/chutes-common/chutes_common/redis.py:221-238 | storing a snapshot adds its objects to each of the cluster's hashes and touches no other |
| ResourceCache.StepRefines | src/chutes-common/chutes_common/redis.py:221-382 | every operation moves every hash as the per-cluster map of objects does |
| ResourceCache.CacheRefinesViews | src/chutes-common/chutes_common/redis.py:221-382 | after any run a filtered query returns exactly the matching objects of the fold of snapshots and events (nodes accumulate over snapshots) |
| ResourceCache.OtherClustersUntouched | src/chutes-common/chutes_common/redis.py:221-382 | no operation on one cluster changes another's contents |
| ResourceCache.NoticeFacts | src/chutes-agent/chutes_agent/monitor.py:647-787 | a notice removes its object only for a deletion of one that is really gone; otherwise it stores it, and a lost one does nothing |
| ResourceCache.ReplayHarmless | src/chutes-agent/chutes_agent/monitor.py:540-709 | after any number of broken-off attempts, a full replay leaves the cache as one undisturbed processing would |
| ResourceCache.ReplayWithDeletionsIff | src/chutes-agent/chutes_agent/monitor.py:647-787 | with background deletions anywhere, the replay leaves what one processing leaves, less the fields whose last word was such a deletion; exactly when that changes anything |
| ResourceCache.LateDeletionDrops | src/chutes-agent/chutes_agent/monitor.py:745-787 | an object created after the reaper's check and before its report is missing after the replay, and there after one processing |
| ClusterHealth.HealsIff | src/chutes-monitor/chutes_monitor/api/cluster/router.py:142-169 | a cluster that is not healthy becomes healthy exactly by an accepted snapshot or a heartbeat admitted earlier |
| ClusterHealth.SnapshotHealth | src/chutes-common/chutes_common/redis.py:65-74 | the status is the first thing a snapshot writes |
| ClusterHealth.RemovalHealth | src/chutes-common/chutes_common/redis.py:76-87 | a removal drops the status exactly when it gets to its end, and touches no other status |
| ClusterHealth.RemovalClears | src/chutes-common/chutes_common/redis.py:76-87 | a removal that got to its end leaves none of the cluster's objects and all others |
| ClusterHealth.SnapshotRewritesCache | src/chutes-monitor/chutes_monitor/cluster_monitor.py:372-396 | a snapshot not cut short leaves the cache rewritten from it |
| ClusterHealth.RecoveryNeedsSnapshot | src/chutes-monitor/chutes_monitor/cluster_monitor.py:90-205 | in every run recovery has an accepted snapshot behind it, or a heartbeat admitted before the cluster became unhealthy, with the cluster healthy ever since; the snapshot rewrote the cache unless cut short |
| ClusterHealth.InterruptedSnapshotHeals | src/chutes-monitor/chutes_monitor/cluster_monitor.py:379-388 | a resync cut short after its first write heals the cluster and leaves its cache as it was |
| ClusterHealth.StaleAfterInterruption | src/chutes-monitor/chutes_monitor/cluster_monitor.py:379-388 | a pod the snapshot no longer lists stays |
| ClusterHealth.LateHeartbeatUndoesMark | src/chutes-monitor/chutes_monitor/api/cluster/router.py:146-169 | a mark between a heartbeat's check and its write is undone, with no snapshot |
| ClusterHealth.PassesFacts | src/chutes-monitor/chutes_monitor/cluster_monitor.py:74-205 | the health pass marks exactly the active and starting clusters whose heartbeat is missing or older than two intervals; the cleanup pass turns exactly those with a heartbeat older than 3600 seconds to ERROR; heartbeats and all other statuses stay |
| ClusterHealth.WritesFacts | src/chutes-common/chutes_common/redis.py:425-451 | a mark keeps heartbeat and failure count; a heartbeat that lands replaces the status |
| ClusterHealth.HealthPassLeavesFresh | src/chutes-monitor/chutes_monitor/cluster_monitor.py:90-139 | after a health pass a cluster is healthy exactly when it was and its heartbeat is at most two intervals old |
| ClusterHealth.Service.HandleHeartbeat | src/chutes-monitor/chutes_monitor/api/cluster/router.py:142-169 | accepted exactly for a known healthy cluster, whose status it replaces |
| ClusterHealth.Service.CheckAllClusters | src/chutes-monitor/chutes_monitor/cluster_monitor.py:74-139 | the loop marks exactly the stale healthy clusters, and leaves none healthy that is stale |
| ClusterHealth.Service.CleanupStaleClusters | src/chutes-monitor/chutes_monitor/cluster_monitor.py:176-205 | the loop turns exactly the clusters whose heartbeat is more than 3600 seconds old to ERROR, keeping it, and leaves the others |
| ClusterHealth.Service.MarkUnhealthy | src/chutes-common/chutes_common/redis.py:425-451 | marks the cluster, keeping its heartbeat and failure count |
| DeletePreflight.Operator.IsResourceStale | src/chutes-miner/chutes_miner/api/k8s/operator.py:2118-2168 | stale exactly when the live read fails other than by 404 or answers another version, and then the cluster is marked |
| DeletePreflight.Operator.Preflight | src/chutes-miner/chutes_miner/api/k8s/operator.py:1841-1886 | an allowed delete of a known deployment has a healthy cluster, a job cached there or nowhere, and no version mismatch; only staleness marks the cluster |
| DeletePreflight.AllowedIff | src/chutes-miner/chutes_miner/api/k8s/operator.py:1841-1886 | a delete is allowed exactly for an unknown deployment, or one on an active or starting cluster whose job is cached there or nowhere and not contradicted by the live cluster; it raises exactly for a job cached on several |
| DeletePreflight.StaleVetoLasts | src/chutes-miner/chutes_miner/api/k8s/operator.py:1866-1880 | after a veto for staleness no known deployment of that cluster can be deleted until the router accepts a full snapshot of it or a heartbeat admitted earlier lands |
| AgentLifecycle.Monitor.constructor | src/chutes-agent/chutes_agent/monitor.py:33-60 | a fresh agent is stopped with nothing running |
| AgentLifecycle.Monitor.StartMonitoringTasks | src/chutes-agent/chutes_agent/monitor.py:390-416 | one new watcher and one new heartbeat task run |
| AgentLifecycle.Monitor.StopMonitoringTasks | src/chutes-agent/chutes_agent/monitor.py:418-437 | cancels the known tasks and stops |
| AgentLifecycle.Monitor.AttemptConnection | src/chutes-agent/chutes_agent/monitor.py:167-216 | skips a running agent; otherwise connects, gives up and forgets the URL, or degrades |
| AgentLifecycle.Monitor.Start | src/chutes-agent/chutes_agent/monitor.py:256-266 | persists the URL and connects, or leaves a recovery loop pending and fails |
| AgentLifecycle.Monitor.StopAgent | src/chutes-agent/chutes_agent/monitor.py:268-318 | stops tasks and recovery; forgets the URL exactly when the cluster could be removed |
| AgentLifecycle.Monitor.AutomaticStart | src/chutes-agent/chutes_agent/monitor.py:143-165 | connects to the persisted URL, if a usable one is there |
| AgentLifecycle.Monitor.RecoveryAttempt | src/chutes-agent/chutes_agent/monitor.py:224-254 | one turn of the loop after its sleep |
| AgentLifecycle.StartsFacts | src/chutes-agent/chutes_agent/monitor.py:143-222 | a start request persists its URL and tries it; an automatic start tries exactly the usable persisted one; what each outcome leaves |
| AgentLifecycle.StopsFacts | src/chutes-agent/chutes_agent/monitor.py:268-318 | what a stop and a reboot leave of the agent |
| AgentLifecycle.RecoveryFacts | src/chutes-agent/chutes_agent/monitor.py:224-254 | a turn of the recovery loop tries the persisted URL, gives up on an unusable one, and goes on only while degraded and unreachable, after twice the delay up to 300 seconds |
| AgentLifecycle.RunKeeps | src/chutes-agent/chutes_agent/monitor.py:127-318 | over every run tasks are live exactly while running and in one set, degraded implies a pending recovery, and running or degraded a persisted URL |
| AgentLifecycle.StopIsFinalIff | src/chutes-agent/chutes_agent/monitor.py:268-318 | after a stop and until the next start request, the agent leaves STOPPED exactly when an automatic start that is not turned away is the first event to find a usable URL the stop left in place; recovery never connects |
| AgentLifecycle.RestartAfterStop | src/chutes-agent/chutes_agent/monitor.py:268-288 | a pod restart revives a stopped agent exactly when the stop could not remove the cluster and the URL is usable |
| AgentLifecycle.StartWhileRunning | src/chutes-agent/chutes_agent/monitor.py:195-216 | a start that gets the lock after another connection was made persists its URL without connecting to it |
| AgentLifecycle.RacingStarts | src/chutes-agent/chutes_agent/api/monitor/router.py:34-49 | two starts let in before either connects end up with different URLs in use and persisted |
| AgentLifecycle.DelayAfterFailures | src/chutes-agent/chutes_agent/monitor.py:235-254 | the delay after k failed retries is min(5 * 2^k, 300) |
| KubeConfigs.KubeConfig.AddClusterEntry | src/chutes-miner/chutes_miner/api/k8s/config.py:205-209 | replaces the entry of that name, at the end |
| KubeConfigs.KubeConfig.AddUserEntry | src/chutes-miner/chutes_miner/api/k8s/config.py:211-215 | likewise |
| KubeConfigs.KubeConfig.AddContextEntry | src/chutes-miner/chutes_miner/api/k8s/config.py:217-228 | adds the context with its cluster and user, and selects it when none is selected |
| KubeConfigs.KubeConfig.RemoveContext | src/chutes-miner/chutes_miner/api/k8s/config.py:230-252 | removes the context and its orphans; False exactly when there is none |
| KubeConfigs.KubeConfig.Merge | src/chutes-miner/chutes_miner/api/k8s/config.py:254-262 | the three loops merge the other config, which may be the same object |
| KubeConfigs.MergedShape | src/chutes-miner/chutes_miner/api/k8s/config.py:205-262 | what a merge leaves in each list and as current context, without the intermediate states |
| KubeConfigs.MergeIdempotent | src/chutes-miner/chutes_miner/api/k8s/config.py:254-262 | merging the same config again changes nothing, order included |
| KubeConfigs.PutAllShape | src/chutes-miner/chutes_miner/api/k8s/config.py:205-228 | entries not renewed keep their place in front, renewed ones follow in their own order |
| KubeConfigs.MergedFinds | src/chutes-miner/chutes_miner/api/k8s/config.py:193-262 | after a merge a name stands for the other config's last word on it, otherwise for what it stood for |
| KubeConfigs.RemovedFinds | src/chutes-miner/chutes_miner/api/k8s/config.py:230-252 | a removal takes exactly the context and the cluster and user no other context uses; every other name stands for what it did |
| KubeConfigs.RunConsistent | src/chutes-miner/chutes_miner/api/k8s/config.py:205-348 | from the empty config every sequence of merges, removals and selections keeps names unique, references listed, and a current context naming an existing one exactly when any exists |
| KubeConfigs.AddThenRemoveIff | src/chutes-miner/chutes_miner/api/k8s/config.py:217-252 | when exactly removing a context just added restores the config |
| KubeConfigs.AddThenRemoveOnRuns | src/chutes-miner/chutes_miner/api/k8s/config.py:217-252 | on every reachable config, adding and removing a context under three fresh names restores it exactly unless the selected context has the empty name and is not the first |
| KubeConfigs.EmptyNameDeselected | src/chutes-miner/chutes_miner/api/k8s/config.py:226-252 | two merges and a selection reach a config that comes back with another context selected |
| KubeConfigs.AddThenRemoveCanSelect | src/chutes-miner/chutes_miner/api/k8s/config.py:226-241 | a config with contexts and none selected comes back with one selected |
| KubeDocuments.ClusterPrintParse | src/chutes-miner/chutes_miner/api/k8s/config.py:19-34 | a printed cluster parses to itself less an empty certificate, and prints the same again |
| KubeDocuments.UserPrintParse | src/chutes-miner/chutes_miner/api/k8s/config.py:48-71 | a printed user parses to itself with empty fields dropped |
| KubeDocuments.PrintedKeys | src/chutes-miner/chutes_miner/api/k8s/config.py:28-191 | a document leaves out exactly the falsy certificate, credentials, preferences and current context, and a missing TLS flag |
| KubeDocuments.ContextPrintParse | src/chutes-miner/chutes_miner/api/k8s/config.py:83-107 | a printed context is accepted exactly when its names are listed, and gets the listed objects |
| KubeDocuments.ClusterParseIff | src/chutes-miner/chutes_miner/api/k8s/config.py:19-27 | exactly which documents are read as a cluster, and as which: certificate and TLS flag may be missing |
| KubeDocuments.UserParseIff | src/chutes-miner/chutes_miner/api/k8s/config.py:48-57 | likewise for a user: every credential may be missing |
| KubeDocuments.ContextParseIff | src/chutes-miner/chutes_miner/api/k8s/config.py:83-104 | likewise for a context: it gets the objects last listed under its names, and the namespace "default" without one |
| KubeDocuments.ParseIff | src/chutes-miner/chutes_miner/api/k8s/config.py:134-169 | a config is read from the three lists, in which every entry must parse, and four optional fields with their defaults |
| KubeDocuments.PrintParse | src/chutes-miner/chutes_miner/api/k8s/config.py:134-191 | a printed config is accepted exactly when its contexts' names are listed, and what it parses to |
| KubeDocuments.PrintParsePrint | src/chutes-miner/chutes_miner/api/k8s/config.py:134-191 | printing what was parsed gives the same document, stale context objects included |
| KubeDocuments.ParsedResolves | src/chutes-miner/chutes_miner/api/k8s/config.py:134-169 | in a parsed config every context carries the objects its names stand for |
| KubeDocuments.MultiClusterKubeConfig.constructor | src/chutes-miner/chutes_miner/api/k8s/config.py:268-273 | starts from the empty config |
| KubeDocuments.MultiClusterKubeConfig.Load | src/chutes-miner/chutes_miner/api/k8s/config.py:286-299 | merges the servers' configs up to the first that does not parse; fails exactly when one does not |
| KubeDocuments.MultiClusterKubeConfig.AddConfig | src/chutes-miner/chutes_miner/api/k8s/config.py:331-338 | one merge step |
| KubeDocuments.MultiClusterKubeConfig.RemoveConfig | src/chutes-miner/chutes_miner/api/k8s/config.py:340-342 | one removal step |
| KubeDocuments.MultiClusterKubeConfig.SetContext | src/chutes-miner/chutes_miner/api/k8s/config.py:344-348 | selects an existing context, or fails and changes nothing |
| KubeDocuments.LoadedPrints | src/chutes-miner/chutes_miner/api/k8s/config.py:265-348 | wherever loading stops and whatever follows, the owner's config is consistent and survives printing and parsing |

## Left out

- HTTP, Kubernetes, SQL and pub/sub: each external call is a step that succeeds or fails; the guarded UPDATE is one atomic step of a transaction.
- Signing, authorisation, the CLI, the ConfigMap worker, GraVal helpers, validator migrations, the audit exporter and the cache cleaner: no hard state.
- The gepetto variants under `ansible/`: older copies of the same design.
- Floating point: multipliers, costs and the factor 0.8 are exact rationals.
- `preempting_deploy` around its planner: the pending-deployment check, the server query, the launch token, and the undeploys and deploy that carry a plan out.
- `gpu_deleted`: it removes a GPU row even when the undeploy was vetoed, which breaks the exact count; only whole servers are removed in the allocator.
- A server id that returns after its removal, while a call that began before it still runs, is not part of the allocator's runs.
- Kubernetes objects left over by a failed deploy: claims are proved at the database level.
- A process that dies, or a task that is cancelled, between its claim and its end, and a clearing that itself fails: the stub row stays until `reconcile` removes it after 30 minutes.
- In `scale_chute`, exceptions other than a deployment failure, the preempting deploy it hands over to, and other tasks writing the tables meanwhile; the chute row does not change during the call.
- Scaler.Gepetto.ScaleChute: says nothing of the calls that never return, characterised by `EndlessIff`; deployment ids are fresh.
- SQL leaves the order of ties open; the models break ties stably.
- Reconciler.RunPass: tasks run after the pass; in the source they may start at the pass's next await, so `chute_deleted` and `instance_deleted` can change rows while it goes on.
- In `reconcile`, the warnings about GPUs, and how a row that was refreshed and then undeployed in the same transaction is committed.
- Reconciler.TrackedIsNeverPurged: assumes deployment and instance ids are unique among the rows, as do `RowOutcome` and `PurgedIff`; a catalogue holds one version of a chute, being keyed by its id.
- ChuteSync compares definitions where the source compares their hashes, and leaves out the config map an update also writes.
- Chute identifiers are triples, not strings joined with colons.
- Wildcard queries over all clusters: the union of the single-cluster ones.
- ResourceCache.Client.GetResources: requires fields that split into two parts, as every field written by the client does.
- `_restore_unhealthy_clusters`, which asks agents to resync under a throttle: it only triggers steps the model allows at any time.
- The agent's `_restart`, which takes no lock; watcher and heartbeat tasks that end by themselves after an error, which is what calls it; stripping of the URL file, failing file writes, and shutdown without a stop.
- `_ensure_recovery_loop` runs right after the lock is released with nothing in between on the event loop, so the model keeps both in one step.
- KubeDocuments.PrintParse: names and the current context are text; a document with another type there is rejected, while the source stores it unchecked.
- YAML text itself, numbers in it, and the database read of the kubeconfigs.
