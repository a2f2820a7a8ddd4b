/** `Gepetto.reconcile`: one pass that brings rows, validator inventory and Kubernetes jobs together. */
module Reconciler {
  import opened Options

  // A deployment row; times are in seconds.
  datatype Deployment = Deployment(
    id: string, validator: string, chuteId: string, version: string, serverId: string,
    instanceId: Option<string>, configId: Option<string>, isJob: bool, stub: bool, active: bool,
    verifiedAt: Option<int>, activatedAt: Option<int>, createdAt: int)

  // One validator's record of an instance of ours; entries are in the order the inventory lists them.
  datatype Entry = Entry(
    validator: string, instanceId: string, configId: Option<string>, verified: bool, active: bool)

  // A chute at a version: a row of the chutes table, or a line of a validator's catalogue.
  datatype Chute = Chute(validator: string, chuteId: string, version: string)

  // What the job cache says about a deployment's job.
  datatype KubeJob = NotFound | ReadError | Found(succeeded: nat, failed: nat, terminated: seq<bool>)

  datatype World = World(
    now: int,
    validators: set<string>,
    catalogue: seq<Chute>,
    inventory: seq<Entry>,
    updating: set<(string, string)>,
    jobs: set<string>,
    legacy: set<string>,
    podConfigs: Option<set<string>>,
    jobState: map<string, KubeJob>,
    vetoed: set<string>,
    nodes: set<string>)

  datatype Task =
    | InstanceDeleted(instanceId: string)
    | ChuteDeleted(chute: Chute)
    | Undeploy(deploymentId: string)
    | ChuteCreated(chute: Chute)
    | ServerDeleted(serverId: string)

  // The accumulators of a pass: surviving rows, the tracked sets, what was scheduled, purged and undeployed.
  datatype Pass = Pass(
    rows: seq<Deployment>, allDeployments: set<string>, allInstances: set<string>, allConfigs: set<string>,
    toRemove: set<Chute>, allChutes: set<Chute>, tasks: multiset<Task>,
    purged: set<(string, string)>, undeployed: set<string>)

  const START := Pass([], {}, {}, {}, {}, {}, multiset{}, {}, {})

  const STUB_SECONDS := 30 * 60
  const UNVERIFIED_SECONDS := 5 * 60

  // ---- Lookups ----

  function CatalogueVersion(catalogue: seq<Chute>, validator: string, chuteId: string): Option<string> {
    if catalogue == [] then None
    else if catalogue[0].validator == validator && catalogue[0].chuteId == chuteId then Some(catalogue[0].version)
    else CatalogueVersion(catalogue[1..], validator, chuteId)
  }

  function Lookup(inventory: seq<Entry>, validator: string, instanceId: string): Option<Entry> {
    if inventory == [] then None
    else if inventory[0].validator == validator && inventory[0].instanceId == instanceId then Some(inventory[0])
    else Lookup(inventory[1..], validator, instanceId)
  }

  // The map from config id to instance keeps the last entry written.
  function LastByConfig(inventory: seq<Entry>, configId: string): Option<Entry> {
    if inventory == [] then None
    else
      var n := |inventory| - 1;
      if inventory[n].configId == Some(configId) then Some(inventory[n]) else LastByConfig(inventory[..n], configId)
  }

  predicate Known(w: World, d: Deployment) {
    d.instanceId.Some? && Lookup(w.inventory, d.validator, d.instanceId.value).Some?
  }

  // ---- What becomes of a row ----

  function Identify(w: World, d: Deployment): Deployment {
    if d.configId.Some? && d.instanceId.None? then
      var e := LastByConfig(w.inventory, d.configId.value);
      if e.Some? && e.value.validator == d.validator then d.(instanceId := Some(e.value.instanceId)) else d
    else d
  }

  function Refresh(w: World, row: Deployment): Deployment {
    var d := Identify(w, row);
    if !Known(w, d) then d
    else
      var e := Lookup(w.inventory, d.validator, d.instanceId.value).value;
      var v := if e.verified && d.verifiedAt.None? then d.(verifiedAt := Some(w.now)) else d;
      if v.active != e.active then v.(active := e.active, activatedAt := Some(w.now), stub := false) else v
  }

  datatype Fate =
    | Orphan        // its config has no pod
    | InstanceGone  // the validator no longer lists its instance
    | JobKept | JobUnknown
    | RollingKept   // outdated, but its chute is in a rolling update
    | LegacyKept
    | Vanished      // not a stub and not in Kubernetes
    | StaleStub
    | Finished      // its job ended or is missing
    | Unreadable
    | Kept

  predicate Outdated(w: World, validator: string, chuteId: string, version: string) {
    CatalogueVersion(w.catalogue, validator, chuteId) != Some(version)
  }

  predicate Rolling(w: World, validator: string, chuteId: string) {
    (validator, chuteId) in w.updating
  }

  predicate InKubernetes(w: World, id: string) {
    id in w.jobs || id in w.legacy
  }

  function JobFate(w: World, id: string): Fate {
    var job := if id in w.jobState then w.jobState[id] else NotFound;
    match job
    case NotFound => Finished
    case ReadError => Unreadable
    case Found(succeeded, failed, terminated) =>
      if succeeded > 0 || failed > 0 || true in terminated then Finished else Kept
  }

  // The branches on a refreshed row, in order.
  function Judge(w: World, d: Deployment): Fate {
    if w.podConfigs.Some? && d.configId.Some? && d.configId.value !in w.podConfigs.value then Orphan
    else if d.instanceId.Some? && !Known(w, d) then InstanceGone
    else if d.isJob then
      if CatalogueVersion(w.catalogue, d.validator, d.chuteId).Some? then JobKept else JobUnknown
    else if Outdated(w, d.validator, d.chuteId, d.version) && Rolling(w, d.validator, d.chuteId) then RollingKept
    else if d.id in w.legacy then LegacyKept
    else if !d.stub && !InKubernetes(w, d.id) then Vanished
    else if (d.stub || d.instanceId.None?) && w.now - d.createdAt >= STUB_SECONDS then StaleStub
    else if !d.active || (d.verifiedAt.None? && w.now - d.createdAt >= UNVERIFIED_SECONDS) then JobFate(w, d.id)
    else Kept
  }

  predicate IsTracked(f: Fate) {
    f.JobKept? || f.RollingKept? || f.LegacyKept? || f.Kept?
  }

  predicate IsDeleted(f: Fate) {
    f.Orphan? || f.Vanished? || f.StaleStub?
  }

  // Whether handling the row schedules the removal of its chute.
  predicate DropsChute(w: World, d: Deployment) {
    var f := Judge(w, d);
    f.JobUnknown? || (!f.Orphan? && !f.InstanceGone? && !d.isJob && !f.RollingKept?
                      && Outdated(w, d.validator, d.chuteId, d.version))
  }

  function ChuteOf(d: Deployment): Chute {
    Chute(d.validator, d.chuteId, d.version)
  }

  function AddTo(s: set<string>, o: Option<string>): set<string> {
    if o.Some? then s + {o.value} else s
  }

  // The purge of a row's own instance, sent to validators we know.
  function PurgeOf(w: World, purged: set<(string, string)>, validator: string, instance: Option<string>):
    set<(string, string)>
  {
    if instance.Some? && validator in w.validators then purged + {(validator, instance.value)} else purged
  }

  function AddRemoval(p: Pass, c: Chute): Pass {
    if c in p.toRemove then p
    else p.(toRemove := p.toRemove + {c}, tasks := p.tasks + multiset{ChuteDeleted(c)})
  }

  // A row as refreshed, with what was decided about it, whether its chute is dropped, and the instance id that is
  // committed so far, which is what an undeploy in the middle of the loop goes by.
  datatype Verdict = Verdict(d: Deployment, fate: Fate, drops: bool, stored: Option<string>)

  function VerdictOn(w: World, row: Deployment): Verdict {
    var d := Refresh(w, row);
    Verdict(d, Judge(w, d), DropsChute(w, d), row.instanceId)
  }

  // An undeploy does nothing when its preflight vetoes.
  predicate Undeploys(w: World, v: Verdict) {
    v.fate.Finished? && v.d.id !in w.vetoed
  }

  // What a row's fate does to the accumulators.
  function Settle(w: World, p: Pass, v: Verdict): Pass {
    var d, f := v.d, v.fate;
    p.(rows := if IsDeleted(f) || Undeploys(w, v) then p.rows else p.rows + [d],
       allDeployments := if IsTracked(f) then p.allDeployments + {d.id} else p.allDeployments,
       allInstances := if IsTracked(f) || f.JobUnknown? then AddTo(p.allInstances, d.instanceId) else p.allInstances,
       tasks := if f.InstanceGone? then p.tasks + multiset{InstanceDeleted(d.instanceId.GetOr(""))} else p.tasks,
       purged := if f.Orphan? || f.Vanished? then PurgeOf(w, p.purged, d.validator, d.instanceId)
                 else if Undeploys(w, v) then PurgeOf(w, p.purged, d.validator, v.stored)
                 else p.purged,
       undeployed := if Undeploys(w, v) then p.undeployed + {d.id} else p.undeployed)
  }

  // Past the early branches the row's config is tracked too.
  function Record(w: World, p: Pass, v: Verdict): Pass {
    var q := if v.fate.Orphan? || v.fate.InstanceGone? then p else p.(allConfigs := AddTo(p.allConfigs, v.d.configId));
    Settle(w, if v.drops then AddRemoval(q, ChuteOf(v.d)) else q, v)
  }

  function RowStep(w: World, p: Pass, row: Deployment): Pass {
    Record(w, p, VerdictOn(w, row))
  }

  function Rows(w: World, p: Pass, rows: seq<Deployment>): Pass
    decreases |rows|
  {
    if rows == [] then p else Rows(w, RowStep(w, p, rows[0]), rows[1..])
  }

  // ---- The passes after the row loop ----

  predicate Unclaimed(p: Pass, e: Entry) {
    e.instanceId !in p.allInstances && (e.configId.None? || e.configId.value !in p.allConfigs)
  }

  function PurgeInstances(w: World, p: Pass): Pass {
    p.(purged := p.purged + set e | e in w.inventory && e.validator in w.validators && Unclaimed(p, e)
                              :: (e.validator, e.instanceId))
  }

  function Untracked(w: World, p: Pass): set<string> {
    (w.jobs + w.legacy) - p.allDeployments - w.legacy
  }

  function PurgeJobs(w: World, p: Pass): Pass {
    p.(tasks := p.tasks + UndeployTasks(Untracked(w, p)))
  }

  function UndeployTasks(ids: set<string>): multiset<Task> {
    multiset(set id | id in ids :: Undeploy(id))
  }

  lemma UndeployOneMore(ids: set<string>, id: string)
    requires id !in ids
    ensures UndeployTasks(ids + {id}) == UndeployTasks(ids) + multiset{Undeploy(id)}
  {
    assert (set x | x in ids + {id} :: Undeploy(x)) == (set x | x in ids :: Undeploy(x)) + {Undeploy(id)};
  }

  // A chute row the catalogue no longer has, outside a rolling update.
  predicate Stale(w: World, c: Chute) {
    Outdated(w, c.validator, c.chuteId, c.version) && !Rolling(w, c.validator, c.chuteId)
  }

  function ChuteStep(w: World, p: Pass, c: Chute): Pass {
    var q := p.(allChutes := p.allChutes + {c});
    if Stale(w, c) then AddRemoval(q, c) else q
  }

  function Chutes(w: World, p: Pass, chutes: seq<Chute>): Pass
    decreases |chutes|
  {
    if chutes == [] then p else Chutes(w, ChuteStep(w, p, chutes[0]), chutes[1..])
  }

  predicate IsNew(w: World, p: Pass, c: Chute) {
    c !in p.allChutes && !Rolling(w, c.validator, c.chuteId)
  }

  function NewChutes(w: World, p: Pass, catalogue: seq<Chute>): Pass
    decreases |catalogue|
  {
    if catalogue == [] then p
    else
      var q := if IsNew(w, p, catalogue[0]) then p.(tasks := p.tasks + multiset{ChuteCreated(catalogue[0])}) else p;
      NewChutes(w, q, catalogue[1..])
  }

  function Servers(w: World, p: Pass, servers: seq<string>): Pass
    decreases |servers|
  {
    if servers == [] then p
    else
      var q := if servers[0] !in w.nodes then p.(tasks := p.tasks + multiset{ServerDeleted(servers[0])}) else p;
      Servers(w, q, servers[1..])
  }

  function AfterRows(w: World, p: Pass, chutes: seq<Chute>, servers: seq<string>): Pass {
    var purged := PurgeJobs(w, PurgeInstances(w, p));
    Servers(w, NewChutes(w, Chutes(w, purged, chutes), w.catalogue), servers)
  }

  function Reconcile(w: World, rows: seq<Deployment>, chutes: seq<Chute>, servers: seq<string>): Pass {
    AfterRows(w, Rows(w, START, rows), chutes, servers)
  }

  lemma EarlyFates(w: World, d: Deployment)
    ensures Judge(w, d).Orphan? <==>
              w.podConfigs.Some? && d.configId.Some? && d.configId.value !in w.podConfigs.value
    ensures Judge(w, d).InstanceGone? <==>
              && !Judge(w, d).Orphan?
              && d.instanceId.Some? && Lookup(w.inventory, d.validator, d.instanceId.value).None?
  {
  }

  /** The pass as the source runs it, filling the accumulators in place. */
  class Reconciliation {
    var rows: seq<Deployment>
    var allDeployments: set<string>
    var allInstances: set<string>
    var allConfigs: set<string>
    var toRemove: set<Chute>
    var allChutes: set<Chute>
    var tasks: multiset<Task>
    var purged: set<(string, string)>
    var undeployed: set<string>

    constructor ()
      ensures Contents() == START
    {
      rows, allDeployments, allInstances, allConfigs := [], {}, {}, {};
      toRemove, allChutes, tasks, purged, undeployed := {}, {}, multiset{}, {}, {};
    }

    function Contents(): Pass
      reads this
    {
      Pass(rows, allDeployments, allInstances, allConfigs, toRemove, allChutes, tasks, purged, undeployed)
    }

    method ScheduleRemoval(c: Chute)
      modifies this
      ensures Contents() == AddRemoval(old(Contents()), c)
    {
      if c !in toRemove {
        toRemove := toRemove + {c};
        tasks := tasks + multiset{ChuteDeleted(c)};
      }
    }

    method Track(d: Deployment)
      modifies this
      ensures Contents() == old(Contents()).(allDeployments := old(allDeployments) + {d.id},
                                             allInstances := AddTo(old(allInstances), d.instanceId))
    {
      allDeployments := allDeployments + {d.id};
      if d.instanceId.Some? {
        allInstances := allInstances + {d.instanceId.value};
      }
    }

    method PurgeOwn(w: World, validator: string, instance: Option<string>)
      modifies `purged
      ensures purged == PurgeOf(w, old(purged), validator, instance)
    {
      if instance.Some? && validator in w.validators {
        purged := purged + {(validator, instance.value)};
      }
    }

    // False stands for the preflight's veto.
    method UndeployRow(w: World, v: Verdict) returns (gone: bool)
      requires v.fate.Finished?
      modifies `purged, `undeployed
      ensures gone <==> Undeploys(w, v)
      ensures purged == if gone then PurgeOf(w, old(purged), v.d.validator, v.stored) else old(purged)
      ensures undeployed == if gone then old(undeployed) + {v.d.id} else old(undeployed)
    {
      if v.d.id in w.vetoed {
        return false;
      }
      PurgeOwn(w, v.d.validator, v.stored);
      undeployed := undeployed + {v.d.id};
      return true;
    }

    // The early branches: orphans, and rows whose instance is gone.
    method SettleEarly(w: World, v: Verdict) returns (settled: bool)
      requires v.fate == Judge(w, v.d)
      modifies this
      ensures settled <==> v.fate.Orphan? || v.fate.InstanceGone?
      ensures Contents() == if settled then Settle(w, old(Contents()), v) else old(Contents())
    {
      EarlyFates(w, v.d);
      if w.podConfigs.Some? && v.d.configId.Some? && v.d.configId.value !in w.podConfigs.value {
        PurgeOwn(w, v.d.validator, v.d.instanceId);
        return true;
      }
      if v.d.instanceId.Some? && Lookup(w.inventory, v.d.validator, v.d.instanceId.value).None? {
        ScheduleLoss(w, v);
        return true;
      }
      return false;
    }

    method ScheduleLoss(w: World, v: Verdict)
      requires v.fate.InstanceGone? && v.d.instanceId.Some?
      modifies `tasks, `rows
      ensures Contents() == Settle(w, old(Contents()), v)
    {
      tasks := tasks + multiset{InstanceDeleted(v.d.instanceId.value)};
      rows := rows + [v.d];
    }

    // A job's row stays whatever its version; only its chute may go.
    method SettleJob(w: World, v: Verdict)
      requires v.fate == Judge(w, v.d) && v.drops == DropsChute(w, v.d)
      requires v.d.isJob && !v.fate.Orphan? && !v.fate.InstanceGone?
      modifies this
      ensures Contents() == Settle(w, if v.drops then AddRemoval(old(Contents()), ChuteOf(v.d)) else old(Contents()), v)
    {
      var d := v.d;
      rows := rows + [d];
      if d.instanceId.Some? {
        allInstances := allInstances + {d.instanceId.value};
      }
      if CatalogueVersion(w.catalogue, d.validator, d.chuteId).Some? {
        allDeployments := allDeployments + {d.id};
      } else {
        ScheduleRemoval(ChuteOf(d));
      }
    }

    // An outdated row waits for its chute's rolling update, or drops the chute and goes on.
    method SettleOutdated(w: World, v: Verdict) returns (waits: bool)
      requires v.fate == Judge(w, v.d) && v.drops == DropsChute(w, v.d)
      requires !v.d.isJob && !v.fate.Orphan? && !v.fate.InstanceGone?
      modifies this
      ensures waits <==> v.fate.RollingKept?
      ensures Contents() == if waits then Settle(w, old(Contents()), v)
                            else if v.drops then AddRemoval(old(Contents()), ChuteOf(v.d))
                            else old(Contents())
    {
      var d := v.d;
      if Outdated(w, d.validator, d.chuteId, d.version) {
        if Rolling(w, d.validator, d.chuteId) {
          rows := rows + [d];
          Track(d);
          return true;
        }
        ScheduleRemoval(ChuteOf(d));
      }
      return false;
    }

    // The row against its job in Kubernetes.
    method SettleServing(w: World, v: Verdict)
      requires v.fate == Judge(w, v.d)
      requires !v.d.isJob && !v.fate.Orphan? && !v.fate.InstanceGone? && !v.fate.RollingKept?
      modifies this
      ensures Contents() == Settle(w, old(Contents()), v)
    {
      var d := v.d;
      if d.id in w.legacy {
        rows := rows + [d];
        Track(d);
        return;
      }
      if !d.stub && !InKubernetes(w, d.id) {
        PurgeOwn(w, d.validator, d.instanceId);
        return;
      }
      var age := w.now - d.createdAt;
      if (d.stub || d.instanceId.None?) && age >= STUB_SECONDS {
        return;
      }
      if !d.active || (d.verifiedAt.None? && age >= UNVERIFIED_SECONDS) {
        SettleByJob(w, v);
        return;
      }
      rows := rows + [d];
      Track(d);
    }

    // The row of a deployment that is not active or not verified, by the state of its job.
    method SettleByJob(w: World, v: Verdict)
      requires v.fate == JobFate(w, v.d.id)
      modifies this
      ensures Contents() == Settle(w, old(Contents()), v)
    {
      var outcome := JobFate(w, v.d.id);
      if outcome.Finished? {
        var gone := UndeployRow(w, v);
        if gone {
          return;
        }
      }
      rows := rows + [v.d];
      if outcome.Kept? {
        Track(v.d);
      }
    }

    method ReconcileRow(w: World, row: Deployment)
      modifies this
      ensures Contents() == RowStep(w, old(Contents()), row)
    {
      var v := VerdictOn(w, row);
      var settled := SettleEarly(w, v);
      if settled {
        return;
      }
      if v.d.configId.Some? {
        allConfigs := allConfigs + {v.d.configId.value};
      }
      if v.d.isJob {
        SettleJob(w, v);
        return;
      }
      var waits := SettleOutdated(w, v);
      if !waits {
        SettleServing(w, v);
      }
    }

    method ReconcileRows(w: World, deployments: seq<Deployment>)
      modifies this
      ensures Contents() == Rows(w, old(Contents()), deployments)
    {
      for i := 0 to |deployments|
        invariant Rows(w, Contents(), deployments[i..]) == Rows(w, old(Contents()), deployments)
      {
        assert deployments[i..][1..] == deployments[i + 1..];
        ReconcileRow(w, deployments[i]);
      }
    }

    method PurgeUnclaimedInstances(w: World)
      modifies this
      ensures Contents() == PurgeInstances(w, old(Contents()))
    {
      ghost var before := Contents();
      for i := 0 to |w.inventory|
        invariant Contents() == before.(purged := purged)
        invariant purged == before.purged
                            + set e | e in w.inventory[..i] && e.validator in w.validators && Unclaimed(before, e)
                                :: (e.validator, e.instanceId)
      {
        var e := w.inventory[i];
        assert w.inventory[..i + 1] == w.inventory[..i] + [e];
        if e.validator in w.validators {
          if e.instanceId !in allInstances && (e.configId.None? || e.configId.value !in allConfigs) {
            purged := purged + {(e.validator, e.instanceId)};
          }
        }
      }
      assert w.inventory[..|w.inventory|] == w.inventory;
    }

    method PurgeUntrackedJobs(w: World)
      modifies this
      ensures Contents() == PurgeJobs(w, old(Contents()))
    {
      ghost var before := Contents();
      var all := (w.jobs + w.legacy) - allDeployments;
      var left := all;
      while left != {}
        invariant Contents() == before.(tasks := tasks)
        invariant left <= all
        invariant tasks == before.tasks + UndeployTasks(all - left - w.legacy)
        decreases left
      {
        var id :| id in left;
        ghost var done := all - left - w.legacy;
        left := left - {id};
        if id !in w.legacy {
          UndeployOneMore(done, id);
          assert all - left - w.legacy == done + {id};
          tasks := tasks + multiset{Undeploy(id)};
        } else {
          assert all - left - w.legacy == done;
        }
      }
      assert all - left - w.legacy == Untracked(w, before);
    }

    method ReconcileChutes(w: World, chutes: seq<Chute>)
      modifies this
      ensures Contents() == Chutes(w, old(Contents()), chutes)
    {
      for i := 0 to |chutes|
        invariant Chutes(w, Contents(), chutes[i..]) == Chutes(w, old(Contents()), chutes)
      {
        var c := chutes[i];
        assert chutes[i..][1..] == chutes[i + 1..];
        ghost var before := Contents();
        allChutes := allChutes + {c};
        if c in toRemove {
          continue;
        }
        if Outdated(w, c.validator, c.chuteId, c.version) {
          if Rolling(w, c.validator, c.chuteId) {
            continue;
          }
          ScheduleRemoval(c);
        }
      }
    }

    method FindNewChutes(w: World)
      modifies this
      ensures Contents() == NewChutes(w, old(Contents()), w.catalogue)
    {
      for i := 0 to |w.catalogue|
        invariant NewChutes(w, Contents(), w.catalogue[i..]) == NewChutes(w, old(Contents()), w.catalogue)
      {
        var c := w.catalogue[i];
        assert w.catalogue[i..][1..] == w.catalogue[i + 1..];
        if c !in allChutes {
          if Rolling(w, c.validator, c.chuteId) {
            continue;
          }
          tasks := tasks + multiset{ChuteCreated(c)};
        }
      }
    }

    method CheckServers(w: World, servers: seq<string>)
      modifies this
      ensures Contents() == Servers(w, old(Contents()), servers)
    {
      for i := 0 to |servers|
        invariant Servers(w, Contents(), servers[i..]) == Servers(w, old(Contents()), servers)
      {
        assert servers[i..][1..] == servers[i + 1..];
        if servers[i] !in w.nodes {
          tasks := tasks + multiset{ServerDeleted(servers[i])};
        }
      }
    }
  }

  method RunPass(w: World, rows: seq<Deployment>, chutes: seq<Chute>, servers: seq<string>) returns (p: Pass)
    ensures p == Reconcile(w, rows, chutes, servers)
  {
    var r := new Reconciliation();
    r.ReconcileRows(w, rows);
    r.PurgeUnclaimedInstances(w);
    r.PurgeUntrackedJobs(w);
    r.ReconcileChutes(w, chutes);
    r.FindNewChutes(w);
    r.CheckServers(w, servers);
    p := r.Contents();
  }

  // ---- What the row loop leaves behind ----

  function Verdicts(w: World, rows: seq<Deployment>): seq<Verdict> {
    seq(|rows|, i requires 0 <= i < |rows| => VerdictOn(w, rows[i]))
  }

  function RecordAll(w: World, p: Pass, vs: seq<Verdict>): Pass
    decreases |vs|
  {
    if vs == [] then p else RecordAll(w, Record(w, p, vs[0]), vs[1..])
  }

  lemma {:induction false} RowsAreVerdicts(w: World, p: Pass, rows: seq<Deployment>)
    ensures Rows(w, p, rows) == RecordAll(w, p, Verdicts(w, rows))
    decreases |rows|
  {
    if rows != [] {
      assert Verdicts(w, rows)[1..] == Verdicts(w, rows[1..]) && Verdicts(w, rows)[0] == VerdictOn(w, rows[0]);
      RowsAreVerdicts(w, RowStep(w, p, rows[0]), rows[1..]);
    }
  }

  ghost predicate DroppedBy(vs: seq<Verdict>, c: Chute) {
    exists v :: v in vs && v.drops && ChuteOf(v.d) == c
  }

  ghost predicate GoneIn(vs: seq<Verdict>, instance: string) {
    exists v :: v in vs && v.fate.InstanceGone? && v.d.instanceId.GetOr("") == instance
  }

  // Each removal is scheduled once, and exactly those in the set are.
  ghost predicate OncePerChute(p: Pass) {
    forall c :: p.tasks[ChuteDeleted(c)] == if c in p.toRemove then 1 else 0
  }

  lemma HeadOrRest(vs: seq<Verdict>)
    requires vs != []
    ensures forall v :: v in vs <==> v == vs[0] || v in vs[1..]
  {
    assert vs == [vs[0]] + vs[1..];
  }

  lemma RecordGrows(w: World, p: Pass, v: Verdict)
    ensures var q := Record(w, p, v);
            && q.allDeployments == (if IsTracked(v.fate) then p.allDeployments + {v.d.id} else p.allDeployments)
            && p.allInstances <= q.allInstances && p.allConfigs <= q.allConfigs && q.allChutes == p.allChutes
            && (forall d :: d in p.rows ==> d in q.rows)
  {
  }

  ghost predicate TrackedIn(vs: seq<Verdict>, id: string) {
    exists v :: v in vs && IsTracked(v.fate) && v.d.id == id
  }

  lemma {:induction false} VerdictsGrow(w: World, p: Pass, vs: seq<Verdict>)
    ensures var r := RecordAll(w, p, vs);
            && (forall id :: id in r.allDeployments <==> id in p.allDeployments || TrackedIn(vs, id))
            && p.allInstances <= r.allInstances && p.allConfigs <= r.allConfigs
            && r.allChutes == p.allChutes
            && (forall d :: d in p.rows ==> d in r.rows)
    decreases |vs|
  {
    if vs != [] {
      RecordGrows(w, p, vs[0]);
      HeadOrRest(vs);
      VerdictsGrow(w, Record(w, p, vs[0]), vs[1..]);
    }
  }

  lemma {:induction false} VerdictStays(w: World, p: Pass, vs: seq<Verdict>, v: Verdict)
    requires v in vs && !IsDeleted(v.fate) && !Undeploys(w, v)
    ensures v.d in RecordAll(w, p, vs).rows
    decreases |vs|
  {
    var q := Record(w, p, vs[0]);
    if v == vs[0] {
      VerdictsGrow(w, q, vs[1..]);
    } else {
      VerdictStays(w, q, vs[1..], v);
    }
  }

  lemma {:induction false} VerdictTracked(w: World, p: Pass, vs: seq<Verdict>, v: Verdict)
    requires v in vs && IsTracked(v.fate)
    ensures var r := RecordAll(w, p, vs);
            && (v.d.instanceId.Some? ==> v.d.instanceId.value in r.allInstances)
            && (v.d.configId.Some? ==> v.d.configId.value in r.allConfigs)
    decreases |vs|
  {
    var q := Record(w, p, vs[0]);
    if v == vs[0] {
      VerdictsGrow(w, q, vs[1..]);
    } else {
      VerdictTracked(w, q, vs[1..], v);
    }
  }

  lemma RecordRemoves(w: World, p: Pass, v: Verdict)
    requires OncePerChute(p)
    ensures OncePerChute(Record(w, p, v))
    ensures forall c :: c in Record(w, p, v).toRemove <==> c in p.toRemove || (v.drops && ChuteOf(v.d) == c)
  {
  }

  lemma {:induction false} VerdictsRemove(w: World, p: Pass, vs: seq<Verdict>)
    requires OncePerChute(p)
    ensures OncePerChute(RecordAll(w, p, vs))
    ensures forall c :: c in RecordAll(w, p, vs).toRemove <==> c in p.toRemove || DroppedBy(vs, c)
    decreases |vs|
  {
    if vs != [] {
      RecordRemoves(w, p, vs[0]);
      HeadOrRest(vs);
      VerdictsRemove(w, Record(w, p, vs[0]), vs[1..]);
    }
  }

  lemma RecordSchedules(w: World, p: Pass, v: Verdict)
    ensures var q := Record(w, p, v);
            && (forall i :: InstanceDeleted(i) in q.tasks <==>
                  InstanceDeleted(i) in p.tasks || (v.fate.InstanceGone? && v.d.instanceId.GetOr("") == i))
            && (forall t: Task :: t.Undeploy? || t.ChuteCreated? || t.ServerDeleted? ==> q.tasks[t] == p.tasks[t])
  {
  }

  lemma {:induction false} VerdictsSchedule(w: World, p: Pass, vs: seq<Verdict>)
    ensures forall i :: InstanceDeleted(i) in RecordAll(w, p, vs).tasks <==>
              InstanceDeleted(i) in p.tasks || GoneIn(vs, i)
    ensures forall t: Task :: t.Undeploy? || t.ChuteCreated? || t.ServerDeleted? ==>
              RecordAll(w, p, vs).tasks[t] == p.tasks[t]
    decreases |vs|
  {
    if vs != [] {
      RecordSchedules(w, p, vs[0]);
      HeadOrRest(vs);
      VerdictsSchedule(w, Record(w, p, vs[0]), vs[1..]);
    }
  }

  // Whether handling the row purges the instance.
  predicate Purges(w: World, v: Verdict, x: (string, string)) {
    && x.0 == v.d.validator && x.0 in w.validators
    && (if v.fate.Orphan? || v.fate.Vanished? then v.d.instanceId == Some(x.1)
        else Undeploys(w, v) && v.stored == Some(x.1))
  }

  lemma RecordPurges(w: World, p: Pass, v: Verdict, x: (string, string))
    ensures x in Record(w, p, v).purged <==> x in p.purged || Purges(w, v, x)
  {
  }

  ghost predicate PurgedIn(w: World, vs: seq<Verdict>, x: (string, string)) {
    exists v :: v in vs && Purges(w, v, x)
  }

  ghost predicate UndeployedIn(w: World, vs: seq<Verdict>, id: string) {
    exists v :: v in vs && Undeploys(w, v) && v.d.id == id
  }

  // What the row loop purges and undeploys.
  lemma {:induction false} VerdictsPurge(w: World, p: Pass, vs: seq<Verdict>, x: (string, string))
    ensures x in RecordAll(w, p, vs).purged <==> x in p.purged || PurgedIn(w, vs, x)
    decreases |vs|
  {
    if vs != [] {
      HeadOrRest(vs);
      RecordPurges(w, p, vs[0], x);
      VerdictsPurge(w, Record(w, p, vs[0]), vs[1..], x);
    }
  }

  lemma {:induction false} VerdictsUndeploy(w: World, p: Pass, vs: seq<Verdict>)
    ensures forall id :: id in RecordAll(w, p, vs).undeployed <==> id in p.undeployed || UndeployedIn(w, vs, id)
    decreases |vs|
  {
    if vs != [] {
      HeadOrRest(vs);
      VerdictsUndeploy(w, Record(w, p, vs[0]), vs[1..]);
    }
  }

  // ---- The chute and server loops ----

  lemma {:induction false} ChutesFacts(w: World, p: Pass, chutes: seq<Chute>)
    requires OncePerChute(p)
    ensures var r := Chutes(w, p, chutes);
            && OncePerChute(r)
            && r.allChutes == p.allChutes + (set c | c in chutes)
            && (forall c :: c in r.toRemove <==>
                  c in p.toRemove || (c in chutes && Stale(w, c)))
            && (forall t: Task :: !t.ChuteDeleted? ==> r.tasks[t] == p.tasks[t])
            && r == p.(allChutes := r.allChutes, toRemove := r.toRemove, tasks := r.tasks)
    decreases |chutes|
  {
    if chutes != [] {
      assert chutes == [chutes[0]] + chutes[1..];
      ChutesFacts(w, ChuteStep(w, p, chutes[0]), chutes[1..]);
    }
  }

  lemma {:induction false} NewChutesFacts(w: World, p: Pass, catalogue: seq<Chute>)
    ensures var r := NewChutes(w, p, catalogue);
            && (forall c :: ChuteCreated(c) in r.tasks <==>
                ChuteCreated(c) in p.tasks || (c in catalogue && IsNew(w, p, c)))
            && (forall t: Task :: !t.ChuteCreated? ==> r.tasks[t] == p.tasks[t])
            && r == p.(tasks := r.tasks)
    decreases |catalogue|
  {
    if catalogue != [] {
      assert catalogue == [catalogue[0]] + catalogue[1..];
      var q := if IsNew(w, p, catalogue[0]) then p.(tasks := p.tasks + multiset{ChuteCreated(catalogue[0])}) else p;
      NewChutesFacts(w, q, catalogue[1..]);
      forall c ensures IsNew(w, q, c) == IsNew(w, p, c) {
      }
    }
  }

  lemma {:induction false} ServersFacts(w: World, p: Pass, servers: seq<string>)
    ensures var r := Servers(w, p, servers);
            && (forall s :: ServerDeleted(s) in r.tasks <==>
                ServerDeleted(s) in p.tasks || (s in servers && s !in w.nodes))
            && (forall t: Task :: !t.ServerDeleted? ==> r.tasks[t] == p.tasks[t])
            && r == p.(tasks := r.tasks)
    decreases |servers|
  {
    if servers != [] {
      assert servers == [servers[0]] + servers[1..];
      var q := if servers[0] !in w.nodes then p.(tasks := p.tasks + multiset{ServerDeleted(servers[0])}) else p;
      ServersFacts(w, q, servers[1..]);
    }
  }

  ghost predicate RowTasksOnly(p: Pass) {
    forall t: Task :: t.Undeploy? || t.ChuteCreated? || t.ServerDeleted? ==> t !in p.tasks
  }

  lemma PurgeJobsFacts(w: World, p: Pass)
    requires RowTasksOnly(p)
    ensures var a := PurgeJobs(w, PurgeInstances(w, p));
            && (forall id :: Undeploy(id) in a.tasks <==> id in Untracked(w, p))
            && (forall t: Task :: !t.Undeploy? ==> a.tasks[t] == p.tasks[t])
            && a == p.(purged := PurgeInstances(w, p).purged, tasks := a.tasks)
  {
  }

  // What the passes after the row loop remove.
  lemma AfterRemovals(w: World, r: Pass, chutes: seq<Chute>, servers: seq<string>)
    requires OncePerChute(r) && RowTasksOnly(r) && r.allChutes == {}
    ensures var p := AfterRows(w, r, chutes, servers);
            && OncePerChute(p)
            && (forall c :: c in p.toRemove <==> c in r.toRemove || (c in chutes && Stale(w, c)))
            && p.rows == r.rows && p.undeployed == r.undeployed && p.allDeployments == r.allDeployments
            && p.purged == PurgeInstances(w, r).purged
  {
    var a := PurgeJobs(w, PurgeInstances(w, r));
    var b := Chutes(w, a, chutes);
    PurgeJobsFacts(w, r);
    ChutesFacts(w, a, chutes);
    NewChutesFacts(w, b, w.catalogue);
    ServersFacts(w, NewChutes(w, b, w.catalogue), servers);
  }

  // The creations they schedule.
  lemma AfterCreations(w: World, r: Pass, chutes: seq<Chute>, servers: seq<string>, c: Chute)
    requires OncePerChute(r) && RowTasksOnly(r) && r.allChutes == {}
    ensures ChuteCreated(c) in AfterRows(w, r, chutes, servers).tasks <==>
              c in w.catalogue && c !in chutes && !Rolling(w, c.validator, c.chuteId)
  {
    var a := PurgeJobs(w, PurgeInstances(w, r));
    var b := Chutes(w, a, chutes);
    PurgeJobsFacts(w, r);
    ChutesFacts(w, a, chutes);
    NewChutesFacts(w, b, w.catalogue);
    ServersFacts(w, NewChutes(w, b, w.catalogue), servers);
  }

  // The other tasks they schedule.
  lemma AfterFacts(w: World, r: Pass, chutes: seq<Chute>, servers: seq<string>)
    requires OncePerChute(r) && RowTasksOnly(r) && r.allChutes == {}
    ensures var p := AfterRows(w, r, chutes, servers);
            && (forall i :: InstanceDeleted(i) in p.tasks <==> InstanceDeleted(i) in r.tasks)
            && (forall id :: Undeploy(id) in p.tasks <==> id in Untracked(w, r))
            && (forall s :: ServerDeleted(s) in p.tasks <==> s in servers && s !in w.nodes)
  {
    var a := PurgeJobs(w, PurgeInstances(w, r));
    var b := Chutes(w, a, chutes);
    PurgeJobsFacts(w, r);
    ChutesFacts(w, a, chutes);
    NewChutesFacts(w, b, w.catalogue);
    ServersFacts(w, NewChutes(w, b, w.catalogue), servers);
  }

  // What a pass over rows with these verdicts schedules.
  ghost predicate Schedules(w: World, vs: seq<Verdict>, chutes: seq<Chute>, servers: seq<string>, p: Pass) {
    && OncePerChute(p)
    && (forall c :: c in p.toRemove <==> DroppedBy(vs, c) || (c in chutes && Stale(w, c)))
    && (forall c :: ChuteCreated(c) in p.tasks <==>
          c in w.catalogue && c !in chutes && !Rolling(w, c.validator, c.chuteId))
    && (forall i :: InstanceDeleted(i) in p.tasks <==> GoneIn(vs, i))
    && (forall id :: Undeploy(id) in p.tasks <==> id in Untracked(w, RecordAll(w, START, vs)))
    && (forall s :: ServerDeleted(s) in p.tasks <==> s in servers && s !in w.nodes)
  }

  /** What a whole pass schedules, in terms of its inputs alone. */
  lemma PassFacts(w: World, rows: seq<Deployment>, chutes: seq<Chute>, servers: seq<string>)
    ensures Schedules(w, Verdicts(w, rows), chutes, servers, Reconcile(w, rows, chutes, servers))
    ensures Reconcile(w, rows, chutes, servers) == AfterRows(w, RecordAll(w, START, Verdicts(w, rows)), chutes, servers)
    ensures OncePerChute(RecordAll(w, START, Verdicts(w, rows))) && RowTasksOnly(RecordAll(w, START, Verdicts(w, rows)))
    ensures RecordAll(w, START, Verdicts(w, rows)).allChutes == {}
  {
    var vs := Verdicts(w, rows);
    RowsAreVerdicts(w, START, rows);
    VerdictsGrow(w, START, vs);
    VerdictsRemove(w, START, vs);
    VerdictsSchedule(w, START, vs);
    AfterRemovals(w, RecordAll(w, START, vs), chutes, servers);
    AfterFacts(w, RecordAll(w, START, vs), chutes, servers);
    forall c {
      AfterCreations(w, RecordAll(w, START, vs), chutes, servers, c);
    }
  }

  // ---- Main results ----

  // Ids and instance ids are not shared between rows.
  ghost predicate UniqueRows(vs: seq<Verdict>) {
    forall a, b :: a in vs && b in vs && a != b ==>
      a.d.id != b.d.id && (a.d.instanceId.Some? ==> a.d.instanceId != b.d.instanceId)
  }

  // A line of the inventory is the row's instance: by its id, or by its config.
  predicate Matches(d: Deployment, e: Entry) {
    d.instanceId == Some(e.instanceId) || (d.configId.Some? && d.configId == e.configId)
  }

  // A committed instance id is never changed.
  lemma StoredKept(w: World, rows: seq<Deployment>, v: Verdict)
    requires v in Verdicts(w, rows) && v.stored.Some?
    ensures v.d.instanceId == v.stored
  {
    var i :| 0 <= i < |rows| && Verdicts(w, rows)[i] == v;
  }

  // No purge of the row loop names an instance that only a tracked row carries.
  lemma TrackedNotPurged(w: World, rows: seq<Deployment>, v: Verdict, x: (string, string))
    requires IsTracked(v.fate)
    requires forall u :: u in Verdicts(w, rows) && u.d.instanceId == Some(x.1) ==> u == v
    ensures !PurgedIn(w, Verdicts(w, rows), x)
  {
    forall u | u in Verdicts(w, rows) ensures !Purges(w, u, x) {
      if u.stored.Some? {
        StoredKept(w, rows, u);
      }
    }
  }

  lemma PurgedAfterwards(w: World, rows: seq<Deployment>, chutes: seq<Chute>, servers: seq<string>, x: (string, string))
    ensures x in Reconcile(w, rows, chutes, servers).purged <==>
              || PurgedIn(w, Verdicts(w, rows), x)
              || exists e :: e in w.inventory && e.validator in w.validators && x == (e.validator, e.instanceId)
                             && Unclaimed(Rows(w, START, rows), e)
  {
    var r := RecordAll(w, START, Verdicts(w, rows));
    PassFacts(w, rows, chutes, servers);
    RowsAreVerdicts(w, START, rows);
    AfterRemovals(w, r, chutes, servers);
    VerdictsPurge(w, START, Verdicts(w, rows), x);
  }

  // The inventory lists each instance once.
  ghost predicate OneEntryPerInstance(w: World) {
    forall a, b | a in w.inventory && b in w.inventory ::
      a.validator == b.validator && a.instanceId == b.instanceId ==> a == b
  }

  lemma TrackedIsClaimed(w: World, vs: seq<Verdict>, v: Verdict, e: Entry)
    requires v in vs && IsTracked(v.fate) && Matches(v.d, e)
    ensures !Unclaimed(RecordAll(w, START, vs), e)
  {
    VerdictTracked(w, START, vs, v);
  }

  // The pairs that carry a tracked row's instance id are purged by neither pass.
  lemma OwnInstanceNotPurged(w: World, rows: seq<Deployment>, chutes: seq<Chute>, servers: seq<string>, v: Verdict,
                             x: (string, string))
    requires UniqueRows(Verdicts(w, rows))
    requires v in Verdicts(w, rows) && IsTracked(v.fate) && v.d.instanceId == Some(x.1)
    ensures x !in Reconcile(w, rows, chutes, servers).purged
  {
    PurgedAfterwards(w, rows, chutes, servers, x);
    RowsAreVerdicts(w, START, rows);
    TrackedNotPurged(w, rows, v, x);
    forall e | e in w.inventory && x == (e.validator, e.instanceId) ensures !Unclaimed(Rows(w, START, rows), e) {
      TrackedIsClaimed(w, Verdicts(w, rows), v, e);
    }
  }

  lemma TrackedRowStays(w: World, vs: seq<Verdict>, v: Verdict)
    requires UniqueRows(vs) && v in vs && IsTracked(v.fate)
    ensures var r := RecordAll(w, START, vs); v.d in r.rows && v.d.id in r.allDeployments && v.d.id !in r.undeployed
  {
    VerdictsGrow(w, START, vs);
    VerdictStays(w, START, vs, v);
    VerdictsUndeploy(w, START, vs);
  }

  /** A deployment the row loop tracked survives the purges: its row stays, its job is not undeployed, no line of the
      inventory that matches it is unclaimed, and no purge names its instance. */
  lemma TrackedIsNeverPurged(w: World, rows: seq<Deployment>, chutes: seq<Chute>, servers: seq<string>, v: Verdict)
    requires UniqueRows(Verdicts(w, rows))
    requires v in Verdicts(w, rows) && IsTracked(v.fate)
    ensures var p := Reconcile(w, rows, chutes, servers);
            && v.d in p.rows && v.d.id in p.allDeployments
            && Undeploy(v.d.id) !in p.tasks && v.d.id !in p.undeployed
            && (forall e :: e in w.inventory && Matches(v.d, e) ==> !Unclaimed(Rows(w, START, rows), e))
            && (forall x :: x in p.purged ==> v.d.instanceId != Some(x.1))
  {
    var vs := Verdicts(w, rows);
    PassFacts(w, rows, chutes, servers);
    AfterRemovals(w, RecordAll(w, START, vs), chutes, servers);
    TrackedRowStays(w, vs, v);
    UndeployedIffUntracked(w, rows, chutes, servers, v);
    forall e | e in w.inventory && Matches(v.d, e) ensures !Unclaimed(Rows(w, START, rows), e) {
      RowsAreVerdicts(w, START, rows);
      TrackedIsClaimed(w, vs, v, e);
    }
    forall x | x in Reconcile(w, rows, chutes, servers).purged ensures v.d.instanceId != Some(x.1) {
      if v.d.instanceId == Some(x.1) {
        OwnInstanceNotPurged(w, rows, chutes, servers, v, x);
      }
    }
  }

  /** Nor is any instance purged that the inventory ties to it, by instance id or by config id, unless the id is that of
      another row: the pair is purged exactly when handling such a row purges it. */
  lemma MatchedIsNeverPurged(w: World, rows: seq<Deployment>, chutes: seq<Chute>, servers: seq<string>,
                             v: Verdict, e: Entry)
    requires OneEntryPerInstance(w) && e in w.inventory
    requires v in Verdicts(w, rows) && IsTracked(v.fate) && Matches(v.d, e)
    ensures var p, x := Reconcile(w, rows, chutes, servers), (e.validator, e.instanceId);
            && (x in p.purged <==> PurgedIn(w, Verdicts(w, rows), x))
            && ((forall u :: u in Verdicts(w, rows) && u.d.instanceId == Some(e.instanceId) ==> u == v) ==>
                x !in p.purged)
  {
    var vs, x := Verdicts(w, rows), (e.validator, e.instanceId);
    PurgedAfterwards(w, rows, chutes, servers, x);
    RowsAreVerdicts(w, START, rows);
    forall o | o in w.inventory && x == (o.validator, o.instanceId) ensures !Unclaimed(Rows(w, START, rows), o) {
      TrackedIsClaimed(w, vs, v, o);
    }
    if forall u :: u in vs && u.d.instanceId == Some(e.instanceId) ==> u == v {
      TrackedNotPurged(w, rows, v, x);
    }
  }

  /** A row's job is undeployed by the purge exactly when the row was not tracked, kept or not. */
  lemma UndeployedIffUntracked(w: World, rows: seq<Deployment>, chutes: seq<Chute>, servers: seq<string>, v: Verdict)
    requires UniqueRows(Verdicts(w, rows)) && v in Verdicts(w, rows)
    ensures Undeploy(v.d.id) in Reconcile(w, rows, chutes, servers).tasks <==>
              !IsTracked(v.fate) && v.d.id in w.jobs - w.legacy
  {
    PassFacts(w, rows, chutes, servers);
    UntrackedIff(w, Verdicts(w, rows), v);
  }

  lemma UntrackedIff(w: World, vs: seq<Verdict>, v: Verdict)
    requires UniqueRows(vs) && v in vs
    ensures v.d.id in Untracked(w, RecordAll(w, START, vs)) <==> !IsTracked(v.fate) && v.d.id in w.jobs - w.legacy
  {
    VerdictsGrow(w, START, vs);
    assert TrackedIn(vs, v.d.id) <==> IsTracked(v.fate);
  }

  /** So a row that is kept because its job could not be read just then has that job undeployed in the same pass. */
  lemma UnreadableStillUndeployed(w: World, rows: seq<Deployment>, chutes: seq<Chute>, servers: seq<string>, v: Verdict)
    requires UniqueRows(Verdicts(w, rows)) && v in Verdicts(w, rows)
    requires v.fate.Unreadable? && v.d.id in w.jobs - w.legacy
    ensures var p := Reconcile(w, rows, chutes, servers); v.d in p.rows && Undeploy(v.d.id) in p.tasks
  {
    UndeployedIffUntracked(w, rows, chutes, servers, v);
    KeptRowsStay(w, rows, chutes, servers, v);
  }

  lemma KeptRowsStay(w: World, rows: seq<Deployment>, chutes: seq<Chute>, servers: seq<string>, v: Verdict)
    requires v in Verdicts(w, rows) && !IsDeleted(v.fate) && !Undeploys(w, v)
    ensures v.d in Reconcile(w, rows, chutes, servers).rows
  {
    var r := RecordAll(w, START, Verdicts(w, rows));
    PassFacts(w, rows, chutes, servers);
    AfterRemovals(w, r, chutes, servers);
    VerdictStays(w, START, Verdicts(w, rows), v);
  }

  // A catalogue lists each chute once.
  ghost predicate OneVersionEach(catalogue: seq<Chute>) {
    forall a, b | a in catalogue && b in catalogue :: a.validator == b.validator && a.chuteId == b.chuteId ==> a == b
  }

  /** No removal is scheduled twice, and nothing is both removed and created. */
  lemma RemovalsAndCreationsDisjoint(w: World, rows: seq<Deployment>, chutes: seq<Chute>, servers: seq<string>,
                                     c: Chute)
    requires OneVersionEach(w.catalogue)
    ensures var p := Reconcile(w, rows, chutes, servers);
            p.tasks[ChuteDeleted(c)] <= 1 && !(ChuteDeleted(c) in p.tasks && ChuteCreated(c) in p.tasks)
  {
    PassFacts(w, rows, chutes, servers);
    if c in w.catalogue {
      Listed(w.catalogue, c);
    }
    forall v | v in Verdicts(w, rows) && v.drops ensures Stale(w, ChuteOf(v.d)) || v.fate.JobUnknown? {
      DropReason(w, rows, v);
    }
    forall v | v in Verdicts(w, rows) && v.fate.JobUnknown?
        ensures Outdated(w, v.d.validator, v.d.chuteId, v.d.version) {
      DropReason(w, rows, v);
    }
  }

  lemma DropReason(w: World, rows: seq<Deployment>, v: Verdict)
    requires v in Verdicts(w, rows)
    ensures v.drops ==> Outdated(w, v.d.validator, v.d.chuteId, v.d.version)
    ensures v.drops && Rolling(w, v.d.validator, v.d.chuteId) ==> v.fate.JobUnknown?
    ensures v.fate.JobUnknown? ==> v.drops && Outdated(w, v.d.validator, v.d.chuteId, v.d.version)
    ensures IsTracked(v.fate) && v.fate.JobKept? ==> !v.drops
  {
    var i :| 0 <= i < |rows| && Verdicts(w, rows)[i] == v;
  }

  lemma {:induction false} Listed(catalogue: seq<Chute>, c: Chute)
    requires c in catalogue
    requires OneVersionEach(catalogue)
    ensures CatalogueVersion(catalogue, c.validator, c.chuteId) == Some(c.version)
  {
    if catalogue[0] != c {
      assert catalogue[0] in catalogue;
      assert forall x :: x in catalogue[1..] ==> x in catalogue;
      Listed(catalogue[1..], c);
    }
  }

  /** A chute in a rolling update is never created, and removed exactly when a job of it has no catalogue entry. */
  lemma RollingLeftAlone(w: World, rows: seq<Deployment>, chutes: seq<Chute>, servers: seq<string>, c: Chute)
    requires Rolling(w, c.validator, c.chuteId)
    ensures var p := Reconcile(w, rows, chutes, servers);
            && ChuteCreated(c) !in p.tasks
            && (ChuteDeleted(c) in p.tasks <==>
                  exists v :: v in Verdicts(w, rows) && v.fate.JobUnknown? && ChuteOf(v.d) == c)
  {
    PassFacts(w, rows, chutes, servers);
    forall v | v in Verdicts(w, rows) && ChuteOf(v.d) == c ensures v.drops <==> v.fate.JobUnknown? {
      DropReason(w, rows, v);
    }
  }

  // Whether running a scheduled task deletes a deployment: chutes and servers take theirs with them.
  predicate Kills(t: Task, d: Deployment, chutes: seq<Chute>, servers: seq<string>) {
    match t
    case InstanceDeleted(i) => d.instanceId == Some(i)
    case ChuteDeleted(c) => c in chutes && c.chuteId == d.chuteId
    case Undeploy(id) => d.id == id
    case ChuteCreated(_) => false
    case ServerDeleted(s) => s in servers && d.serverId == s
  }

  /** Being tracked does not save a deployment from the scheduled tasks: it goes exactly when its chute's row
      is being removed or its server has left the cluster. */
  lemma TrackedKilledIff(w: World, rows: seq<Deployment>, chutes: seq<Chute>, servers: seq<string>, v: Verdict,
                         home: Chute)
    requires UniqueRows(Verdicts(w, rows))
    requires v in Verdicts(w, rows) && IsTracked(v.fate)
    requires home in chutes && home.chuteId == v.d.chuteId
    requires forall a, b :: a in chutes && b in chutes && a.chuteId == b.chuteId ==> a == b
    ensures var p := Reconcile(w, rows, chutes, servers);
            (exists t :: t in p.tasks && Kills(t, v.d, chutes, servers)) <==>
              || Stale(w, home)
              || DroppedBy(Verdicts(w, rows), home)
              || (v.d.serverId in servers && v.d.serverId !in w.nodes)
  {
    PassFacts(w, rows, chutes, servers);
    UndeployedIffUntracked(w, rows, chutes, servers, v);
    forall x | x in Verdicts(w, rows) && x.fate.InstanceGone? ensures x.d.instanceId.Some? {
      GoneHadInstance(w, rows, x);
    }
    KilledIff(w, Verdicts(w, rows), chutes, servers, Reconcile(w, rows, chutes, servers), v, home);
  }

  lemma KilledIff(w: World, vs: seq<Verdict>, chutes: seq<Chute>, servers: seq<string>, p: Pass, v: Verdict,
                  home: Chute)
    requires Schedules(w, vs, chutes, servers, p) && UniqueRows(vs)
    requires forall x :: x in vs && x.fate.InstanceGone? ==> x.d.instanceId.Some?
    requires v in vs && IsTracked(v.fate) && Undeploy(v.d.id) !in p.tasks
    requires home in chutes && home.chuteId == v.d.chuteId
    requires forall a, b :: a in chutes && b in chutes && a.chuteId == b.chuteId ==> a == b
    ensures (exists t :: t in p.tasks && Kills(t, v.d, chutes, servers)) <==>
              || Stale(w, home) || DroppedBy(vs, home) || (v.d.serverId in servers && v.d.serverId !in w.nodes)
  {
    if home in p.toRemove {
      assert p.tasks[ChuteDeleted(home)] == 1;
      assert Kills(ChuteDeleted(home), v.d, chutes, servers);
    }
    if v.d.serverId in servers && v.d.serverId !in w.nodes {
      assert Kills(ServerDeleted(v.d.serverId), v.d, chutes, servers);
    }
    forall t | t in p.tasks && Kills(t, v.d, chutes, servers)
      ensures home in p.toRemove || (v.d.serverId in servers && v.d.serverId !in w.nodes)
    {
      KillerKnown(w, vs, chutes, servers, p, v, home, t);
    }
  }

  lemma KillerKnown(w: World, vs: seq<Verdict>, chutes: seq<Chute>, servers: seq<string>, p: Pass, v: Verdict,
                    home: Chute, t: Task)
    requires Schedules(w, vs, chutes, servers, p) && UniqueRows(vs)
    requires forall x :: x in vs && x.fate.InstanceGone? ==> x.d.instanceId.Some?
    requires v in vs && IsTracked(v.fate) && Undeploy(v.d.id) !in p.tasks
    requires home in chutes && home.chuteId == v.d.chuteId
    requires forall a, b :: a in chutes && b in chutes && a.chuteId == b.chuteId ==> a == b
    requires t in p.tasks && Kills(t, v.d, chutes, servers)
    ensures home in p.toRemove || (v.d.serverId in servers && v.d.serverId !in w.nodes)
  {
    match t
    case InstanceDeleted(_) =>
    case ChuteDeleted(c) => assert c == home && p.tasks[ChuteDeleted(c)] > 0;
    case Undeploy(_) =>
    case ChuteCreated(_) =>
    case ServerDeleted(_) =>
  }

  lemma GoneHadInstance(w: World, rows: seq<Deployment>, v: Verdict)
    requires v in Verdicts(w, rows) && v.fate.InstanceGone?
    ensures v.d.instanceId.Some?
  {
    var i :| 0 <= i < |rows| && Verdicts(w, rows)[i] == v;
  }

  lemma StaleChuteDropped(w: World, rows: seq<Deployment>, chutes: seq<Chute>, servers: seq<string>, c: Chute)
    requires c in chutes && Stale(w, c)
    ensures ChuteDeleted(c) in Reconcile(w, rows, chutes, servers).tasks
  {
    PassFacts(w, rows, chutes, servers);
  }

  /** A running job is kept and tracked, and yet goes in the same pass when the chute it runs has a newer version. */
  lemma KeptJobStillRemoved()
    ensures exists w: World, row: Deployment, chute: Chute, t: Task ::
              VerdictOn(w, row).fate.JobKept? && t in Reconcile(w, [row], [chute], []).tasks
              && Kills(t, VerdictOn(w, row).d, [chute], [])
  {
    var row := Deployment("d", "v", "c", "1", "s", None, None, true, false, true, None, None, 0);
    var chute := Chute("v", "c", "1");
    var w := World(0, {"v"}, [Chute("v", "c", "2")], [], {}, {}, {}, None, map[], {}, {});
    assert VerdictOn(w, row).fate.JobKept?;
    StaleChuteDropped(w, [row], [chute], [], chute);
    assert Kills(ChuteDeleted(chute), VerdictOn(w, row).d, [chute], []);
  }

  // ---- A second pass ----

  predicate Goes(w: World, v: Verdict) {
    IsDeleted(v.fate) || Undeploys(w, v)
  }

  // The rows that stay, in order.
  function Left(w: World, vs: seq<Verdict>): seq<Deployment> {
    if vs == [] then []
    else if Goes(w, vs[0]) then Left(w, vs[1..])
    else [vs[0].d] + Left(w, vs[1..])
  }

  lemma RecordRows(w: World, p: Pass, v: Verdict)
    ensures Record(w, p, v).rows == if Goes(w, v) then p.rows else p.rows + [v.d]
  {
  }

  lemma ConsLeft(w: World, rows: seq<Deployment>, vs: seq<Verdict>)
    requires vs != []
    ensures (if Goes(w, vs[0]) then rows else rows + [vs[0].d]) + Left(w, vs[1..]) == rows + Left(w, vs)
  {
  }

  lemma {:induction false} RowsLeft(w: World, p: Pass, vs: seq<Verdict>)
    ensures RecordAll(w, p, vs).rows == p.rows + Left(w, vs)
    decreases |vs|
  {
    if vs == [] {
      assert p.rows + Left(w, vs) == p.rows;
    } else {
      RecordRows(w, p, vs[0]);
      RowsLeft(w, Record(w, p, vs[0]), vs[1..]);
      ConsLeft(w, p.rows, vs);
    }
  }

  // The row says what the inventory says.
  predicate UpToDate(w: World, d: Deployment) {
    && Identify(w, d) == d
    && (Known(w, d) ==>
          var e := Lookup(w.inventory, d.validator, d.instanceId.value).value;
          e.active == d.active && (e.verified ==> d.verifiedAt.Some?))
  }

  lemma RefreshUpdates(w: World, row: Deployment)
    ensures UpToDate(w, Refresh(w, row))
  {
    var d := Identify(w, row);
    assert Identify(w, d) == d;
    assert Refresh(w, row) == d.(verifiedAt := Refresh(w, row).verifiedAt, active := Refresh(w, row).active,
                                 activatedAt := Refresh(w, row).activatedAt, stub := Refresh(w, row).stub);
  }

  lemma RefreshTwice(w: World, row: Deployment)
    ensures Refresh(w, Refresh(w, row)) == Refresh(w, row)
  {
    RefreshUpdates(w, row);
    var d := Refresh(w, row);
    assert UpToDate(w, d);
  }

  // The verdict on a row that a pass left, with what it found out by then committed.
  function Again(v: Verdict): Verdict {
    v.(stored := v.d.instanceId)
  }

  // A second pass `q` against the first one `p`: fewer configs claimed, nothing purged or undeployed.
  ghost predicate Echoes(p: Pass, q: Pass) {
    && q.rows == p.rows && q.allDeployments == p.allDeployments && q.allInstances == p.allInstances
    && q.allConfigs <= p.allConfigs
    && q.purged == {} && q.undeployed == {}
    && SameLosses(p, q)
  }

  ghost predicate SameLosses(p: Pass, q: Pass) {
    forall i :: q.tasks[InstanceDeleted(i)] == p.tasks[InstanceDeleted(i)]
  }

  lemma LossesOf(w: World, p: Pass, q: Pass, v: Verdict)
    requires SameLosses(p, q)
    ensures Goes(w, v) ==> SameLosses(Record(w, p, v), q)
    ensures SameLosses(Record(w, p, v), Record(w, q, Again(v)))
  {
    RecordLosses(w, p, v);
    RecordLosses(w, q, Again(v));
  }

  lemma RecordLosses(w: World, p: Pass, v: Verdict)
    ensures forall i :: Record(w, p, v).tasks[InstanceDeleted(i)]
                     == p.tasks[InstanceDeleted(i)]
                        + if v.fate.InstanceGone? && v.d.instanceId.GetOr("") == i then 1 else 0
  {
  }

  // A row that stays adds to the accumulators what it is tracked by, and no purge.
  lemma RecordStaying(w: World, p: Pass, v: Verdict)
    requires !Goes(w, v)
    ensures
      var r := Record(w, p, v);
      && r.rows == p.rows + [v.d] && r.purged == p.purged && r.undeployed == p.undeployed
      && r.allDeployments == (if IsTracked(v.fate) then p.allDeployments + {v.d.id} else p.allDeployments)
      && r.allInstances == (if IsTracked(v.fate) || v.fate.JobUnknown? then AddTo(p.allInstances, v.d.instanceId)
                            else p.allInstances)
      && r.allConfigs == (if v.fate.Orphan? || v.fate.InstanceGone? then p.allConfigs
                          else AddTo(p.allConfigs, v.d.configId))
  {
  }

  lemma EchoGone(w: World, p: Pass, q: Pass, v: Verdict)
    requires Echoes(p, q) && Goes(w, v)
    ensures Echoes(Record(w, p, v), q)
  {
    LossesOf(w, p, q, v);
  }

  lemma EchoStays(w: World, p: Pass, q: Pass, v: Verdict)
    requires Echoes(p, q) && !Goes(w, v)
    ensures Echoes(Record(w, p, v), Record(w, q, Again(v)))
  {
    RecordStaying(w, p, v);
    RecordStaying(w, q, Again(v));
    LossesOf(w, p, q, v);
  }

  lemma {:induction false} EchoAll(w: World, p: Pass, q: Pass, vs: seq<Verdict>)
    requires Echoes(p, q) && forall v :: v in vs ==> VerdictOn(w, v.d) == Again(v)
    ensures Echoes(RecordAll(w, p, vs), Rows(w, q, Left(w, vs)))
    decreases |vs|
  {
    if vs != [] {
      var v := vs[0];
      assert v in vs;
      if Goes(w, v) {
        EchoGone(w, p, q, v);
        EchoAll(w, Record(w, p, v), q, vs[1..]);
      } else {
        EchoStays(w, p, q, v);
        assert Left(w, vs)[0] == v.d && Left(w, vs)[1..] == Left(w, vs[1..]);
        EchoAll(w, Record(w, p, v), Record(w, q, Again(v)), vs[1..]);
      }
    }
  }

  /** The row loop is idempotent: run again in the same world on the rows it left, it keeps every one of them as it is,
      tracks the same deployments and instances, reports the same losses, and purges and undeploys nothing. */
  lemma RowsTwice(w: World, rows: seq<Deployment>)
    ensures var r := Rows(w, START, rows); Echoes(r, Rows(w, START, r.rows))
  {
    var vs := Verdicts(w, rows);
    RowsAreVerdicts(w, START, rows);
    RowsLeft(w, START, vs);
    assert START.rows + Left(w, vs) == Left(w, vs);
    forall v | v in vs ensures VerdictOn(w, v.d) == Again(v) {
      var i :| 0 <= i < |rows| && vs[i] == v;
      RefreshTwice(w, rows[i]);
    }
    EchoAll(w, START, START, vs);
  }

  lemma PassOnRows(w: World, rows: seq<Deployment>, chutes: seq<Chute>, servers: seq<string>)
    ensures
      var p, r := Reconcile(w, rows, chutes, servers), Rows(w, START, rows);
      && p.rows == r.rows && p.undeployed == r.undeployed && p.purged == PurgeInstances(w, r).purged
      && (forall id :: Undeploy(id) in p.tasks <==> id in Untracked(w, r))
  {
    PassFacts(w, rows, chutes, servers);
    RowsAreVerdicts(w, START, rows);
    AfterRemovals(w, Rows(w, START, rows), chutes, servers);
  }

  /** A whole pass run again, before any of its tasks, keeps the rows, undeploys the same jobs and no row, and purges
      only unclaimed inventory lines, those of the first pass among them. */
  lemma PassTwice(w: World, rows: seq<Deployment>, chutes: seq<Chute>, servers: seq<string>)
    ensures
      var p := Reconcile(w, rows, chutes, servers);
      var q := Reconcile(w, p.rows, chutes, servers);
      var r := Rows(w, START, rows);
      && q.rows == p.rows && q.undeployed == {}
      && (forall id :: Undeploy(id) in q.tasks <==> Undeploy(id) in p.tasks)
      && (forall x :: x in q.purged <==>
            exists e :: e in w.inventory && e.validator in w.validators && x == (e.validator, e.instanceId)
                        && Unclaimed(Rows(w, START, p.rows), e))
      && (forall e :: Unclaimed(r, e) ==> Unclaimed(Rows(w, START, p.rows), e))
  {
    var p := Reconcile(w, rows, chutes, servers);
    RowsTwice(w, rows);
    PassOnRows(w, rows, chutes, servers);
    PassOnRows(w, p.rows, chutes, servers);
  }

  // ---- What becomes of each row ----

  // The line is the first of the inventory with the row's validator and instance.
  ghost predicate LineOf(w: World, d: Deployment, k: int) {
    && 0 <= k < |w.inventory|
    && w.inventory[k].validator == d.validator && d.instanceId == Some(w.inventory[k].instanceId)
    && forall j :: 0 <= j < k ==>
         w.inventory[j].validator != d.validator || d.instanceId != Some(w.inventory[j].instanceId)
  }

  // The line is the last of the inventory with the config.
  ghost predicate LastIn(inventory: seq<Entry>, configId: string, k: int) {
    && 0 <= k < |inventory| && inventory[k].configId == Some(configId)
    && forall j :: k < j < |inventory| ==> inventory[j].configId != Some(configId)
  }

  lemma {:induction false} LookupIsFirst(inventory: seq<Entry>, validator: string, instanceId: string)
    ensures Lookup(inventory, validator, instanceId).None? <==>
              forall k :: 0 <= k < |inventory| ==>
                inventory[k].validator != validator || inventory[k].instanceId != instanceId
    ensures forall k :: 0 <= k < |inventory|
                        && inventory[k].validator == validator && inventory[k].instanceId == instanceId
                        && (forall j :: 0 <= j < k ==>
                              inventory[j].validator != validator || inventory[j].instanceId != instanceId) ==>
              Lookup(inventory, validator, instanceId) == Some(inventory[k])
  {
    if inventory != [] {
      LookupIsFirst(inventory[1..], validator, instanceId);
      assert forall k :: 0 < k < |inventory| ==> inventory[k] == inventory[1..][k - 1];
    }
  }

  lemma {:induction false} LastByConfigIsLast(inventory: seq<Entry>, configId: string)
    ensures LastByConfig(inventory, configId).Some? ==> exists k :: LastIn(inventory, configId, k)
    ensures forall k :: LastIn(inventory, configId, k) ==> LastByConfig(inventory, configId) == Some(inventory[k])
  {
    if inventory != [] {
      var n := |inventory| - 1;
      LastByConfigIsLast(inventory[..n], configId);
      if inventory[n].configId == Some(configId) {
        assert LastIn(inventory, configId, n);
      } else {
        assert forall k :: LastIn(inventory[..n], configId, k) ==> LastIn(inventory, configId, k);
        assert forall k :: LastIn(inventory, configId, k) ==> LastIn(inventory[..n], configId, k);
      }
    }
  }

  // The instance id a row has once its config was looked up.
  ghost predicate Identified(w: World, row: Deployment, instance: Option<string>) {
    if row.instanceId == None && row.configId.Some?
       && exists k :: LastIn(w.inventory, row.configId.value, k) && w.inventory[k].validator == row.validator
    then exists k :: LastIn(w.inventory, row.configId.value, k) && instance == Some(w.inventory[k].instanceId)
    else instance == row.instanceId
  }

  lemma IdentifyFinds(w: World, row: Deployment)
    ensures Identified(w, row, Identify(w, row).instanceId)
    ensures Identify(w, row) == row.(instanceId := Identify(w, row).instanceId)
  {
    if row.configId.Some? {
      LastByConfigIsLast(w.inventory, row.configId.value);
    }
  }

  // What the validator's line says goes into the row.
  ghost predicate Follows(w: World, row: Deployment, e: Entry, d: Deployment) {
    && d.active == e.active
    && d.verifiedAt == (if row.verifiedAt == None && e.verified then Some(w.now) else row.verifiedAt)
    && d.activatedAt == (if row.active != e.active then Some(w.now) else row.activatedAt)
    && d.stub == (row.stub && row.active == e.active)
  }

  /** A row takes over the instance the validator has for its config, and then what the validator says of its instance;
      nothing else in it changes. */
  lemma RefreshFacts(w: World, row: Deployment)
    ensures
      var d := Refresh(w, row);
      && Identified(w, row, d.instanceId)
      && d == row.(instanceId := d.instanceId, verifiedAt := d.verifiedAt, active := d.active,
                   activatedAt := d.activatedAt, stub := d.stub)
      && (forall k :: LineOf(w, d, k) ==> Follows(w, row, w.inventory[k], d))
      && ((forall k :: !LineOf(w, d, k)) ==> d == row.(instanceId := d.instanceId))
  {
    var d := Refresh(w, row);
    IdentifyFinds(w, row);
    RefreshForm(w, row);
    KnownIsListed(w, d);
  }

  lemma RefreshForm(w: World, row: Deployment)
    ensures
      var d, i := Refresh(w, row), Identify(w, row);
      && Known(w, d) == Known(w, i)
      && d == i.(verifiedAt := d.verifiedAt, active := d.active, activatedAt := d.activatedAt, stub := d.stub)
      && if Known(w, i) then Follows(w, i, Lookup(w.inventory, i.validator, i.instanceId.value).value, d) else d == i
  {
  }

  // The validator lists the row's instance.
  ghost predicate HasLine(w: World, d: Deployment) {
    exists e :: e in w.inventory && e.validator == d.validator && d.instanceId == Some(e.instanceId)
  }

  lemma KnownIsListed(w: World, d: Deployment)
    ensures Known(w, d) <==> HasLine(w, d)
    ensures Known(w, d) <==> exists k :: LineOf(w, d, k)
    ensures forall k :: LineOf(w, d, k) ==> Lookup(w.inventory, d.validator, d.instanceId.value) == Some(w.inventory[k])
  {
    if d.instanceId.Some? {
      LookupIsFirst(w.inventory, d.validator, d.instanceId.value);
      if Known(w, d) {
        var k := FirstLine(w, d, |w.inventory|);
      }
    }
  }

  lemma {:induction false} FirstLine(w: World, d: Deployment, n: nat) returns (k: int)
    requires n <= |w.inventory|
    requires exists j :: 0 <= j < n && w.inventory[j].validator == d.validator
                         && d.instanceId == Some(w.inventory[j].instanceId)
    ensures LineOf(w, d, k)
  {
    if exists j :: 0 <= j < n - 1 && w.inventory[j].validator == d.validator
                   && d.instanceId == Some(w.inventory[j].instanceId) {
      k := FirstLine(w, d, n - 1);
    } else {
      k := n - 1;
    }
  }

  // The validator's catalogue has the chute, at whatever version.
  ghost predicate HasChute(w: World, d: Deployment) {
    exists c :: c in w.catalogue && c.validator == d.validator && c.chuteId == d.chuteId
  }

  // It has it at the row's version.
  ghost predicate HasVersion(w: World, d: Deployment) {
    Chute(d.validator, d.chuteId, d.version) in w.catalogue
  }

  lemma {:induction false} CatalogueLists(catalogue: seq<Chute>, validator: string, chuteId: string)
    requires OneVersionEach(catalogue)
    ensures CatalogueVersion(catalogue, validator, chuteId).Some? <==>
              exists c :: c in catalogue && c.validator == validator && c.chuteId == chuteId
    ensures forall version :: CatalogueVersion(catalogue, validator, chuteId) == Some(version) <==>
                                Chute(validator, chuteId, version) in catalogue
  {
    if catalogue != [] {
      assert forall x :: x in catalogue <==> x == catalogue[0] || x in catalogue[1..];
      CatalogueLists(catalogue[1..], validator, chuteId);
    }
  }

  // The deployment's job is missing in the cache, or it succeeded or failed, or one of its pods has terminated.
  predicate JobEnded(w: World, id: string) {
    id in w.jobState ==>
      match w.jobState[id]
      case NotFound => true
      case ReadError => false
      case Found(succeeded, failed, terminated) => succeeded > 0 || failed > 0 || true in terminated
  }

  // What a pass made of a row.
  ghost predicate Became(p: Pass, d: Deployment, stays: bool, tracked: bool, undeployed: bool) {
    && (d in p.rows <==> stays)
    && (!stays ==> forall r :: r in p.rows ==> r.id != d.id)
    && (d.id in p.allDeployments <==> tracked)
    && (d.id in p.undeployed <==> undeployed)
  }

  // The instance is purged if we know its validator.
  ghost predicate InstancePurged(w: World, p: Pass, validator: string, instance: Option<string>) {
    instance.Some? && validator in w.validators ==> (validator, instance.value) in p.purged
  }

  // What becomes of a row that was stored as `row` and is `d` once refreshed.
  ghost predicate Handled(w: World, p: Pass, row: Deployment, d: Deployment) {
    if w.podConfigs.Some? && d.configId.Some? && d.configId.value !in w.podConfigs.value then
      Became(p, d, false, false, false) && InstancePurged(w, p, d.validator, d.instanceId)
    else if d.instanceId.Some? && !HasLine(w, d) then
      Became(p, d, true, false, false) && InstanceDeleted(d.instanceId.value) in p.tasks
    else if d.isJob then
      && Became(p, d, true, HasChute(w, d), false)
      && (d.instanceId.Some? ==> d.instanceId.value in p.allInstances)
      && (!HasChute(w, d) ==> ChuteDeleted(ChuteOf(d)) in p.tasks)
    else if !HasVersion(w, d) && (d.validator, d.chuteId) in w.updating then
      Became(p, d, true, true, false)
    else
      && (!HasVersion(w, d) ==> ChuteDeleted(ChuteOf(d)) in p.tasks)
      && HandledByJob(w, p, row, d)
  }

  ghost predicate HandledByJob(w: World, p: Pass, row: Deployment, d: Deployment) {
    var age := w.now - d.createdAt;
    if d.id in w.legacy then Became(p, d, true, true, false)
    else if !d.stub && d.id !in w.jobs then
      Became(p, d, false, false, false) && InstancePurged(w, p, d.validator, d.instanceId)
    else if (d.stub || d.instanceId.None?) && age >= 1800 then Became(p, d, false, false, false)
    else if d.active && (d.verifiedAt.Some? || age < 300) then Became(p, d, true, true, false)
    else if !JobEnded(w, d.id) then Became(p, d, true, w.jobState[d.id].Found?, false)
    else if d.id in w.vetoed then Became(p, d, true, false, false)
    else Became(p, d, false, false, true) && InstancePurged(w, p, d.validator, row.instanceId)
  }

  lemma {:induction false} LeftMembers(w: World, vs: seq<Verdict>, d: Deployment)
    requires d in Left(w, vs)
    ensures exists u :: u in vs && !Goes(w, u) && u.d == d
  {
    HeadOrRest(vs);
    if !(!Goes(w, vs[0]) && vs[0].d == d) {
      LeftMembers(w, vs[1..], d);
    }
  }

  lemma FateShows(w: World, rows: seq<Deployment>, chutes: seq<Chute>, servers: seq<string>, v: Verdict)
    requires UniqueRows(Verdicts(w, rows)) && v in Verdicts(w, rows)
    ensures Became(Reconcile(w, rows, chutes, servers), v.d, !Goes(w, v), IsTracked(v.fate), Undeploys(w, v))
  {
    var vs := Verdicts(w, rows);
    var r := RecordAll(w, START, vs);
    PassFacts(w, rows, chutes, servers);
    AfterRemovals(w, r, chutes, servers);
    RowsLeft(w, START, vs);
    assert START.rows + Left(w, vs) == Left(w, vs);
    TrackingShows(w, vs, v);
    if Goes(w, v) {
      forall d | d in Left(w, vs) ensures d.id != v.d.id {
        LeftMembers(w, vs, d);
      }
    } else {
      VerdictStays(w, START, vs, v);
    }
  }

  lemma TrackingShows(w: World, vs: seq<Verdict>, v: Verdict)
    requires UniqueRows(vs) && v in vs
    ensures var r := RecordAll(w, START, vs);
            (v.d.id in r.allDeployments <==> IsTracked(v.fate)) && (v.d.id in r.undeployed <==> Undeploys(w, v))
  {
    VerdictsGrow(w, START, vs);
    VerdictsUndeploy(w, START, vs);
    assert TrackedIn(vs, v.d.id) <==> IsTracked(v.fate);
    assert UndeployedIn(w, vs, v.d.id) <==> Undeploys(w, v);
  }

  // What a row's verdict adds to the other accumulators.
  ghost predicate Shows(w: World, p: Pass, v: Verdict) {
    && Became(p, v.d, !Goes(w, v), IsTracked(v.fate), Undeploys(w, v))
    && (v.fate.InstanceGone? ==> InstanceDeleted(v.d.instanceId.GetOr("")) in p.tasks)
    && (v.drops ==> ChuteDeleted(ChuteOf(v.d)) in p.tasks)
    && (v.fate.Orphan? || v.fate.Vanished? ==> InstancePurged(w, p, v.d.validator, v.d.instanceId))
    && (Undeploys(w, v) ==> InstancePurged(w, p, v.d.validator, v.stored))
  }

  lemma TasksShow(w: World, vs: seq<Verdict>, chutes: seq<Chute>, servers: seq<string>, p: Pass, v: Verdict)
    requires Schedules(w, vs, chutes, servers, p) && v in vs
    ensures v.fate.InstanceGone? ==> InstanceDeleted(v.d.instanceId.GetOr("")) in p.tasks
    ensures v.drops ==> ChuteDeleted(ChuteOf(v.d)) in p.tasks
  {
    assert v.fate.InstanceGone? ==> GoneIn(vs, v.d.instanceId.GetOr(""));
    assert v.drops ==> DroppedBy(vs, ChuteOf(v.d)) && p.tasks[ChuteDeleted(ChuteOf(v.d))] == 1;
  }

  lemma EffectsShow(w: World, rows: seq<Deployment>, chutes: seq<Chute>, servers: seq<string>, v: Verdict)
    requires UniqueRows(Verdicts(w, rows)) && v in Verdicts(w, rows)
    ensures Shows(w, Reconcile(w, rows, chutes, servers), v)
  {
    FateShows(w, rows, chutes, servers, v);
    PassFacts(w, rows, chutes, servers);
    TasksShow(w, Verdicts(w, rows), chutes, servers, Reconcile(w, rows, chutes, servers), v);
    PurgesShow(w, rows, chutes, servers, v);
  }

  lemma PurgesShow(w: World, rows: seq<Deployment>, chutes: seq<Chute>, servers: seq<string>, v: Verdict)
    requires v in Verdicts(w, rows)
    ensures
      var p := Reconcile(w, rows, chutes, servers);
      && (v.fate.Orphan? || v.fate.Vanished? ==> InstancePurged(w, p, v.d.validator, v.d.instanceId))
      && (Undeploys(w, v) ==> InstancePurged(w, p, v.d.validator, v.stored))
  {
    if v.d.instanceId.Some? {
      PurgedAfterwards(w, rows, chutes, servers, (v.d.validator, v.d.instanceId.value));
    }
    if v.stored.Some? {
      PurgedAfterwards(w, rows, chutes, servers, (v.d.validator, v.stored.value));
    }
  }

  lemma {:induction false} JobClaims(w: World, p: Pass, vs: seq<Verdict>, v: Verdict)
    requires v in vs && v.fate.JobUnknown? && v.d.instanceId.Some?
    ensures v.d.instanceId.value in RecordAll(w, p, vs).allInstances
    decreases |vs|
  {
    var q := Record(w, p, vs[0]);
    if v == vs[0] {
      VerdictsGrow(w, q, vs[1..]);
    } else {
      JobClaims(w, q, vs[1..], v);
    }
  }

  lemma AfterClaims(w: World, rows: seq<Deployment>, chutes: seq<Chute>, servers: seq<string>)
    ensures Reconcile(w, rows, chutes, servers).allInstances == RecordAll(w, START, Verdicts(w, rows)).allInstances
  {
    var r := RecordAll(w, START, Verdicts(w, rows));
    var a := PurgeJobs(w, PurgeInstances(w, r));
    var b := Chutes(w, a, chutes);
    PassFacts(w, rows, chutes, servers);
    PurgeJobsFacts(w, r);
    ChutesFacts(w, a, chutes);
    NewChutesFacts(w, b, w.catalogue);
    ServersFacts(w, NewChutes(w, b, w.catalogue), servers);
  }

  lemma JobInstanceClaimed(w: World, rows: seq<Deployment>, chutes: seq<Chute>, servers: seq<string>, v: Verdict)
    requires v in Verdicts(w, rows) && (v.fate.JobKept? || v.fate.JobUnknown?) && v.d.instanceId.Some?
    ensures v.d.instanceId.value in Reconcile(w, rows, chutes, servers).allInstances
  {
    AfterClaims(w, rows, chutes, servers);
    if v.fate.JobKept? {
      VerdictTracked(w, START, Verdicts(w, rows), v);
    } else {
      JobClaims(w, START, Verdicts(w, rows), v);
    }
  }

  /** What a whole pass makes of every row, from the row itself and what the world says: which rows stay, which are
      tracked, which are undeployed, whose instances are purged or reported lost, and which chutes are dropped. */
  lemma RowOutcome(w: World, rows: seq<Deployment>, chutes: seq<Chute>, servers: seq<string>, i: nat)
    requires UniqueRows(Verdicts(w, rows)) && OneVersionEach(w.catalogue) && i < |rows|
    ensures Handled(w, Reconcile(w, rows, chutes, servers), rows[i], Refresh(w, rows[i]))
  {
    var v := Verdicts(w, rows)[i];
    assert v in Verdicts(w, rows);
    EffectsShow(w, rows, chutes, servers, v);
    if (v.fate.JobKept? || v.fate.JobUnknown?) && v.d.instanceId.Some? {
      JobInstanceClaimed(w, rows, chutes, servers, v);
    }
    HandledAsJudged(w, Reconcile(w, rows, chutes, servers), rows[i]);
  }

  lemma HandledAsJudged(w: World, p: Pass, row: Deployment)
    requires Shows(w, p, VerdictOn(w, row)) && OneVersionEach(w.catalogue)
    requires var v := VerdictOn(w, row);
             (v.fate.JobKept? || v.fate.JobUnknown?) && v.d.instanceId.Some? ==> v.d.instanceId.value in p.allInstances
    ensures Handled(w, p, row, Refresh(w, row))
  {
    var v := VerdictOn(w, row);
    KnownIsListed(w, v.d);
    CatalogueLists(w.catalogue, v.d.validator, v.d.chuteId);
    if !v.d.isJob && !v.fate.Orphan? && !v.fate.InstanceGone? && !v.fate.RollingKept? {
      JudgedByJob(w, p, row, v);
    }
  }

  lemma JudgedByJob(w: World, p: Pass, row: Deployment, v: Verdict)
    requires Shows(w, p, v) && v.stored == row.instanceId && v.fate == Judge(w, v.d)
    requires !v.d.isJob && !v.fate.Orphan? && !v.fate.InstanceGone? && !v.fate.RollingKept?
    ensures HandledByJob(w, p, row, v.d)
  {
  }

  // ---- All that a pass purges and schedules ----

  // The row's config has no pod.
  predicate IsOrphan(w: World, d: Deployment) {
    w.podConfigs.Some? && d.configId.Some? && d.configId.value !in w.podConfigs.value
  }

  ghost predicate IsLost(w: World, d: Deployment) {
    !IsOrphan(w, d) && d.instanceId.Some? && !HasLine(w, d)
  }

  ghost predicate Passed(w: World, d: Deployment) {
    !IsOrphan(w, d) && !IsLost(w, d)
  }

  // The row is one to be compared with its job in Kubernetes.
  ghost predicate IsCompared(w: World, d: Deployment) {
    && Passed(w, d) && !d.isJob && d.id !in w.legacy
    && (HasVersion(w, d) || (d.validator, d.chuteId) !in w.updating)
  }

  ghost predicate HasVanished(w: World, d: Deployment) {
    IsCompared(w, d) && !d.stub && d.id !in w.jobs
  }

  // The row is undeployed: neither gone nor an old stub, not known to serve, its job over, and no veto.
  ghost predicate IsOver(w: World, d: Deployment) {
    && IsCompared(w, d) && (d.stub || d.id in w.jobs)
    && !((d.stub || d.instanceId.None?) && w.now - d.createdAt >= 1800)
    && (!d.active || (d.verifiedAt.None? && w.now - d.createdAt >= 300))
    && JobEnded(w, d.id) && d.id !in w.vetoed
  }

  ghost predicate DropsItsChute(w: World, d: Deployment) {
    && Passed(w, d)
    && if d.isJob then !HasChute(w, d) else !HasVersion(w, d) && (d.validator, d.chuteId) !in w.updating
  }

  lemma EarlyTable(w: World, d: Deployment)
    ensures Judge(w, d).Orphan? <==> IsOrphan(w, d)
    ensures Judge(w, d).InstanceGone? <==> IsLost(w, d)
    ensures Judge(w, d).JobKept? || Judge(w, d).JobUnknown? <==> Passed(w, d) && d.isJob
  {
    KnownIsListed(w, d);
  }

  lemma LateTable(w: World, d: Deployment)
    requires OneVersionEach(w.catalogue)
    ensures Judge(w, d).Vanished? <==> HasVanished(w, d)
    ensures Judge(w, d).Finished? && d.id !in w.vetoed <==> IsOver(w, d)
    ensures DropsChute(w, d) <==> DropsItsChute(w, d)
  {
    EarlyTable(w, d);
    CatalogueLists(w.catalogue, d.validator, d.chuteId);
  }

  // Handling the row purges the pair.
  ghost predicate PurgedWith(w: World, row: Deployment, d: Deployment, x: (string, string)) {
    && x.0 == d.validator && x.0 in w.validators
    && (((IsOrphan(w, d) || HasVanished(w, d)) && d.instanceId == Some(x.1))
        || (IsOver(w, d) && row.instanceId == Some(x.1)))
  }

  // The row claims the entry: a tracked row or a job's by its instance, any that passed the first checks by its config.
  ghost predicate Claims(w: World, p: Pass, d: Deployment, e: Entry) {
    || ((d.id in p.allDeployments || (Passed(w, d) && d.isJob)) && d.instanceId == Some(e.instanceId))
    || (Passed(w, d) && e.configId.Some? && d.configId == e.configId)
  }

  ghost predicate ClaimedBySome(w: World, p: Pass, rows: seq<Deployment>, e: Entry) {
    exists i :: 0 <= i < |rows| && Claims(w, p, Refresh(w, rows[i]), e)
  }

  ghost predicate InstanceIn(vs: seq<Verdict>, instance: string) {
    exists v :: v in vs && (IsTracked(v.fate) || v.fate.JobUnknown?) && v.d.instanceId == Some(instance)
  }

  ghost predicate ConfigIn(vs: seq<Verdict>, configId: string) {
    exists v :: v in vs && !v.fate.Orphan? && !v.fate.InstanceGone? && v.d.configId == Some(configId)
  }

  lemma RecordClaims(w: World, p: Pass, v: Verdict)
    ensures Record(w, p, v).allInstances
         == if IsTracked(v.fate) || v.fate.JobUnknown? then AddTo(p.allInstances, v.d.instanceId) else p.allInstances
    ensures Record(w, p, v).allConfigs
         == if v.fate.Orphan? || v.fate.InstanceGone? then p.allConfigs else AddTo(p.allConfigs, v.d.configId)
  {
  }

  lemma {:induction false} ClaimsExact(w: World, p: Pass, vs: seq<Verdict>)
    ensures forall i :: i in RecordAll(w, p, vs).allInstances <==> i in p.allInstances || InstanceIn(vs, i)
    ensures forall c :: c in RecordAll(w, p, vs).allConfigs <==> c in p.allConfigs || ConfigIn(vs, c)
    decreases |vs|
  {
    if vs != [] {
      RecordClaims(w, p, vs[0]);
      HeadOrRest(vs);
      ClaimsExact(w, Record(w, p, vs[0]), vs[1..]);
    }
  }

  lemma RefreshedAs(w: World, rows: seq<Deployment>, v: Verdict) returns (i: nat)
    requires v in Verdicts(w, rows)
    ensures i < |rows| && v.d == Refresh(w, rows[i]) && v.d.id == rows[i].id && v.d.configId == rows[i].configId
    ensures v == VerdictOn(w, rows[i])
  {
    i :| 0 <= i < |rows| && Verdicts(w, rows)[i] == v;
    RefreshFacts(w, rows[i]);
  }

  lemma ClaimsOf(w: World, rows: seq<Deployment>, chutes: seq<Chute>, servers: seq<string>, v: Verdict, e: Entry)
    requires UniqueRows(Verdicts(w, rows)) && v in Verdicts(w, rows)
    ensures Claims(w, Reconcile(w, rows, chutes, servers), v.d, e) <==>
              || ((IsTracked(v.fate) || v.fate.JobUnknown?) && v.d.instanceId == Some(e.instanceId))
              || (!v.fate.Orphan? && !v.fate.InstanceGone? && e.configId.Some? && v.d.configId == e.configId)
  {
    var i := RefreshedAs(w, rows, v);
    FateShows(w, rows, chutes, servers, v);
    EarlyTable(w, v.d);
  }

  lemma UnclaimedIff(w: World, rows: seq<Deployment>, chutes: seq<Chute>, servers: seq<string>, e: Entry)
    requires UniqueRows(Verdicts(w, rows))
    ensures Unclaimed(RecordAll(w, START, Verdicts(w, rows)), e) <==>
              !ClaimedBySome(w, Reconcile(w, rows, chutes, servers), rows, e)
  {
    var vs, p := Verdicts(w, rows), Reconcile(w, rows, chutes, servers);
    ClaimsExact(w, START, vs);
    if !Unclaimed(RecordAll(w, START, vs), e) {
      var v := Claimant(w, vs, e);
      var i := RefreshedAs(w, rows, v);
      ClaimsOf(w, rows, chutes, servers, v, e);
    }
    if ClaimedBySome(w, p, rows, e) {
      var i :| 0 <= i < |rows| && Claims(w, p, Refresh(w, rows[i]), e);
      assert vs[i] in vs;
      ClaimsOf(w, rows, chutes, servers, vs[i], e);
    }
  }

  lemma Claimant(w: World, vs: seq<Verdict>, e: Entry) returns (v: Verdict)
    requires !Unclaimed(RecordAll(w, START, vs), e)
    ensures v in vs
    ensures || ((IsTracked(v.fate) || v.fate.JobUnknown?) && v.d.instanceId == Some(e.instanceId))
            || (!v.fate.Orphan? && !v.fate.InstanceGone? && e.configId.Some? && v.d.configId == e.configId)
  {
    ClaimsExact(w, START, vs);
    if InstanceIn(vs, e.instanceId) {
      v :| v in vs && (IsTracked(v.fate) || v.fate.JobUnknown?) && v.d.instanceId == Some(e.instanceId);
    } else {
      v :| v in vs && !v.fate.Orphan? && !v.fate.InstanceGone? && v.d.configId == e.configId;
    }
  }

  lemma PurgesIff(w: World, row: Deployment, x: (string, string))
    requires OneVersionEach(w.catalogue)
    ensures Purges(w, VerdictOn(w, row), x) <==> PurgedWith(w, row, Refresh(w, row), x)
  {
    EarlyTable(w, Refresh(w, row));
    LateTable(w, Refresh(w, row));
  }

  /** A pass purges exactly what it purges with a row, and the entries of known validators that no row claims. */
  lemma PurgedIff(w: World, rows: seq<Deployment>, chutes: seq<Chute>, servers: seq<string>, x: (string, string))
    requires UniqueRows(Verdicts(w, rows)) && OneVersionEach(w.catalogue)
    ensures
      var p := Reconcile(w, rows, chutes, servers);
      x in p.purged <==>
        || (exists i :: 0 <= i < |rows| && PurgedWith(w, rows[i], Refresh(w, rows[i]), x))
        || (exists e :: e in w.inventory && e.validator in w.validators && x == (e.validator, e.instanceId)
                        && !ClaimedBySome(w, p, rows, e))
  {
    var vs := Verdicts(w, rows);
    PurgedAfterwards(w, rows, chutes, servers, x);
    RowsAreVerdicts(w, START, rows);
    forall e {
      UnclaimedIff(w, rows, chutes, servers, e);
    }
    PurgedInIff(w, rows, x);
  }

  lemma PurgedInIff(w: World, rows: seq<Deployment>, x: (string, string))
    requires OneVersionEach(w.catalogue)
    ensures PurgedIn(w, Verdicts(w, rows), x) <==>
              exists i :: 0 <= i < |rows| && PurgedWith(w, rows[i], Refresh(w, rows[i]), x)
  {
    var vs := Verdicts(w, rows);
    if PurgedIn(w, vs, x) {
      var v :| v in vs && Purges(w, v, x);
      var i := RefreshedAs(w, rows, v);
      PurgesIff(w, rows[i], x);
    }
    if i :| 0 <= i < |rows| && PurgedWith(w, rows[i], Refresh(w, rows[i]), x) {
      PurgesIff(w, rows[i], x);
      assert vs[i] in vs;
    }
  }

  ghost predicate LostIn(w: World, rows: seq<Deployment>, instance: string) {
    exists i :: 0 <= i < |rows| && IsLost(w, Refresh(w, rows[i])) && Refresh(w, rows[i]).instanceId == Some(instance)
  }

  ghost predicate DropsIn(w: World, rows: seq<Deployment>, c: Chute) {
    exists i :: 0 <= i < |rows| && DropsItsChute(w, Refresh(w, rows[i])) && c == ChuteOf(Refresh(w, rows[i]))
  }

  /** And it schedules exactly these tasks. */
  lemma ScheduledIff(w: World, rows: seq<Deployment>, chutes: seq<Chute>, servers: seq<string>)
    requires OneVersionEach(w.catalogue)
    ensures
      var p := Reconcile(w, rows, chutes, servers);
      && (forall x :: InstanceDeleted(x) in p.tasks <==> LostIn(w, rows, x))
      && (forall c :: ChuteDeleted(c) in p.tasks <==>
            DropsIn(w, rows, c) || (c in chutes && c !in w.catalogue && (c.validator, c.chuteId) !in w.updating))
      && (forall id :: Undeploy(id) in p.tasks <==> id in w.jobs && id !in w.legacy && id !in p.allDeployments)
      && (forall c :: ChuteCreated(c) in p.tasks <==>
            c in w.catalogue && c !in chutes && (c.validator, c.chuteId) !in w.updating)
      && (forall s :: ServerDeleted(s) in p.tasks <==> s in servers && s !in w.nodes)
  {
    var p, vs := Reconcile(w, rows, chutes, servers), Verdicts(w, rows);
    PassFacts(w, rows, chutes, servers);
    AfterRemovals(w, RecordAll(w, START, vs), chutes, servers);
    AsScheduled(w, rows, chutes, servers, p);
  }

  lemma AsScheduled(w: World, rows: seq<Deployment>, chutes: seq<Chute>, servers: seq<string>, p: Pass)
    requires OneVersionEach(w.catalogue) && Schedules(w, Verdicts(w, rows), chutes, servers, p)
    requires p.allDeployments == RecordAll(w, START, Verdicts(w, rows)).allDeployments
    ensures forall x :: InstanceDeleted(x) in p.tasks <==> LostIn(w, rows, x)
    ensures forall c :: ChuteDeleted(c) in p.tasks <==>
              DropsIn(w, rows, c) || (c in chutes && c !in w.catalogue && (c.validator, c.chuteId) !in w.updating)
    ensures forall id :: Undeploy(id) in p.tasks <==> id in w.jobs && id !in w.legacy && id !in p.allDeployments
  {
    forall x ensures InstanceDeleted(x) in p.tasks <==> LostIn(w, rows, x) {
      GoneInIff(w, rows, x);
    }
    forall c
      ensures ChuteDeleted(c) in p.tasks <==>
                DropsIn(w, rows, c) || (c in chutes && c !in w.catalogue && (c.validator, c.chuteId) !in w.updating)
    {
      RemovalScheduled(p, c);
      DroppedIff(w, rows, c);
      StaleIff(w, c);
    }
  }

  lemma RemovalScheduled(p: Pass, c: Chute)
    requires OncePerChute(p)
    ensures ChuteDeleted(c) in p.tasks <==> c in p.toRemove
  {
    assert p.tasks[ChuteDeleted(c)] == if c in p.toRemove then 1 else 0;
  }

  lemma StaleIff(w: World, c: Chute)
    requires OneVersionEach(w.catalogue)
    ensures Stale(w, c) <==> c !in w.catalogue && (c.validator, c.chuteId) !in w.updating
  {
    CatalogueLists(w.catalogue, c.validator, c.chuteId);
  }

  lemma GoneInIff(w: World, rows: seq<Deployment>, x: string)
    ensures GoneIn(Verdicts(w, rows), x) <==> LostIn(w, rows, x)
  {
    var vs := Verdicts(w, rows);
    if GoneIn(vs, x) {
      var v :| v in vs && v.fate.InstanceGone? && v.d.instanceId.GetOr("") == x;
      var i := RefreshedAs(w, rows, v);
      EarlyTable(w, v.d);
    }
    if i :| 0 <= i < |rows| && IsLost(w, Refresh(w, rows[i])) && Refresh(w, rows[i]).instanceId == Some(x) {
      EarlyTable(w, Refresh(w, rows[i]));
      assert vs[i] in vs;
    }
  }

  lemma DroppedIff(w: World, rows: seq<Deployment>, c: Chute)
    requires OneVersionEach(w.catalogue)
    ensures DroppedBy(Verdicts(w, rows), c) <==> DropsIn(w, rows, c)
  {
    var vs := Verdicts(w, rows);
    if DroppedBy(vs, c) {
      var v :| v in vs && v.drops && ChuteOf(v.d) == c;
      var i := RefreshedAs(w, rows, v);
      LateTable(w, v.d);
    }
    if i :| 0 <= i < |rows| && DropsItsChute(w, Refresh(w, rows[i])) && c == ChuteOf(Refresh(w, rows[i])) {
      LateTable(w, Refresh(w, rows[i]));
      assert vs[i] in vs;
    }
  }

  /** An undeploy in the middle of the loop goes by what is committed: an instance that the pass itself found for a
      deployment it undeploys is not purged by it, neither with the row nor, as the row's config claims it, afterwards.
      */
  lemma FoundInstanceSpared(w: World, rows: seq<Deployment>, chutes: seq<Chute>, servers: seq<string>, i: nat)
    requires UniqueRows(Verdicts(w, rows)) && OneEntryPerInstance(w) && OneVersionEach(w.catalogue) && i < |rows|
    requires rows[i].instanceId == None && Refresh(w, rows[i]).instanceId.Some? && IsOver(w, Refresh(w, rows[i]))
    ensures var d := Refresh(w, rows[i]);
            (d.validator, d.instanceId.value) !in Reconcile(w, rows, chutes, servers).purged
  {
    var d := Refresh(w, rows[i]);
    var x := (d.validator, d.instanceId.value);
    RefreshFacts(w, rows[i]);
    PurgedIff(w, rows, chutes, servers, x);
    OwnRowOnly(w, rows, i, x);
    var k :| LastIn(w.inventory, rows[i].configId.value, k) && d.instanceId == Some(w.inventory[k].instanceId);
    FoundByConfig(w, rows[i], k);
    forall e | e in w.inventory && x == (e.validator, e.instanceId)
      ensures ClaimedBySome(w, Reconcile(w, rows, chutes, servers), rows, e)
    {
      assert e == w.inventory[k];
    }
  }

  lemma OwnRowOnly(w: World, rows: seq<Deployment>, i: nat, x: (string, string))
    requires UniqueRows(Verdicts(w, rows)) && i < |rows|
    requires rows[i].instanceId == None && Refresh(w, rows[i]).instanceId == Some(x.1) && IsOver(w, Refresh(w, rows[i]))
    ensures forall j :: 0 <= j < |rows| ==> !PurgedWith(w, rows[j], Refresh(w, rows[j]), x)
  {
    var vs := Verdicts(w, rows);
    forall j | 0 <= j < |rows| ensures !PurgedWith(w, rows[j], Refresh(w, rows[j]), x) {
      assert vs[i] in vs && vs[j] in vs;
      RefreshFacts(w, rows[j]);
    }
  }

  // The config's line is one of the row's own validator.
  lemma FoundByConfig(w: World, row: Deployment, k: int)
    requires row.instanceId == None && Refresh(w, row).instanceId.Some? && row.configId.Some?
    requires LastIn(w.inventory, row.configId.value, k)
    ensures w.inventory[k].validator == row.validator
  {
    LastByConfigIsLast(w.inventory, row.configId.value);
    IdentifyFinds(w, row);
  }

  // ---- Harmony ----

  // A row that every view agrees with.
  predicate RowAgrees(w: World, d: Deployment) {
    && (w.podConfigs.Some? && d.configId.Some? ==> d.configId.value in w.podConfigs.value)
    && Known(w, d)
    && (var e := Lookup(w.inventory, d.validator, d.instanceId.value).value;
        e.active == d.active && (e.verified ==> d.verifiedAt.Some?))
    && !Outdated(w, d.validator, d.chuteId, d.version)
    && (d.isJob || (!d.stub && InKubernetes(w, d.id) && ((d.active && d.verifiedAt.Some?) || JobFate(w, d.id).Kept?)))
  }

  ghost predicate Harmony(w: World, rows: seq<Deployment>, chutes: seq<Chute>, servers: seq<string>) {
    && (forall d :: d in rows ==> RowAgrees(w, d))
    && (forall e :: e in w.inventory ==> exists d :: d in rows && d.instanceId == Some(e.instanceId))
    && (forall id :: id in w.jobs ==> exists d :: d in rows && d.id == id)
    && (forall c :: c in chutes ==> !Outdated(w, c.validator, c.chuteId, c.version))
    && (forall c :: c in w.catalogue ==> c in chutes)
    && (forall s :: s in servers ==> s in w.nodes)
  }

  lemma AgreeingRowKept(w: World, d: Deployment)
    requires RowAgrees(w, d)
    ensures VerdictOn(w, d).d == d && d.instanceId.Some? && IsTracked(VerdictOn(w, d).fate) && !VerdictOn(w, d).drops
  {
  }

  function Refreshed(vs: seq<Verdict>): seq<Deployment> {
    seq(|vs|, i requires 0 <= i < |vs| => vs[i].d)
  }

  lemma KeptStep(w: World, p: Pass, v: Verdict)
    requires IsTracked(v.fate) && !v.drops
    ensures var q := Record(w, p, v);
            q.rows == p.rows + [v.d] && q.purged == p.purged && q.undeployed == p.undeployed
  {
  }

  lemma {:induction false} KeptUnchanged(w: World, p: Pass, vs: seq<Verdict>)
    requires forall v :: v in vs ==> IsTracked(v.fate) && !v.drops
    ensures var r := RecordAll(w, p, vs);
            r.rows == p.rows + Refreshed(vs) && r.purged == p.purged && r.undeployed == p.undeployed
    decreases |vs|
  {
    if vs == [] {
      assert p.rows + Refreshed(vs) == p.rows;
    } else {
      assert vs[0] in vs;
      KeptStep(w, p, vs[0]);
      KeptUnchanged(w, Record(w, p, vs[0]), vs[1..]);
      ConsRefreshed(p.rows, vs);
    }
  }

  lemma ConsRefreshed(rows: seq<Deployment>, vs: seq<Verdict>)
    requires vs != []
    ensures rows + [vs[0].d] + Refreshed(vs[1..]) == rows + Refreshed(vs)
  {
    assert Refreshed(vs) == [vs[0].d] + Refreshed(vs[1..]);
  }

  lemma AgreeingVerdicts(w: World, rows: seq<Deployment>)
    requires forall d :: d in rows ==> RowAgrees(w, d)
    ensures forall v :: v in Verdicts(w, rows) ==> IsTracked(v.fate) && !v.drops && v.d.instanceId.Some?
    ensures Refreshed(Verdicts(w, rows)) == rows
  {
    forall i | 0 <= i < |rows|
      ensures var v := Verdicts(w, rows)[i]; IsTracked(v.fate) && !v.drops && v.d == rows[i] && v.d.instanceId.Some?
    {
      assert rows[i] in rows;
      AgreeingRowKept(w, rows[i]);
    }
  }

  /** When every view agrees the pass changes no row, purges and undeploys nothing, and schedules no task. */
  lemma HarmonyIsFixed(w: World, rows: seq<Deployment>, chutes: seq<Chute>, servers: seq<string>)
    requires Harmony(w, rows, chutes, servers)
    ensures var p := Reconcile(w, rows, chutes, servers);
            p.rows == rows && p.tasks == multiset{} && p.purged == {} && p.undeployed == {} && p.toRemove == {}
  {
    var p := Reconcile(w, rows, chutes, servers);
    var vs := Verdicts(w, rows);
    var r := RecordAll(w, START, vs);
    AgreeingVerdicts(w, rows);
    KeptUnchanged(w, START, vs);
    PassFacts(w, rows, chutes, servers);
    AfterRemovals(w, r, chutes, servers);
    EverythingClaimed(w, rows, chutes, servers);
    NothingScheduled(w, vs, chutes, servers, p);
  }

  lemma NothingScheduled(w: World, vs: seq<Verdict>, chutes: seq<Chute>, servers: seq<string>, p: Pass)
    requires Schedules(w, vs, chutes, servers, p)
    requires forall v :: v in vs ==> IsTracked(v.fate) && !v.drops
    requires forall c :: c in chutes ==> !Outdated(w, c.validator, c.chuteId, c.version)
    requires forall c :: c in w.catalogue ==> c in chutes
    requires forall s :: s in servers ==> s in w.nodes
    requires Untracked(w, RecordAll(w, START, vs)) == {}
    ensures p.tasks == multiset{} && p.toRemove == {}
  {
    forall c ensures c !in p.toRemove {
      assert !DroppedBy(vs, c);
    }
    forall t ensures t !in p.tasks {
      match t
      case InstanceDeleted(i) => assert !GoneIn(vs, i);
      case ChuteDeleted(c) => assert p.tasks[ChuteDeleted(c)] == 0;
      case Undeploy(id) => assert id !in Untracked(w, RecordAll(w, START, vs));
      case ChuteCreated(c) =>
      case ServerDeleted(s) =>
    }
  }

  lemma EverythingClaimed(w: World, rows: seq<Deployment>, chutes: seq<Chute>, servers: seq<string>)
    requires Harmony(w, rows, chutes, servers)
    ensures var r := RecordAll(w, START, Verdicts(w, rows));
            Untracked(w, r) == {} && forall e :: e in w.inventory ==> !Unclaimed(r, e)
  {
    var vs := Verdicts(w, rows);
    var r := RecordAll(w, START, vs);
    AgreeingVerdicts(w, rows);
    VerdictsGrow(w, START, vs);
    forall d | d in rows
      ensures d.id in r.allDeployments && d.instanceId.Some? && d.instanceId.value in r.allInstances
    {
      var i :| 0 <= i < |rows| && rows[i] == d;
      assert vs[i] in vs;
      VerdictTracked(w, START, vs, vs[i]);
    }
  }
}
