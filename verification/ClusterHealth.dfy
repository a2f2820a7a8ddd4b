/** The control plane's health protocol: registrations, resyncs, heartbeats, the health passes and the
    preflight's mark, as steps over one Redis that several processes write. */
module ClusterHealth {
  import opened Options
  import opened ResourceCache

  datatype ClusterState = Inactive | Starting | Active | Error | Unhealthy

  // Times are in seconds.
  datatype Status = Status(state: ClusterState, heartbeat: Option<int>, failures: nat)

  const ONE_HOUR := 3600

  predicate IsHealthy(s: Status) {
    s.state.Active? || s.state.Starting?
  }

  // ---- Single writes to Redis ----

  datatype Write =
    | PutHealth(cluster: string, status: Status)
    | DropHealth(cluster: string)
    | DropKind(cluster: string, kind: Kind)
    | PutKind(cluster: string, kind: Kind, fields: Hash)

  // A heartbeat the router admitted but has not yet written.
  datatype Beat = Beat(cluster: string, state: ClusterState, stamp: Option<int>)

  datatype Monitor = Monitor(health: map<string, Status>, store: Store, beats: map<nat, Beat>, servers: set<string>)

  function Perform(m: Monitor, w: Write): Monitor {
    match w
    case PutHealth(c, status) => m.(health := m.health[c := status])
    case DropHealth(c) => m.(health := m.health - {c})
    case DropKind(c, kind) => m.(store := m.store - {(c, kind)})
    case PutKind(c, kind, fields) => m.(store := HSet(m.store, (c, kind), fields))
  }

  function PerformAll(m: Monitor, ws: seq<Write>): Monitor
    decreases |ws|
  {
    if ws == [] then m else PerformAll(Perform(m, ws[0]), ws[1..])
  }

  function PutKinds(c: string, r: Resources, kinds: seq<Kind>): seq<Write>
    decreases |kinds|
  {
    if kinds == [] then []
    else (if r.Of(kinds[0]) == [] then []
        else [PutKind(c, kinds[0], ToHash(r.Of(kinds[0])))]) + PutKinds(c, r, kinds[1..])
  }

  function DropKinds(c: string, kinds: seq<Kind>): seq<Write>
    decreases |kinds|
  {
    if kinds == [] then [] else [DropKind(c, kinds[0])] + DropKinds(c, kinds[1..])
  }

  // Registering and resyncing write the status first, then clear, then store the snapshot.
  function SnapshotWrites(c: string, now: int, r: Resources): seq<Write> {
    [PutHealth(c, Status(Starting, Some(now), 0))]
    + DropKinds(c, CLEAR_ORDER[1..])
    + PutKinds(c, r, WRITE_ORDER)
  }

  function RemovalWrites(c: string): seq<Write> {
    DropKinds(c, CLEAR_ORDER) + [DropHealth(c)]
  }

  // The writes done before a failure, or all of them.
  function Upto(ws: seq<Write>, progress: nat): seq<Write> {
    if progress < |ws| then ws[..progress] else ws
  }

  // ---- Steps ----

  datatype Step =
    | Register(cluster: string, now: int, resources: Resources, progress: nat)
    | Resync(cluster: string, now: int, resources: Resources, progress: nat)
    | Remove(cluster: string, progress: nat)
    | Watch(cluster: string, kind: Kind, event: Event)
    | ReadBeat(req: nat, beat: Beat)
    | WriteBeat(req: nat)
    | HealthPass(now: int, interval: nat)
    | CleanupPass(now: int)
    | Mark(cluster: string, now: int)
    | AddServer(cluster: string)
    | DropServer(cluster: string)

  predicate IsStale(s: Status, now: int, interval: nat) {
    s.heartbeat.None? || now - s.heartbeat.value > 2 * interval
  }

  function Checked(s: Status, now: int, interval: nat): Status {
    if IsStale(s, now, interval) && IsHealthy(s) then Status(Unhealthy, s.heartbeat, 0) else s
  }

  // A status without a heartbeat cannot be compared and is left alone.
  function CleanedUp(s: Status, now: int): Status {
    if s.heartbeat.Some? && s.heartbeat.value < now - ONE_HOUR && !s.state.Error? then Status(Error, s.heartbeat, 0)
    else s
  }

  function Marked(health: map<string, Status>, c: string, now: int): Status {
    if c in health then Status(Unhealthy, Some(health[c].heartbeat.GetOr(now)), health[c].failures)
    else Status(Unhealthy, Some(now), 0)
  }

  function Next(m: Monitor, e: Step): Monitor {
    match e
    case Register(c, now, r, progress) =>
      if c !in m.servers || c in m.health then m else PerformAll(m, Upto(SnapshotWrites(c, now, r), progress))
    case Resync(c, now, r, progress) =>
      if c !in m.servers || c !in m.health then m else PerformAll(m, Upto(SnapshotWrites(c, now, r), progress))
    case Remove(c, progress) => PerformAll(m, Upto(RemovalWrites(c), progress))
    case Watch(c, kind, event) => m.(store := Apply(m.store, Update(c, kind, event)))
    case ReadBeat(req, beat) =>
      if req in m.beats || beat.cluster !in m.health || !IsHealthy(m.health[beat.cluster]) then m
      else m.(beats := m.beats[req := beat])
    case WriteBeat(req) =>
      if req !in m.beats then m
      else
        var b := m.beats[req];
        m.(health := m.health[b.cluster := Status(b.state, b.stamp, 0)], beats := m.beats - {req})
    case HealthPass(now, interval) => m.(health := map c | c in m.health :: Checked(m.health[c], now, interval))
    case CleanupPass(now) => m.(health := map c | c in m.health :: CleanedUp(m.health[c], now))
    case Mark(c, now) => m.(health := m.health[c := Marked(m.health, c, now)])
    case AddServer(c) => m.(servers := m.servers + {c})
    case DropServer(c) => m.(servers := m.servers - {c})
  }

  ghost predicate Follows(t: seq<Monitor>, es: seq<Step>, i: int)
    requires |t| == |es| + 1
  {
    0 <= i < |es| && t[i + 1] == Next(t[i], es[i])
  }

  // A run: the states it goes through and the steps between them.
  ghost predicate IsRun(t: seq<Monitor>, es: seq<Step>) {
    |t| == |es| + 1 && forall i :: 0 <= i < |es| ==> Follows(t, es, i)
  }

  predicate Healthy(m: Monitor, c: string) {
    c in m.health && IsHealthy(m.health[c])
  }

  // ---- Which steps heal a cluster ----

  // The router accepts a full snapshot of the cluster.
  predicate AcceptsSnapshot(m: Monitor, e: Step, c: string) {
    && (e.Register? || e.Resync?)
    && e.cluster == c && c in m.servers
    && (e.Register? <==> c !in m.health)
  }

  // A heartbeat admitted while the cluster was healthy lands now.
  predicate LateBeat(m: Monitor, e: Step, c: string) {
    && e.WriteBeat? && e.req in m.beats
    && m.beats[e.req].cluster == c
    && (m.beats[e.req].state.Active? || m.beats[e.req].state.Starting?)
  }

  lemma {:induction false} StoreWritesKeepHealth(m: Monitor, ws: seq<Write>)
    requires forall w :: w in ws ==> w.DropKind? || w.PutKind?
    ensures PerformAll(m, ws).health == m.health
    decreases |ws|
  {
    if ws != [] {
      assert ws[0] in ws;
      StoreWritesKeepHealth(Perform(m, ws[0]), ws[1..]);
    }
  }

  lemma {:induction false} PutKindsOnly(c: string, r: Resources, kinds: seq<Kind>)
    ensures forall w :: w in PutKinds(c, r, kinds) ==> w.PutKind?
    decreases |kinds|
  {
    if kinds != [] {
      PutKindsOnly(c, r, kinds[1..]);
    }
  }

  lemma {:induction false} DropKindsOnly(c: string, kinds: seq<Kind>)
    ensures forall w :: w in DropKinds(c, kinds) ==> w.DropKind?
    decreases |kinds|
  {
    if kinds != [] {
      DropKindsOnly(c, kinds[1..]);
    }
  }

  lemma SnapshotHealth(m: Monitor, c: string, now: int, r: Resources, progress: nat)
    ensures PerformAll(m, Upto(SnapshotWrites(c, now, r), progress)).health ==
              if progress == 0 then m.health else m.health[c := Status(Starting, Some(now), 0)]
  {
    var ws := SnapshotWrites(c, now, r);
    var done := Upto(ws, progress);
    PutKindsOnly(c, r, WRITE_ORDER);
    DropKindsOnly(c, CLEAR_ORDER[1..]);
    if progress > 0 {
      assert done[0] == ws[0];
      forall w | w in done[1..] ensures w.DropKind? || w.PutKind? {
        var i :| 0 <= i < |done| - 1 && done[1..][i] == w;
        assert w == ws[i + 1];
      }
      StoreWritesKeepHealth(Perform(m, done[0]), done[1..]);
    }
  }

  /** The status is the last thing a removal drops: it is gone exactly when the removal got to its end. */
  lemma RemovalHealth(m: Monitor, c: string, progress: nat)
    ensures PerformAll(m, Upto(RemovalWrites(c), progress)).health
         == if progress >= |RemovalWrites(c)| then m.health - {c} else m.health
  {
    var drops := DropKinds(c, CLEAR_ORDER);
    var ws := Upto(RemovalWrites(c), progress);
    DropKindsOnly(c, CLEAR_ORDER);
    if progress >= |RemovalWrites(c)| {
      assert ws == drops + [DropHealth(c)];
      PerformSplit(m, drops, [DropHealth(c)]);
      StoreWritesKeepHealth(m, drops);
      assert PerformAll(PerformAll(m, drops), [DropHealth(c)]) == Perform(PerformAll(m, drops), DropHealth(c));
    } else {
      assert ws <= drops;
      StoreWritesKeepHealth(m, ws);
    }
  }

  /** A removal that got to its end leaves none of the cluster's objects, nodes included, and all others. */
  lemma RemovalClears(m: Monitor, c: string, progress: nat)
    requires progress >= |RemovalWrites(c)|
    ensures PerformAll(m, Upto(RemovalWrites(c), progress)).store
         == map key | key in m.store && key.0 != c :: m.store[key]
  {
    var drops := DropKinds(c, CLEAR_ORDER);
    assert Upto(RemovalWrites(c), progress) == drops + [DropHealth(c)];
    PerformSplit(m, drops, [DropHealth(c)]);
    DropKindsStore(m, c, CLEAR_ORDER);
    forall k: Kind ensures k in CLEAR_ORDER {
      assert k == CLEAR_ORDER[0] || k == CLEAR_ORDER[1] || k == CLEAR_ORDER[2] || k == CLEAR_ORDER[3]
          || k == CLEAR_ORDER[4];
    }
    var n := PerformAll(m, drops);
    assert PerformAll(n, [DropHealth(c)]) == Perform(n, DropHealth(c));
  }

  lemma {:induction false} PerformSplit(m: Monitor, ws: seq<Write>, vs: seq<Write>)
    ensures PerformAll(m, ws + vs) == PerformAll(PerformAll(m, ws), vs)
    decreases |ws|
  {
    if ws == [] {
      assert ws + vs == vs;
    } else {
      PerformSplit(Perform(m, ws[0]), ws[1..], vs);
      assert (ws + vs)[1..] == ws[1..] + vs;
    }
  }

  lemma SnapshotHeals(m: Monitor, e: Step, c: string)
    requires !Healthy(m, c) && (e.Register? || e.Resync?)
    ensures Healthy(Next(m, e), c) <==> AcceptsSnapshot(m, e, c) && e.progress > 0
  {
    SnapshotHealth(m, e.cluster, e.now, e.resources, e.progress);
  }

  lemma OtherStepsHeal(m: Monitor, e: Step, c: string)
    requires !Healthy(m, c) && !e.Register? && !e.Resync? && !e.Remove?
    ensures Healthy(Next(m, e), c) <==> LateBeat(m, e, c)
  {
  }

  /** A cluster that is not healthy becomes so by exactly two kinds of step: a snapshot that got at least as
      far as its first write, or a heartbeat admitted earlier that lands late. */
  lemma HealsIff(m: Monitor, e: Step, c: string)
    requires !Healthy(m, c)
    ensures Healthy(Next(m, e), c) <==> (AcceptsSnapshot(m, e, c) && e.progress > 0) || LateBeat(m, e, c)
  {
    if e.Register? || e.Resync? {
      SnapshotHeals(m, e, c);
    } else if e.Remove? {
      RemovalHealth(m, e.cluster, e.progress);
    } else {
      OtherStepsHeal(m, e, c);
    }
  }

  lemma {:induction false} PutKindsStore(m: Monitor, c: string, r: Resources, kinds: seq<Kind>)
    ensures PerformAll(m, PutKinds(c, r, kinds)).store == WriteKinds(m.store, c, r, kinds)
    decreases |kinds|
  {
    if kinds != [] {
      var first := if r.Of(kinds[0]) == [] then [] else [PutKind(c, kinds[0], ToHash(r.Of(kinds[0])))];
      PerformSplit(m, first, PutKinds(c, r, kinds[1..]));
      PutKindsStore(PerformAll(m, first), c, r, kinds[1..]);
      assert first != [] ==> PerformAll(Perform(m, first[0]), []) == PerformAll(m, first);
    }
  }

  lemma {:induction false} DropKindsStore(m: Monitor, c: string, kinds: seq<Kind>)
    ensures PerformAll(m, DropKinds(c, kinds)) ==
              m.(store := map key | key in m.store && !(key.0 == c && key.1 in kinds) :: m.store[key])
    decreases |kinds|
  {
    if kinds == [] {
      assert m.store == map key | key in m.store && !(key.0 == c && key.1 in kinds) :: m.store[key];
    } else {
      DropKindsStore(Perform(m, DropKind(c, kinds[0])), c, kinds[1..]);
      assert kinds == [kinds[0]] + kinds[1..];
    }
  }

  lemma ClearedByDrops(m: Monitor, c: string)
    ensures PerformAll(m, DropKinds(c, CLEAR_ORDER[1..])) == m.(store := Cleared(m.store, c, false))
  {
    DropKindsStore(m, c, CLEAR_ORDER[1..]);
    assert CLEAR_ORDER[1..] == [DeploymentKind, ServiceKind, PodKind, JobKind];
    forall k: Kind ensures k in CLEAR_ORDER[1..] <==> Clears(k, false) {
      assert k in [DeploymentKind, ServiceKind, PodKind, JobKind] <==> !k.NodeKind?;
    }
  }

  // A status, then drops, then the objects of the given types.
  lemma PerformInOrder(m: Monitor, status: Write, drops: seq<Write>, c: string, r: Resources, kinds: seq<Kind>)
    ensures PerformAll(m, [status] + drops + PutKinds(c, r, kinds)).store
         == WriteKinds(PerformAll(Perform(m, status), drops).store, c, r, kinds)
  {
    var puts := PutKinds(c, r, kinds);
    var ws := [status] + drops + puts;
    assert ws[0] == status && ws[1..] == drops + puts;
    PerformSplit(Perform(m, status), drops, puts);
    PutKindsStore(PerformAll(Perform(m, status), drops), c, r, kinds);
  }

  /** A snapshot all of whose writes were done leaves the cache rewritten from it. */
  lemma SnapshotRewritesCache(m: Monitor, c: string, now: int, r: Resources, progress: nat)
    requires progress >= |SnapshotWrites(c, now, r)|
    ensures PerformAll(m, Upto(SnapshotWrites(c, now, r), progress)).store == Apply(m.store, SetResources(c, r))
  {
    var status := PutHealth(c, Status(Starting, Some(now), 0));
    PerformInOrder(m, status, DropKinds(c, CLEAR_ORDER[1..]), c, r, WRITE_ORDER);
    ClearedByDrops(Perform(m, status), c);
  }

  // ---- Whole runs ----

  lemma {:induction false} LastFalse(h: seq<bool>) returns (k: nat)
    requires h != [] && !h[0] && h[|h| - 1]
    ensures k < |h| - 1 && !h[k] && forall j :: k < j < |h| ==> h[j]
  {
    var n := |h| - 1;
    if h[n - 1] {
      k := LastFalse(h[..n]);
    } else {
      k := n - 1;
    }
  }

  lemma HealingStep(t: seq<Monitor>, es: seq<Step>, c: string, k: nat)
    requires |t| == |es| + 1 && k < |es| && Follows(t, es, k)
    requires !Healthy(t[k], c) && Healthy(t[k + 1], c)
    ensures (AcceptsSnapshot(t[k], es[k], c) && es[k].progress > 0) || LateBeat(t[k], es[k], c)
    ensures AcceptsSnapshot(t[k], es[k], c) && es[k].progress >= |SnapshotWrites(c, es[k].now, es[k].resources)| ==>
              t[k + 1].store == Apply(t[k].store, SetResources(c, es[k].resources))
  {
    HealsIff(t[k], es[k], c);
    if AcceptsSnapshot(t[k], es[k], c) && es[k].progress >= |SnapshotWrites(c, es[k].now, es[k].resources)| {
      SnapshotRewritesCache(t[k], c, es[k].now, es[k].resources, es[k].progress);
    }
  }

  /** In every run a cluster that was not healthy is healthy later only after an accepted snapshot or a heartbeat
      admitted before it became unhealthy, with nothing but healthy states since; and a snapshot that was not cut short
      rewrote the cache in that step. */
  lemma RecoveryNeedsSnapshot(t: seq<Monitor>, es: seq<Step>, c: string) returns (k: nat)
    requires IsRun(t, es) && !Healthy(t[0], c) && Healthy(t[|es|], c)
    ensures k < |es| && !Healthy(t[k], c)
    ensures (AcceptsSnapshot(t[k], es[k], c) && es[k].progress > 0) || LateBeat(t[k], es[k], c)
    ensures AcceptsSnapshot(t[k], es[k], c) && es[k].progress >= |SnapshotWrites(c, es[k].now, es[k].resources)| ==>
              t[k + 1].store == Apply(t[k].store, SetResources(c, es[k].resources))
    ensures forall j :: k < j <= |es| ==> Healthy(t[j], c)
  {
    k := LastUnhealthy(t, c);
    assert Follows(t, es, k);
    HealingStep(t, es, c, k);
  }

  lemma LastUnhealthy(t: seq<Monitor>, c: string) returns (k: nat)
    requires t != [] && !Healthy(t[0], c) && Healthy(t[|t| - 1], c)
    ensures k < |t| - 1 && !Healthy(t[k], c) && forall j :: k < j < |t| ==> Healthy(t[j], c)
  {
    var h := seq(|t|, i requires 0 <= i < |t| => Healthy(t[i], c));
    k := LastFalse(h);
    forall j | k < j < |t| ensures Healthy(t[j], c) {
      assert h[j];
    }
  }

  /** The status is written before the cache, so a resync that fails after its first write heals the cluster and leaves
      all its objects, however stale, in place. */
  lemma InterruptedSnapshotHeals(m: Monitor, c: string, now: int, r: Resources)
    requires c in m.servers && c in m.health
    ensures var n := Next(m, Resync(c, now, r, 1)); Healthy(n, c) && n.store == m.store
  {
    var status := PutHealth(c, Status(Starting, Some(now), 0));
    var ws := Upto(SnapshotWrites(c, now, r), 1);
    assert ws == [status] && ws[1..] == [];
    assert PerformAll(m, ws) == PerformAll(Perform(m, status), []);
  }

  /** For one, a pod the snapshot no longer lists. */
  lemma StaleAfterInterruption()
    ensures
      var stale := map[("c", PodKind) := map["ns:p" := "old"]];
      var m := Monitor(map["c" := Status(Unhealthy, Some(0), 0)], stale, map[], {"c"});
      var r := Resources([], [], [], [], []);
      var n := Next(m, Resync("c", 5, r, 1));
      !Healthy(m, "c") && Healthy(n, "c") && n.store != Apply(m.store, SetResources("c", r))
  {
    var stale := map[("c", PodKind) := map["ns:p" := "old"]];
    var m := Monitor(map["c" := Status(Unhealthy, Some(0), 0)], stale, map[], {"c"});
    var r := Resources([], [], [], [], []);
    InterruptedSnapshotHeals(m, "c", 5, r);
    assert "ns:p" in Read(stale, ("c", PodKind));
    EmptySnapshotDrops(stale, "c", r);
  }

  lemma PodsCleared(s: Store, c: string)
    ensures Read(Cleared(s, c, false), (c, PodKind)) == map[]
  {
  }

  lemma EmptySnapshotDrops(s: Store, c: string, r: Resources)
    requires r.pods == [] && Read(s, (c, PodKind)) != map[]
    ensures Apply(s, SetResources(c, r)) != s
  {
    SnapshotReads(s, c, r, PodKind);
    PodsCleared(s, c);
    assert ToHash([]) == map[];
  }

  /** A mark from another process that falls between a heartbeat's check and its write is undone by the write: the
      cluster is healthy again, with no snapshot and the same objects. */
  lemma LateHeartbeatUndoesMark(m: Monitor, req: nat, beat: Beat, now: int)
    requires Healthy(m, beat.cluster) && req !in m.beats && (beat.state.Active? || beat.state.Starting?)
    ensures
      var marked := Next(Next(m, ReadBeat(req, beat)), Mark(beat.cluster, now));
      var after := Next(marked, WriteBeat(req));
      !Healthy(marked, beat.cluster) && Healthy(after, beat.cluster) && after.store == m.store
  {
  }

  // Nothing but statuses has changed, and those of the same clusters.
  ghost predicate OnlyStatuses(m: Monitor, n: Monitor) {
    n == m.(health := n.health) && n.health.Keys == m.health.Keys
  }

  // What a health pass leaves of a status: an active or starting cluster whose heartbeat is missing or older than twice
  // the interval is marked; any other status stays.
  ghost predicate PassedHealth(was: Status, now: int, interval: nat, left: Status) {
    if (was.state.Active? || was.state.Starting?)
       && (was.heartbeat.None? || now - was.heartbeat.value > 2 * interval)
    then left == Status(Unhealthy, was.heartbeat, 0)
    else left == was
  }

  // What a cleanup pass leaves of one: a heartbeat older than an hour means ERROR; any other status stays.
  ghost predicate PassedCleanup(was: Status, now: int, left: Status) {
    && left.heartbeat == was.heartbeat
    && (left.state.Error? <==> was.state.Error? || (was.heartbeat.Some? && now - was.heartbeat.value > 3600))
    && (left != was ==> left == Status(Error, was.heartbeat, 0) && !was.state.Error?)
  }

  /** Which statuses the two passes change, and how. */
  lemma PassesFacts(m: Monitor, now: int, interval: nat)
    ensures
      var n := Next(m, HealthPass(now, interval));
      OnlyStatuses(m, n) && forall c :: c in m.health ==> PassedHealth(m.health[c], now, interval, n.health[c])
    ensures
      var n := Next(m, CleanupPass(now));
      OnlyStatuses(m, n) && forall c :: c in m.health ==> PassedCleanup(m.health[c], now, n.health[c])
  {
  }

  /** A mark keeps the heartbeat and the failure count there are; a heartbeat is admitted for an active or starting
      cluster, and replaces its status when it lands. */
  lemma WritesFacts(m: Monitor, c: string, now: int, req: nat)
    ensures
      var n := Next(m, Mark(c, now));
      && n == m.(health := n.health) && c in n.health && n.health == m.health[c := n.health[c]]
      && n.health[c].state == Unhealthy
      && n.health[c].heartbeat == (if c in m.health && m.health[c].heartbeat.Some? then m.health[c].heartbeat
                                   else Some(now))
      && n.health[c].failures == if c in m.health then m.health[c].failures else 0
    ensures
      req in m.beats ==>
        var n, b := Next(m, WriteBeat(req)), m.beats[req];
        n == m.(health := m.health[b.cluster := Status(b.state, b.stamp, 0)], beats := m.beats - {req})
    ensures
      forall beat :: req !in m.beats ==>
        Next(m, ReadBeat(req, beat))
        == if beat.cluster in m.health
              && (m.health[beat.cluster].state == Active || m.health[beat.cluster].state == Starting)
           then m.(beats := m.beats[req := beat]) else m
  {
  }

  /** After a health pass a cluster is healthy exactly when it was and its heartbeat is no older than twice
      the interval. */
  lemma HealthPassLeavesFresh(m: Monitor, now: int, interval: nat, c: string)
    ensures var n := Next(m, HealthPass(now, interval));
            Healthy(n, c) <==> (
              Healthy(m, c) && m.health[c].heartbeat.Some? && now - m.health[c].heartbeat.value <= 2 * interval)
    ensures var n := Next(m, HealthPass(now, interval));
            Healthy(n, c) ==> n.health[c] == m.health[c]
  {
  }

  /** The service's own operations, changing the health records in place. */
  class Service {
    var health: map<string, Status>

    // False stands for the 404 and 409 answers.
    method HandleHeartbeat(c: string, state: ClusterState, stamp: Option<int>) returns (accepted: bool)
      modifies this
      ensures accepted <==> c in old(health) && (old(health)[c].state.Active? || old(health)[c].state.Starting?)
      ensures health == if accepted then old(health)[c := Status(state, stamp, 0)] else old(health)
    {
      if c !in health {
        return false;
      }
      if !IsHealthy(health[c]) {
        return false;
      }
      health := health[c := Status(state, stamp, 0)];
      return true;
    }

    method CheckAllClusters(now: int, interval: nat)
      modifies this
      ensures health == map c | c in old(health) :: Checked(old(health)[c], now, interval)
      ensures forall c :: c in health && IsHealthy(health[c]) ==>
                health[c].heartbeat.Some? && now - health[c].heartbeat.value <= 2 * interval
      ensures health.Keys == old(health).Keys
      ensures forall c :: c in health ==> PassedHealth(old(health)[c], now, interval, health[c])
    {
      var statuses := health;
      var left := statuses.Keys;
      while left != {}
        invariant left <= statuses.Keys == health.Keys
        invariant forall c :: c in left ==> health[c] == statuses[c]
        invariant forall c :: c in statuses && c !in left ==> health[c] == Checked(statuses[c], now, interval)
        decreases left
      {
        var c :| c in left;
        left := left - {c};
        var status := statuses[c];
        var healthy := true;
        if status.heartbeat.None? {
          healthy := false;
        } else if now - status.heartbeat.value > 2 * interval {
          healthy := false;
        }
        if !healthy && IsHealthy(status) {
          health := health[c := Status(Unhealthy, status.heartbeat, 0)];
        }
      }
    }

    method CleanupStaleClusters(now: int)
      modifies this
      ensures health == map c | c in old(health) :: CleanedUp(old(health)[c], now)
      ensures health.Keys == old(health).Keys
      ensures forall c :: c in health ==> PassedCleanup(old(health)[c], now, health[c])
    {
      var statuses := health;
      var left := statuses.Keys;
      while left != {}
        invariant left <= statuses.Keys == health.Keys
        invariant forall c :: c in left ==> health[c] == statuses[c]
        invariant forall c :: c in statuses && c !in left ==> health[c] == CleanedUp(statuses[c], now)
        decreases left
      {
        var c :| c in left;
        left := left - {c};
        var status := statuses[c];
        if status.heartbeat.Some? && status.heartbeat.value < now - ONE_HOUR && !status.state.Error? {
          health := health[c := Status(Error, status.heartbeat, 0)];
        }
      }
    }

    method MarkUnhealthy(c: string, now: int)
      modifies this
      ensures health == old(health)[c := Marked(old(health), c, now)]
      ensures health[c].state.Unhealthy?
      ensures health[c].heartbeat == if c in old(health) && old(health)[c].heartbeat.Some? then old(health)[c].heartbeat
                                     else Some(now)
      ensures health[c].failures == if c in old(health) then old(health)[c].failures else 0
    {
      var heartbeat := now;
      var failures: nat := 0;
      if c in health {
        heartbeat := health[c].heartbeat.GetOr(now);
        failures := health[c].failures;
      }
      health := health[c := Status(Unhealthy, Some(heartbeat), failures)];
    }
  }
}
