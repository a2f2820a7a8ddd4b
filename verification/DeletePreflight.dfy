/** The preflight of an undeploy, `MultiClusterK8sOperator.delete_preflight`: what the database, the job cache, the
    cluster's health record and the live cluster must agree on before a deployment may be deleted. */
module DeletePreflight {
  import opened Options
  import opened ClusterHealth
  import ResourceCache

  // Where the cache has the deployment's job, and the resource version it knows.
  datatype Cached = Nowhere | Several | CachedIn(cluster: string, version: Option<string>)

  // What reading the job from its cluster gives.
  datatype Live = NoClient | NotFound | Failed | Answer(version: Option<string>)

  datatype Verdict = Allowed | Vetoed | Raised

  predicate Given(version: Option<string>) {
    version.Some? && version.value != ""
  }

  // `_is_resource_stale`
  predicate Stale(version: Option<string>, live: Live) {
    Given(version) && (live.Failed? || (live.Answer? && Given(live.version) && live.version != version))
  }

  // The stale check is reached only for a job cached where the database has it, on a healthy cluster.
  predicate FindsStale(m: Monitor, server: Option<string>, cached: Cached, live: Live) {
    && Given(server) && cached.CachedIn? && cached.cluster == server.value
    && Healthy(m, server.value) && Stale(cached.version, live)
  }

  function Decide(m: Monitor, server: Option<string>, cached: Cached, live: Live): Verdict {
    if !Given(server) then Allowed
    else if cached.Several? then Raised
    else if cached.CachedIn? && cached.cluster != server.value then Vetoed
    else if !Healthy(m, server.value) || FindsStale(m, server, cached, live) then Vetoed
    else Allowed
  }

  // A version is there and not empty.
  predicate Known(version: Option<string>) {
    version != None && version != Some("")
  }

  // Reading the job from its cluster does not contradict the cache: there is no client or no job, or no version to
  // compare, or the same one.
  predicate LiveAgrees(version: Option<string>, live: Live) {
    match live
    case NoClient => true
    case NotFound => true
    case Failed => !Known(version)
    case Answer(other) => Known(version) && Known(other) ==> other == version
  }

  /** A delete is allowed exactly when the database does not know the deployment, or its cluster is active or starting,
      the job is cached there or nowhere, and the live cluster does not contradict the cache; it raises exactly for a
      known deployment whose job is cached on several clusters. */
  lemma AllowedIff(m: Monitor, server: Option<string>, cached: Cached, live: Live)
    ensures Decide(m, server, cached, live).Raised? <==> Known(server) && cached.Several?
    ensures Decide(m, server, cached, live).Allowed? <==>
              Known(server) ==>
                && server.value in m.health
                && (m.health[server.value].state == Active || m.health[server.value].state == Starting)
                && (match cached
                    case Nowhere => true
                    case Several => false
                    case CachedIn(cluster, version) => cluster == server.value && LiveAgrees(version, live))
    ensures FindsStale(m, server, cached, live) <==>
              && Known(server) && cached.CachedIn? && cached.cluster == server.value
              && server.value in m.health
              && (m.health[server.value].state == Active || m.health[server.value].state == Starting)
              && !LiveAgrees(cached.version, live)
  {
  }

  /** The operator's side, marking health records in place. */
  class Operator {
    const service: Service

    constructor (service: Service)
      ensures this.service == service
    {
      this.service := service;
    }

    method IsResourceStale(cluster: string, version: Option<string>, live: Live, now: int) returns (stale: bool)
      modifies service
      ensures stale == Stale(version, live)
      ensures stale <==> !LiveAgrees(version, live)
      ensures service.health == if stale then old(service.health)[cluster := Marked(old(service.health), cluster, now)]
                                else old(service.health)
    {
      if !Given(version) {
        return false;
      }
      if live.Failed? {
        service.MarkUnhealthy(cluster, now);
        return true;
      }
      if live.Answer? && Given(live.version) && live.version != version {
        service.MarkUnhealthy(cluster, now);
        return true;
      }
      return false;
    }

    /** A veto for staleness also marks the cluster; every other verdict leaves the records alone. */
    method Preflight(ghost m: Monitor, server: Option<string>, cached: Cached, live: Live, now: int)
      returns (v: Verdict)
      requires m.health == service.health
      modifies service
      ensures v == Decide(m, server, cached, live)
      ensures v.Allowed? && Known(server) ==>
                && server.value in service.health && IsHealthy(service.health[server.value]) && !cached.Several?
                && (cached.CachedIn? ==> cached.cluster == server.value && LiveAgrees(cached.version, live))
      ensures m.(health := service.health)
           == if FindsStale(m, server, cached, live) then Next(m, Mark(server.value, now)) else m
    {
      if server.None? || server.value == "" {
        return Allowed;
      }
      var cluster := server.value;
      if cached.Several? {
        return Raised;
      }
      if cached.CachedIn? && cached.cluster != cluster {
        return Vetoed;
      }
      if cluster !in service.health || !IsHealthy(service.health[cluster]) {
        return Vetoed;
      }
      if cached.CachedIn? {
        var stale := IsResourceStale(cluster, cached.version, live, now);
        if stale {
          return Vetoed;
        }
      }
      return Allowed;
    }
  }

  /** After a veto for staleness no deployment the database has on that cluster can be deleted, however the system
      goes on, until the router accepts a full snapshot of it or a heartbeat admitted before the mark lands: an
      allowed delete has such a step behind it, with the cluster healthy ever since, and a snapshot that was not cut
      short rewrote the cache. */
  lemma StaleVetoLasts(m: Monitor, server: string, found: Cached, seen: Live, now: int,
                       t: seq<Monitor>, es: seq<Step>, cached: Cached, live: Live)
    returns (k: nat)
    requires FindsStale(m, Some(server), found, seen)
    requires IsRun(t, es) && t[0] == Next(m, Mark(server, now))
    requires Decide(t[|es|], Some(server), cached, live).Allowed?
    ensures k < |es|
    ensures (AcceptsSnapshot(t[k], es[k], server) && es[k].progress > 0) || LateBeat(t[k], es[k], server)
    ensures AcceptsSnapshot(t[k], es[k], server)
            && es[k].progress >= |SnapshotWrites(server, es[k].now, es[k].resources)| ==>
              t[k + 1].store == ResourceCache.Apply(t[k].store, ResourceCache.SetResources(server, es[k].resources))
    ensures forall j :: k < j <= |es| ==> Healthy(t[j], server)
  {
    k := RecoveryNeedsSnapshot(t, es, server);
  }
}
