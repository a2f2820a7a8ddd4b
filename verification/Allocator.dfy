/** GPU claims: `K8sOperator.deploy_chute` run by any number of callers at once against one database,
    interleaved with undeploys, failures and inventory changes. */
module Allocator {
  import opened Options

  datatype Gpu = Gpu(server: string, verified: bool, owner: Option<string>)

  // A deployment row; `want` is the GPU count of the chute when the row was inserted.
  datatype Row = Row(server: string, want: nat, stub: bool)

  datatype Db = Db(servers: set<string>, gpus: map<string, Gpu>, rows: map<string, Row>)

  // ---- The database operations ----

  predicate IsFree(gpus: map<string, Gpu>, g: string) {
    g in gpus && gpus[g].owner.None?
  }

  // `_verify_gpus`: what may be offered to a new deployment.
  function Available(gpus: map<string, Gpu>, server: string): set<string> {
    set g | g in gpus && gpus[g].server == server && gpus[g].verified && gpus[g].owner.None?
  }

  function Held(gpus: map<string, Gpu>, dep: string): set<string> {
    set g | g in gpus && gpus[g].owner == Some(dep)
  }

  function OnServer(gpus: map<string, Gpu>, server: string): set<string> {
    set g | g in gpus && gpus[g].server == server
  }

  function Elements(s: seq<string>): set<string> {
    set g | g in s
  }

  predicate Distinct(s: seq<string>) {
    forall i, j :: 0 <= i < j < |s| ==> s[i] != s[j]
  }

  function Filter(s: seq<string>, keep: set<string>): seq<string> {
    if s == [] then []
    else (if s[0] in keep then [s[0]] else []) + Filter(s[1..], keep)
  }

  // The GPUs a caller settles on, in the order the server lists them; None when too few are available.
  function Pick(db: Db, server: string, order: seq<string>, want: nat): Option<seq<string>> {
    var offered := Filter(order, Available(db.gpus, server));
    if |offered| < want then None else Some(offered[..want])
  }

  // The guarded UPDATE: only rows without an owner are written.
  function Assign(gpus: map<string, Gpu>, wanted: seq<string>, dep: string): map<string, Gpu> {
    map g | g in gpus :: if g in wanted && gpus[g].owner.None? then gpus[g].(owner := Some(dep)) else gpus[g]
  }

  function Claimable(gpus: map<string, Gpu>, wanted: seq<string>): set<string> {
    set g | g in wanted && IsFree(gpus, g)
  }

  // `_track_deployment`'s transaction: committed in full, or rolled back.
  function Claim(db: Db, dep: string, server: string, want: nat, wanted: seq<string>): Option<Db> {
    if server !in db.servers || |Claimable(db.gpus, wanted)| < want then None
    else Some(db.(gpus := Assign(db.gpus, wanted, dep), rows := db.rows[dep := Row(server, want, true)]))
  }

  // Deleting a row sets its GPUs' owner to NULL.
  function Release(db: Db, dep: string): Db {
    db.(gpus := map g | g in db.gpus ::
                  if db.gpus[g].owner == Some(dep) then db.gpus[g].(owner := None) else db.gpus[g],
        rows := db.rows - {dep})
  }

  // Deleting a server deletes its GPUs and deployments.
  function DropServer(db: Db, server: string): Db {
    Db(db.servers - {server},
       map g | g in db.gpus && db.gpus[g].server != server :: db.gpus[g],
       map d | d in db.rows && db.rows[d].server != server :: db.rows[d])
  }

  /** The tables as the operator updates them. */
  class Inventory {
    var servers: set<string>
    var gpus: map<string, Gpu>
    var rows: map<string, Row>

    function Contents(): Db
      reads this
    {
      Db(servers, gpus, rows)
    }

    // Picks and claims in one session: false stands for the raised failure.
    method TrackDeployment(dep: string, server: string, want: nat, wanted: seq<string>) returns (claimed: bool)
      modifies this
      ensures claimed <==> Claim(old(Contents()), dep, server, want, wanted).Some?
      ensures Contents() == Claim(old(Contents()), dep, server, want, wanted).GetOr(old(Contents()))
    {
      var before := rows;
      if server !in servers {
        return false;
      }
      rows := rows[dep := Row(server, want, true)];
      var count := |Claimable(gpus, wanted)|;
      if count < want {
        rows := before;
        return false;
      }
      gpus := Assign(gpus, wanted, dep);
      return true;
    }

    method ClearDeployment(dep: string)
      modifies this
      ensures dep in old(rows) ==> Contents() == Release(old(Contents()), dep)
      ensures dep !in old(rows) ==> Contents() == old(Contents())
    {
      if dep in rows {
        gpus := map g | g in gpus :: if gpus[g].owner == Some(dep) then gpus[g].(owner := None) else gpus[g];
        rows := rows - {dep};
      }
    }

    // `preflightOk` is the verdict of the cache preflight; a veto leaves everything in place.
    method Undeploy(dep: string, preflightOk: bool)
      requires DbOk(Contents())
      modifies this
      ensures Contents() == if preflightOk then Release(old(Contents()), dep) else old(Contents())
    {
      if preflightOk {
        if dep !in rows {
          ReleaseAbsent(Contents(), dep);
        }
        ClearDeployment(dep);
      }
    }

    /** The whole call when nothing interleaves: it deploys on `want` available GPUs, or leaves no trace. */
    method DeployChute(dep: string, server: string, want: nat, order: seq<string>, started: bool) returns (ok: bool)
      requires DbOk(Contents()) && dep !in rows
      requires Distinct(order) && Elements(order) == OnServer(gpus, server)
      modifies this
      ensures ok <==> started && server in servers && |Available(old(gpus), server)| >= want
      ensures !ok ==> Contents() == old(Contents())
      ensures ok ==> dep in rows && rows[dep] == Row(server, want, false)
      ensures ok ==> |Held(gpus, dep)| == want && Held(gpus, dep) <= Available(old(gpus), server)
    {
      ghost var before := Contents();
      var picked := Pick(Contents(), server, order, want);
      PickFacts(before, server, order, want);
      if picked.None? {
        return false;
      }
      AvailableIsClaimable(before, server, picked.value);
      var claimed := TrackDeployment(dep, server, want, picked.value);
      if !claimed {
        return false;
      }
      ClaimFacts(before, dep, server, want, picked.value);
      ReleaseUndoesClaim(before, dep, server, want, picked.value);
      if !started {
        ClearDeployment(dep);
        return false;
      }
      ok := UpdateDeployment(dep);
    }

    method UpdateDeployment(dep: string) returns (ok: bool)
      modifies this
      ensures ok == (dep in old(rows))
      ensures Contents() == if ok then old(Contents()).(rows := old(rows)[dep := old(rows)[dep].(stub := false)])
                            else old(Contents())
    {
      ok := dep in rows;
      if ok {
        rows := rows[dep := rows[dep].(stub := false)];
      }
    }
  }

  lemma ReleaseAbsent(db: Db, dep: string)
    requires DbOk(db) && dep !in db.rows
    ensures Release(db, dep) == db
  {
    assert Release(db, dep).gpus == db.gpus;
    assert Release(db, dep).rows == db.rows;
  }

  lemma AvailableIsClaimable(db: Db, server: string, wanted: seq<string>)
    requires Distinct(wanted) && Elements(wanted) <= Available(db.gpus, server)
    ensures |Claimable(db.gpus, wanted)| == |wanted|
  {
    forall g | g in wanted ensures IsFree(db.gpus, g) {
      assert g in Elements(wanted);
    }
    assert Claimable(db.gpus, wanted) == Elements(wanted);
    DistinctSize(wanted);
  }

  // ---- Interleavings ----

  // Where a call of `deploy_chute` stands.
  datatype Call =
    | Picked(server: string, want: nat, wanted: seq<string>)
    | Claimed(dep: string, jobGpus: seq<string>)
    | Deployed(dep: string, jobGpus: seq<string>)
    | Failed

  // `issued` are the deployment ids handed out so far, `seen` the server ids ever added.
  datatype State = State(db: Db, calls: map<nat, Call>, issued: set<string>, seen: set<string>)

  const EMPTY := State(Db({}, map[], map[]), map[], {}, {})

  datatype Event =
    | Begin(call: nat, server: string, want: nat, order: seq<string>)
    | ClaimGpus(call: nat, dep: string)
    | Finish(call: nat)
    | Abort(call: nat)
    | Undeploy(dep: string)
    | AddServer(server: string)
    | AddGpu(gpu: string, server: string)
    | VerifyServer(server: string)
    | RemoveServer(server: string)

  // One step of the system; an event that cannot happen in `s` leaves it alone.
  function Step(s: State, e: Event): State {
    match e
    case Begin(call, server, want, order) =>
      if call in s.calls || server !in s.db.servers || !Distinct(order)
         || Elements(order) != OnServer(s.db.gpus, server) then s
      else
        var picked := Pick(s.db, server, order, want);
        s.(calls := s.calls[call := if picked.None? then Failed else Picked(server, want, picked.value)])
    case ClaimGpus(call, dep) =>
      if call !in s.calls || !s.calls[call].Picked? || dep in s.issued then s
      else
        var c := s.calls[call];
        var after := Claim(s.db, dep, c.server, c.want, c.wanted);
        if after.None? then s.(calls := s.calls[call := Failed], issued := s.issued + {dep})
        else State(after.value, s.calls[call := Claimed(dep, c.wanted)], s.issued + {dep}, s.seen)
    case Finish(call) =>
      if call !in s.calls || !s.calls[call].Claimed? then s
      else
        var c := s.calls[call];
        if c.dep !in s.db.rows then s.(calls := s.calls[call := Failed])
        else s.(db := s.db.(rows := s.db.rows[c.dep := s.db.rows[c.dep].(stub := false)]),
                calls := s.calls[call := Deployed(c.dep, c.jobGpus)])
    case Abort(call) =>
      if call !in s.calls then s
      else if s.calls[call].Picked? then s.(calls := s.calls[call := Failed])
      else if s.calls[call].Claimed? then
        s.(db := Release(s.db, s.calls[call].dep), calls := s.calls[call := Failed])
      else s
    case Undeploy(dep) => s.(db := Release(s.db, dep))
    case AddServer(server) =>
      if server in s.seen then s
      else s.(db := s.db.(servers := s.db.servers + {server}), seen := s.seen + {server})
    case AddGpu(gpu, server) =>
      if server !in s.db.servers || gpu in s.db.gpus then s
      else s.(db := s.db.(gpus := s.db.gpus[gpu := Gpu(server, false, None)]))
    case VerifyServer(server) =>
      s.(db := s.db.(gpus := map g | g in s.db.gpus ::
                       if s.db.gpus[g].server == server then s.db.gpus[g].(verified := true) else s.db.gpus[g]))
    case RemoveServer(server) => s.(db := DropServer(s.db, server))
  }

  function Run(s: State, es: seq<Event>): State
    decreases |es|
  {
    if es == [] then s else Run(Step(s, es[0]), es[1..])
  }

  // ---- What every step keeps ----

  ghost predicate DbOk(db: Db) {
    && (forall g :: g in db.gpus && db.gpus[g].owner.Some? ==>
          db.gpus[g].owner.value in db.rows && db.rows[db.gpus[g].owner.value].server == db.gpus[g].server)
    && (forall d :: d in db.rows ==> |Held(db.gpus, d)| == db.rows[d].want)
    && (forall g :: g in db.gpus ==> db.gpus[g].server in db.servers)
  }

  ghost predicate CallOk(s: State, c: Call) {
    match c
    case Picked(server, want, wanted) =>
      && Distinct(wanted) && |wanted| == want && server in s.seen
      && (server in s.db.servers ==> Elements(wanted) <= OnServer(s.db.gpus, server))
    case Claimed(dep, jobGpus) =>
      dep in s.issued && Distinct(jobGpus) && (dep in s.db.rows ==> Elements(jobGpus) == Held(s.db.gpus, dep))
    case Deployed(dep, jobGpus) =>
      dep in s.issued && Distinct(jobGpus) && (dep in s.db.rows ==> Elements(jobGpus) == Held(s.db.gpus, dep))
    case Failed => true
  }

  ghost predicate Inv(s: State) {
    && DbOk(s.db)
    && s.db.rows.Keys <= s.issued
    && s.db.servers <= s.seen
    && (forall k :: k in s.calls ==> CallOk(s, s.calls[k]))
  }

  lemma {:induction false} DistinctSize(s: seq<string>)
    requires Distinct(s)
    ensures |Elements(s)| == |s|
  {
    if s != [] {
      DistinctSize(s[1..]);
      assert s == [s[0]] + s[1..];
      assert Elements(s) == {s[0]} + Elements(s[1..]);
    }
  }

  lemma {:induction false} FilterFacts(s: seq<string>, keep: set<string>)
    requires Distinct(s)
    ensures Distinct(Filter(s, keep))
    ensures Elements(Filter(s, keep)) == Elements(s) * keep
  {
    if s != [] {
      FilterFacts(s[1..], keep);
      var rest := Filter(s[1..], keep);
      assert s == [s[0]] + s[1..];
      forall k | 0 <= k < |rest| ensures rest[k] != s[0] {
        assert rest[k] in Elements(rest);
        var i :| 1 <= i < |s| && s[i] == rest[k];
      }
      forall g ensures g in Elements(Filter(s, keep)) <==> g in Elements(s) * keep {
        assert g in Elements(rest) <==> g in Elements(s[1..]) * keep;
      }
    }
  }

  /** `_verify_gpus` decides exactly whether a pick exists, and a pick is `want` different verified,
      unowned GPUs of the server. */
  lemma PickFacts(db: Db, server: string, order: seq<string>, want: nat)
    requires Distinct(order) && Elements(order) == OnServer(db.gpus, server)
    ensures Pick(db, server, order, want).Some? <==> |Available(db.gpus, server)| >= want
    ensures Pick(db, server, order, want).Some? ==>
              var wanted := Pick(db, server, order, want).value;
              Distinct(wanted) && |wanted| == want && Elements(wanted) <= Available(db.gpus, server)
  {
    var keep := Available(db.gpus, server);
    FilterFacts(order, keep);
    DistinctSize(Filter(order, keep));
    assert Elements(order) * keep == keep;
    if Pick(db, server, order, want).Some? {
      forall g | g in Pick(db, server, order, want).value ensures g in keep {
        assert g in Elements(Filter(order, keep));
      }
    }
  }

  /** A claim that commits takes every GPU it wanted, all of them unowned before, and touches nothing else. */
  lemma ClaimFacts(db: Db, dep: string, server: string, want: nat, wanted: seq<string>)
    requires DbOk(db) && dep !in db.rows && Distinct(wanted) && |wanted| == want
    requires Claim(db, dep, server, want, wanted).Some?
    ensures var after := Claim(db, dep, server, want, wanted).value;
            && Held(after.gpus, dep) == Elements(wanted)
            && |Held(after.gpus, dep)| == want
            && (forall d :: d != dep ==> Held(after.gpus, d) == Held(db.gpus, d))
            && (forall g :: g in wanted ==> IsFree(db.gpus, g))
            && (forall g :: g in db.gpus && g !in wanted ==> after.gpus[g] == db.gpus[g])
  {
    var after := Claim(db, dep, server, want, wanted).value;
    DistinctSize(wanted);
    SubsetOfSameSize(Claimable(db.gpus, wanted), Elements(wanted));
    forall g | g in wanted ensures IsFree(db.gpus, g) {
      assert g in Elements(wanted);
    }
    assert Held(after.gpus, dep) == Elements(wanted);
  }

  lemma SubsetOfSameSize(a: set<string>, b: set<string>)
    requires a <= b && |a| >= |b|
    ensures a == b
  {
    forall x | x in b ensures x in a {
      if x !in a {
        SmallerSubset(a, b - {x});
      }
    }
  }

  lemma {:induction false} SmallerSubset(a: set<string>, b: set<string>)
    requires a <= b
    ensures |a| <= |b|
    decreases a
  {
    if a != {} {
      var x :| x in a;
      SmallerSubset(a - {x}, b - {x});
    }
  }

  lemma ReleaseFacts(db: Db, dep: string)
    requires DbOk(db)
    ensures DbOk(Release(db, dep))
    ensures Held(Release(db, dep).gpus, dep) == {}
    ensures forall d :: d != dep ==> Held(Release(db, dep).gpus, d) == Held(db.gpus, d)
    ensures forall srv :: OnServer(Release(db, dep).gpus, srv) == OnServer(db.gpus, srv)
  {
    forall d | d != dep ensures Held(Release(db, dep).gpus, d) == Held(db.gpus, d) {
    }
  }

  lemma DropFacts(db: Db, server: string)
    requires DbOk(db)
    ensures DbOk(DropServer(db, server))
    ensures forall d :: d in DropServer(db, server).rows ==> Held(DropServer(db, server).gpus, d) == Held(db.gpus, d)
    ensures forall srv :: srv != server ==> OnServer(DropServer(db, server).gpus, srv) == OnServer(db.gpus, srv)
  {
    var after := DropServer(db, server);
    forall d | d in after.rows ensures Held(after.gpus, d) == Held(db.gpus, d) {
    }
  }

  lemma BeginKeeps(s: State, call: nat, server: string, want: nat, order: seq<string>)
    requires Inv(s)
    ensures Inv(Step(s, Begin(call, server, want, order)))
  {
    var t := Step(s, Begin(call, server, want, order));
    if t != s {
      PickFacts(s.db, server, order, want);
    }
  }

  lemma ClaimKeepsDb(db: Db, dep: string, server: string, want: nat, wanted: seq<string>)
    requires DbOk(db) && dep !in db.rows && Distinct(wanted) && |wanted| == want
    requires Elements(wanted) <= OnServer(db.gpus, server)
    requires Claim(db, dep, server, want, wanted).Some?
    ensures DbOk(Claim(db, dep, server, want, wanted).value)
    ensures forall srv :: OnServer(Claim(db, dep, server, want, wanted).value.gpus, srv) == OnServer(db.gpus, srv)
  {
    var after := Claim(db, dep, server, want, wanted).value;
    ClaimFacts(db, dep, server, want, wanted);
    forall g | g in wanted ensures after.gpus[g].server == server {
      assert g in Elements(wanted);
    }
  }

  lemma ClaimKeeps(s: State, call: nat, dep: string)
    requires Inv(s)
    ensures Inv(Step(s, ClaimGpus(call, dep)))
  {
    var t := Step(s, ClaimGpus(call, dep));
    if t.db != s.db {
      var c := s.calls[call];
      assert CallOk(s, c);
      ClaimFacts(s.db, dep, c.server, c.want, c.wanted);
      ClaimKeepsDb(s.db, dep, c.server, c.want, c.wanted);
    }
  }

  lemma FinishKeeps(s: State, call: nat)
    requires Inv(s)
    ensures Inv(Step(s, Finish(call)))
  {
  }

  lemma AbortKeeps(s: State, call: nat)
    requires Inv(s)
    ensures Inv(Step(s, Abort(call)))
  {
    if call in s.calls && s.calls[call].Claimed? {
      ReleaseFacts(s.db, s.calls[call].dep);
    }
  }

  lemma UndeployKeeps(s: State, dep: string)
    requires Inv(s)
    ensures Inv(Step(s, Undeploy(dep)))
  {
    ReleaseFacts(s.db, dep);
  }

  lemma RemoveServerKeeps(s: State, server: string)
    requires Inv(s)
    ensures Inv(Step(s, RemoveServer(server)))
  {
    DropFacts(s.db, server);
  }

  lemma AddServerKeeps(s: State, server: string)
    requires Inv(s)
    ensures Inv(Step(s, AddServer(server)))
  {
  }

  /** Every step keeps the invariant. */
  lemma StepKeeps(s: State, e: Event)
    requires Inv(s)
    ensures Inv(Step(s, e))
  {
    match e
    case Begin(call, server, want, order) => BeginKeeps(s, call, server, want, order);
    case ClaimGpus(call, dep) => ClaimKeeps(s, call, dep);
    case Finish(call) => FinishKeeps(s, call);
    case Abort(call) => AbortKeeps(s, call);
    case Undeploy(dep) => UndeployKeeps(s, dep);
    case AddServer(server) => AddServerKeeps(s, server);
    case AddGpu(gpu, server) => AddGpuKeeps(s, gpu, server);
    case VerifyServer(server) => VerifyKeeps(s, server);
    case RemoveServer(server) => RemoveServerKeeps(s, server);
  }

  lemma AddGpuKeeps(s: State, gpu: string, server: string)
    requires Inv(s)
    ensures Inv(Step(s, AddGpu(gpu, server)))
  {
    var t := Step(s, AddGpu(gpu, server));
    forall d ensures Held(t.db.gpus, d) == Held(s.db.gpus, d) {
    }
    forall srv ensures OnServer(s.db.gpus, srv) <= OnServer(t.db.gpus, srv) {
    }
  }

  lemma VerifyKeeps(s: State, server: string)
    requires Inv(s)
    ensures Inv(Step(s, VerifyServer(server)))
  {
    var t := Step(s, VerifyServer(server));
    forall d ensures Held(t.db.gpus, d) == Held(s.db.gpus, d) {
    }
    forall srv ensures OnServer(t.db.gpus, srv) == OnServer(s.db.gpus, srv) {
    }
  }

  lemma {:induction false} RunKeeps(s: State, es: seq<Event>)
    requires Inv(s)
    ensures Inv(Run(s, es))
    decreases |es|
  {
    if es != [] {
      StepKeeps(s, es[0]);
      RunKeeps(Step(s, es[0]), es[1..]);
    }
  }

  /** After any interleaving: each deployment holds exactly the GPUs it asked for, on its own server and
      shared with nobody, and the GPUs given to its job are the ones the database says it holds. */
  lemma HoldingsExact(es: seq<Event>)
    ensures var s := Run(EMPTY, es);
            && (forall d :: d in s.db.rows ==> |Held(s.db.gpus, d)| == s.db.rows[d].want)
            && (forall d :: d in s.db.rows ==> Held(s.db.gpus, d) <= OnServer(s.db.gpus, s.db.rows[d].server))
            && (forall d, d' :: d != d' ==> Held(s.db.gpus, d) !! Held(s.db.gpus, d'))
            && (forall k :: k in s.calls && (s.calls[k].Claimed? || s.calls[k].Deployed?) ==>
                  s.calls[k].dep in s.db.rows ==>
                    && Elements(s.calls[k].jobGpus) == Held(s.db.gpus, s.calls[k].dep)
                    && |s.calls[k].jobGpus| == s.db.rows[s.calls[k].dep].want)
  {
    RunKeeps(EMPTY, es);
    var s := Run(EMPTY, es);
    forall k | k in s.calls && (s.calls[k].Claimed? || s.calls[k].Deployed?) && s.calls[k].dep in s.db.rows
      ensures |s.calls[k].jobGpus| == s.db.rows[s.calls[k].dep].want
    {
      assert CallOk(s, s.calls[k]);
      DistinctSize(s.calls[k].jobGpus);
    }
  }

  // ---- What each step does ----

  // The row is gone, its GPUs are free, and nothing else has changed.
  ghost predicate Forgets(before: Db, after: Db, dep: string) {
    && after.servers == before.servers
    && dep !in after.rows
    && (forall d :: d != dep ==> (d in after.rows <==> d in before.rows))
    && (forall d :: d in after.rows ==> after.rows[d] == before.rows[d])
    && after.gpus.Keys == before.gpus.Keys
    && (forall g :: g in before.gpus ==>
          after.gpus[g] == if before.gpus[g].owner == Some(dep) then before.gpus[g].(owner := None) else before.gpus[g])
  }

  // The row is there, as a stub, and owns exactly what was wanted; nothing else has changed.
  ghost predicate Takes(before: Db, after: Db, dep: string, server: string, want: nat, wanted: seq<string>) {
    && after.servers == before.servers
    && dep in after.rows && after.rows[dep] == Row(server, want, true)
    && (forall d :: d != dep ==> (d in after.rows <==> d in before.rows))
    && (forall d :: d in before.rows && d != dep ==> after.rows[d] == before.rows[d])
    && after.gpus.Keys == before.gpus.Keys
    && (forall g :: g in before.gpus ==>
          after.gpus[g] == if g in wanted then before.gpus[g].(owner := Some(dep)) else before.gpus[g])
  }

  /** A call settles on the GPU count it asked for, out of the server's verified GPUs that nobody owns, or fails when
      there are fewer of them; the tables stay as they are. */
  lemma BeginFacts(s: State, call: nat, server: string, want: nat, order: seq<string>)
    requires call !in s.calls && server in s.db.servers
    requires Distinct(order) && forall g :: g in order <==> g in s.db.gpus && s.db.gpus[g].server == server
    ensures
      var t := Step(s, Begin(call, server, want, order));
      var offered := set g | g in s.db.gpus && s.db.gpus[g].server == server && s.db.gpus[g].verified
                             && s.db.gpus[g].owner == None;
      && t.db == s.db && call in t.calls && t.calls == s.calls[call := t.calls[call]]
      && (if |offered| < want then t.calls[call] == Failed
          else exists wanted :: t.calls[call] == Picked(server, want, wanted) && |wanted| == want && Distinct(wanted)
                                && forall g :: g in wanted ==> g in offered)
  {
    assert Elements(order) == OnServer(s.db.gpus, server);
    PickFacts(s.db, server, order, want);
    var picked := Pick(s.db, server, order, want);
    assert Available(s.db.gpus, server) == set g | g in s.db.gpus && s.db.gpus[g].server == server
                                                   && s.db.gpus[g].verified && s.db.gpus[g].owner == None;
    if picked.Some? {
      forall g | g in picked.value ensures g in Available(s.db.gpus, server) {
        assert g in Elements(picked.value);
      }
    }
  }

  /** A claim under a fresh id commits exactly when the server and every wanted GPU are still there and no other call
      was faster; otherwise the call fails and the tables stay as they are. */
  lemma ClaimStepFacts(s: State, call: nat, dep: string)
    requires Inv(s) && call in s.calls && s.calls[call].Picked? && dep !in s.issued
    ensures
      var t, c := Step(s, ClaimGpus(call, dep)), s.calls[call];
      if c.server in s.db.servers && forall g :: g in c.wanted ==> g in s.db.gpus && s.db.gpus[g].owner == None
      then Takes(s.db, t.db, dep, c.server, c.want, c.wanted) && t.calls == s.calls[call := Claimed(dep, c.wanted)]
      else t.db == s.db && t.calls == s.calls[call := Failed]
  {
    var c := s.calls[call];
    assert CallOk(s, c);
    DistinctSize(c.wanted);
    if c.server in s.db.servers {
      if forall g :: g in c.wanted ==> g in s.db.gpus && s.db.gpus[g].owner == None {
        assert Claimable(s.db.gpus, c.wanted) == Elements(c.wanted);
      } else if Claim(s.db, dep, c.server, c.want, c.wanted).Some? {
        ClaimFacts(s.db, dep, c.server, c.want, c.wanted);
      }
    }
  }

  /** A started deployment is no stub any more; when its row has disappeared meanwhile the call fails. */
  lemma FinishFacts(s: State, call: nat)
    requires call in s.calls && s.calls[call].Claimed?
    ensures
      var t, c := Step(s, Finish(call)), s.calls[call];
      if c.dep in s.db.rows
      then && t.db == s.db.(rows := s.db.rows[c.dep := Row(s.db.rows[c.dep].server, s.db.rows[c.dep].want, false)])
           && t.calls == s.calls[call := Deployed(c.dep, c.jobGpus)]
      else t.db == s.db && t.calls == s.calls[call := Failed]
  {
  }

  /** A call that fails before its claim has nothing to clear; one that fails after it gives everything back. */
  lemma AbortFacts(s: State, call: nat)
    requires call in s.calls
    ensures
      var t := Step(s, Abort(call));
      match s.calls[call]
      case Picked(_, _, _) => t.db == s.db && t.calls == s.calls[call := Failed]
      case Claimed(dep, _) => Forgets(s.db, t.db, dep) && t.calls == s.calls[call := Failed]
      case Deployed(_, _) => t == s
      case Failed => t == s
  {
  }

  /** An undeploy takes the row and frees its GPUs, whatever the call behind it is doing. */
  lemma UndeployFacts(s: State, dep: string)
    ensures Forgets(s.db, Step(s, Undeploy(dep)).db, dep) && Step(s, Undeploy(dep)).calls == s.calls
  {
  }

  /** The inventory changes by new servers, new GPUs that are unverified and unowned, verification of a server's GPUs,
      and servers that go with all their GPUs and rows. */
  lemma InventoryFacts(s: State, server: string, gpu: string)
    ensures Step(s, AddServer(server)).db.servers == if server in s.seen then s.db.servers else s.db.servers + {server}
    ensures server in s.db.servers && gpu !in s.db.gpus ==>
              Step(s, AddGpu(gpu, server)).db == s.db.(gpus := s.db.gpus[gpu := Gpu(server, false, None)])
    ensures var t := Step(s, VerifyServer(server));
            && t.db == s.db.(gpus := t.db.gpus) && t.db.gpus.Keys == s.db.gpus.Keys
            && forall g :: g in t.db.gpus ==>
                 t.db.gpus[g] == s.db.gpus[g].(verified := s.db.gpus[g].verified || s.db.gpus[g].server == server)
    ensures var t := Step(s, RemoveServer(server));
            && t.db.servers == s.db.servers - {server}
            && (forall g :: g in t.db.gpus <==> g in s.db.gpus && s.db.gpus[g].server != server)
            && (forall g :: g in t.db.gpus ==> t.db.gpus[g] == s.db.gpus[g])
            && (forall d :: d in t.db.rows <==> d in s.db.rows && s.db.rows[d].server != server)
            && (forall d :: d in t.db.rows ==> t.db.rows[d] == s.db.rows[d])
  {
  }

  // ---- No row without its call ----

  ghost predicate Holder(s: State, k: nat, d: string) {
    k in s.calls && (s.calls[k].Claimed? || s.calls[k].Deployed?) && s.calls[k].dep == d
  }

  // Each row belongs to one call that claimed it and did not fail, and is a stub until that call is done.
  ghost predicate RowsHaveCalls(s: State) {
    && (forall d :: d in s.db.rows ==> exists k :: Holder(s, k, d))
    && (forall d, j, k :: Holder(s, j, d) && Holder(s, k, d) ==> j == k)
    && (forall d, k :: Holder(s, k, d) ==> d in s.issued)
    && (forall d, k :: Holder(s, k, d) && d in s.db.rows ==> (s.db.rows[d].stub <==> s.calls[k].Claimed?))
  }

  // Only verified GPUs are owned or about to be claimed.
  ghost predicate OwnedVerified(s: State) {
    && (forall g :: g in s.db.gpus && s.db.gpus[g].owner.Some? ==> s.db.gpus[g].verified)
    && (forall k :: k in s.calls && s.calls[k].Picked? ==> PickVerified(s.db, s.calls[k]))
  }

  ghost predicate PickVerified(db: Db, c: Call)
    requires c.Picked?
  {
    c.server in db.servers ==> forall g :: g in c.wanted ==> g in db.gpus && db.gpus[g].verified
  }

  // A step that moves one call from where it was, or fails it, and touches no row it does not own.
  lemma MovedCall(s: State, t: State, call: nat)
    requires RowsHaveCalls(s) && call in s.calls && t.issued >= s.issued
    requires forall k :: k != call ==> (k in t.calls <==> k in s.calls) && (k in s.calls ==> t.calls[k] == s.calls[k])
    requires call in t.calls && (t.calls[call].Failed? || t.calls[call].Picked?)
    requires forall d :: d in t.db.rows ==>
               d in s.db.rows && t.db.rows[d].stub == s.db.rows[d].stub && !Holder(s, call, d)
    ensures RowsHaveCalls(t)
  {
    forall d, k | k != call ensures Holder(t, k, d) <==> Holder(s, k, d) {
    }
    forall d | d in t.db.rows ensures exists k :: Holder(t, k, d) {
      var k :| Holder(s, k, d);
      assert Holder(t, k, d);
    }
  }

  lemma ClaimHasCall(s: State, call: nat, dep: string)
    requires Inv(s) && RowsHaveCalls(s)
    ensures RowsHaveCalls(Step(s, ClaimGpus(call, dep)))
  {
    var t := Step(s, ClaimGpus(call, dep));
    if t != s {
      ClaimStepFacts(s, call, dep);
      if t.calls[call].Failed? {
        MovedCall(s, t, call);
      } else {
        forall d, k ensures Holder(t, k, d) <==> if k == call then d == dep else Holder(s, k, d) {
        }
        forall d | d in t.db.rows && d != dep ensures exists k :: Holder(t, k, d) {
          var k :| Holder(s, k, d);
          assert Holder(t, k, d);
        }
        assert Holder(t, call, dep);
      }
    }
  }

  lemma FinishHasCall(s: State, call: nat)
    requires RowsHaveCalls(s)
    ensures RowsHaveCalls(Step(s, Finish(call)))
  {
    var t := Step(s, Finish(call));
    if call in s.calls && s.calls[call].Claimed? {
      assert Holder(s, call, s.calls[call].dep);
      if s.calls[call].dep in s.db.rows {
        forall d, k ensures Holder(t, k, d) <==> Holder(s, k, d) {
        }
        forall d | d in t.db.rows ensures exists k :: Holder(t, k, d) {
          var k :| Holder(s, k, d);
          assert Holder(t, k, d);
        }
      } else {
        MovedCall(s, t, call);
      }
    }
  }

  lemma AbortHasCall(s: State, call: nat)
    requires RowsHaveCalls(s)
    ensures RowsHaveCalls(Step(s, Abort(call)))
  {
    var t := Step(s, Abort(call));
    if t != s {
      AbortFacts(s, call);
      MovedCall(s, t, call);
    }
  }

  // With fewer rows, each as it was, and calls that hold nothing new.
  lemma FewerRows(s: State, t: State)
    requires RowsHaveCalls(s) && t.issued == s.issued
    requires forall k, d :: Holder(t, k, d) <==> Holder(s, k, d)
    requires forall k :: k in s.calls ==> k in t.calls && t.calls[k] == s.calls[k]
    requires forall d :: d in t.db.rows ==> d in s.db.rows && t.db.rows[d] == s.db.rows[d]
    ensures RowsHaveCalls(t)
  {
    forall d | d in t.db.rows ensures exists k :: Holder(t, k, d) {
      var k :| Holder(s, k, d);
      assert Holder(t, k, d);
    }
  }

  lemma StepHasCalls(s: State, e: Event)
    requires Inv(s) && RowsHaveCalls(s)
    ensures RowsHaveCalls(Step(s, e))
  {
    match e
    case ClaimGpus(call, dep) => ClaimHasCall(s, call, dep);
    case Finish(call) => FinishHasCall(s, call);
    case Abort(call) => AbortHasCall(s, call);
    case _ => FewerRows(s, Step(s, e));
  }

  lemma StepVerified(s: State, e: Event)
    requires Inv(s) && OwnedVerified(s)
    ensures OwnedVerified(Step(s, e))
  {
    match e
    case Begin(call, server, want, order) => BeginVerified(s, call, server, want, order);
    case ClaimGpus(call, dep) => ClaimVerified(s, call, dep);
    case RemoveServer(server) => RemovalVerified(s, server);
    case _ =>
  }

  lemma BeginVerified(s: State, call: nat, server: string, want: nat, order: seq<string>)
    requires Inv(s) && OwnedVerified(s)
    ensures OwnedVerified(Step(s, Begin(call, server, want, order)))
  {
    if Step(s, Begin(call, server, want, order)) != s {
      assert forall g :: g in order <==> g in Elements(order);
      BeginFacts(s, call, server, want, order);
    }
  }

  lemma ClaimVerified(s: State, call: nat, dep: string)
    requires Inv(s) && OwnedVerified(s)
    ensures OwnedVerified(Step(s, ClaimGpus(call, dep)))
  {
    if call in s.calls && s.calls[call].Picked? && dep !in s.issued {
      ClaimStepFacts(s, call, dep);
      assert PickVerified(s.db, s.calls[call]);
    }
  }

  lemma RemovalVerified(s: State, server: string)
    requires Inv(s) && OwnedVerified(s)
    ensures OwnedVerified(Step(s, RemoveServer(server)))
  {
    var t := Step(s, RemoveServer(server));
    forall k | k in t.calls && t.calls[k].Picked? ensures PickVerified(t.db, t.calls[k]) {
      var c := s.calls[k];
      assert CallOk(s, c) && PickVerified(s.db, c);
      if c.server in t.db.servers {
        forall g | g in c.wanted ensures g in t.db.gpus && t.db.gpus[g].verified {
          assert g in Elements(c.wanted);
        }
      }
    }
  }

  lemma {:induction false} RunHasCalls(s: State, es: seq<Event>)
    requires Inv(s) && RowsHaveCalls(s) && OwnedVerified(s)
    ensures RowsHaveCalls(Run(s, es)) && OwnedVerified(Run(s, es))
    decreases |es|
  {
    if es != [] {
      StepKeeps(s, es[0]);
      StepHasCalls(s, es[0]);
      StepVerified(s, es[0]);
      RunHasCalls(Step(s, es[0]), es[1..]);
    }
  }

  /** After any interleaving no row and no claim outlives its call: each row is that of exactly one call that claimed it
      and did not fail, a stub while the call is still at work, and every GPU with an owner is a verified one of such a
      row. */
  lemma NothingLeaks(es: seq<Event>)
    ensures
      var s := Run(EMPTY, es);
      && RowsHaveCalls(s)
      && (forall g :: g in s.db.gpus && s.db.gpus[g].owner.Some? ==>
            s.db.gpus[g].verified && s.db.gpus[g].owner.value in s.db.rows)
  {
    RunKeeps(EMPTY, es);
    RunHasCalls(EMPTY, es);
  }

  /** Clearing a deployment whose start failed gives back the database as it was before the claim. */
  lemma ReleaseUndoesClaim(db: Db, dep: string, server: string, want: nat, wanted: seq<string>)
    requires DbOk(db) && dep !in db.rows
    requires Claim(db, dep, server, want, wanted).Some?
    ensures Release(Claim(db, dep, server, want, wanted).value, dep) == db
  {
    var after := Release(Claim(db, dep, server, want, wanted).value, dep);
    assert after.rows == db.rows;
    assert after.gpus == db.gpus;
  }

  /** Of two callers that settled on a common GPU, the second to claim gets nothing. */
  lemma OneWinner(db: Db, a: string, b: string, server: string, want: nat, wanted: seq<string>, want': nat,
                  wanted': seq<string>)
    requires DbOk(db) && a !in db.rows && a != b
    requires Distinct(wanted) && |wanted| == want && Distinct(wanted') && |wanted'| == want'
    requires Elements(wanted) * Elements(wanted') != {}
    requires Claim(db, a, server, want, wanted).Some?
    ensures Claim(Claim(db, a, server, want, wanted).value, b, server, want', wanted').None?
  {
    var after := Claim(db, a, server, want, wanted).value;
    ClaimFacts(db, a, server, want, wanted);
    var g :| g in Elements(wanted) * Elements(wanted');
    assert g in Held(after.gpus, a);
    DistinctSize(wanted');
    SmallerSubset(Claimable(after.gpus, wanted'), Elements(wanted') - {g});
  }
}
