/** Scaling a chute up and down: `Gepetto.optimal_scale_up_server`, `optimal_scale_down_deployment` and the loop of
    `scale_chute`. */
module Scaler {
  import opened Options
  import opened Sorting

  datatype Gpu = Gpu(verified: bool, model: string, owner: Option<string>)

  datatype Server = Server(id: string, validator: string, cost: real, locked: bool, tee: bool, gpus: seq<Gpu>)

  // Times are in seconds.
  datatype Deployment = Deployment(
    id: string, chuteId: string, version: string, validator: string, isJob: bool, preemptible: bool,
    activatedAt: Option<int>, server: string)

  datatype Chute = Chute(
    id: string, version: string, validator: string, gpuCount: nat, supported: set<string>, tee: bool,
    preemptible: bool, banned: bool)

  datatype Fleet = Fleet(servers: seq<Server>, rows: seq<Deployment>)

  const CANDIDATE_POOL: nat := 2
  const MIN_ACTIVE_SECONDS := 63 * 60

  function Where<T>(s: seq<T>, p: T -> bool): seq<T> {
    if s == [] then [] else if p(s[0]) then [s[0]] + Where(s[1..], p) else Where(s[1..], p)
  }

  function Flag<T>(p: T -> bool): T -> nat {
    (x: T) => if p(x) then 1 else 0
  }

  function CountIf<T>(s: seq<T>, p: T -> bool): nat {
    Sum(s, Flag(p))
  }

  lemma {:induction false} WhereMembers<T>(s: seq<T>, p: T -> bool)
    ensures forall x :: x in Where(s, p) <==> x in s && p(x)
  {
    if s != [] {
      WhereMembers(s[1..], p);
      assert s == [s[0]] + s[1..];
    }
  }

  lemma {:induction false} SumWhere<T>(s: seq<T>, p: T -> bool, f: T -> nat)
    requires forall x :: !p(x) ==> f(x) == 0
    ensures Sum(Where(s, p), f) == Sum(s, f)
  {
    if s != [] {
      SumWhere(s[1..], p, f);
      if p(s[0]) {
        assert ([s[0]] + Where(s[1..], p))[1..] == Where(s[1..], p);
      } else {
        assert Where(s, p) == Where(s[1..], p);
      }
    }
  }

  lemma {:induction false} SumZero<T>(s: seq<T>, f: T -> nat)
    requires forall i :: 0 <= i < |s| ==> f(s[i]) == 0
    ensures Sum(s, f) == 0
  {
    if s != [] {
      SumZero(s[1..], f);
    }
  }

  // ---- Choosing a server ----

  function IsSupported(c: Chute): Gpu -> bool {
    (g: Gpu) => g.verified && g.model in c.supported
  }

  function IsForeign(c: Chute): Gpu -> bool {
    (g: Gpu) => g.verified && g.model !in c.supported
  }

  function IsUsed(): Gpu -> bool {
    (g: Gpu) => g.verified && g.owner.Some?
  }

  // What `_verify_gpus` offers.
  function IsFree(): Gpu -> bool {
    (g: Gpu) => g.verified && g.owner.None?
  }

  predicate VerifyGpus(c: Chute, s: Server) {
    CountIf(s.gpus, IsFree()) >= c.gpuCount
  }

  // The query's estimate: supported GPUs, minus those in use whatever their model.
  function FreeGpus(c: Chute, s: Server): int {
    CountIf(s.gpus, IsSupported(c)) - CountIf(s.gpus, IsUsed())
  }

  predicate Candidate(c: Chute, s: Server) {
    && !s.locked
    && s.tee == c.tee
    && CountIf(s.gpus, IsSupported(c)) > 0
    && FreeGpus(c, s) >= c.gpuCount
  }

  function Cheaper(c: Chute): (Server, Server) -> bool {
    (a: Server, b: Server) => a.cost < b.cost || (a.cost == b.cost && FreeGpus(c, a) <= FreeGpus(c, b))
  }

  function Ranked(c: Chute, servers: seq<Server>): seq<Server> {
    Sort(Where(servers, (s: Server) => Candidate(c, s)), Cheaper(c))
  }

  // The first `room` servers with disk space.
  function Pool(rows: seq<Server>, diskOk: string -> bool, room: nat): seq<Server> {
    if rows == [] || room == 0 then []
    else if diskOk(rows[0].id) then [rows[0]] + Pool(rows[1..], diskOk, room - 1)
    else Pool(rows[1..], diskOk, room)
  }

  // `dice` stands for the random choice.
  function PickServer(c: Chute, servers: seq<Server>, diskOk: string -> bool, dice: nat): Option<Server> {
    var pool := Pool(Ranked(c, servers), diskOk, CANDIDATE_POOL);
    if c.banned || pool == [] then None else Some(pool[dice % |pool|])
  }

  // The eligible servers with disk space strictly before `s` in the order.
  function Before(c: Chute, diskOk: string -> bool, s: Server): Server -> nat {
    Flag((r: Server) => Candidate(c, r) && diskOk(r.id) && !Cheaper(c)(s, r))
  }

  /** The conservative estimate is exact up to the verified GPUs of other models, which it subtracts. */
  lemma {:induction false} EstimateGap(c: Chute, gpus: seq<Gpu>)
    ensures CountIf(gpus, IsSupported(c)) - CountIf(gpus, IsUsed())
         == CountIf(gpus, IsFree()) - CountIf(gpus, IsForeign(c))
  {
    if gpus != [] {
      EstimateGap(c, gpus[1..]);
    }
  }

  lemma CheaperIsOrder(c: Chute)
    ensures TotalPreorder(Cheaper(c))
  {
  }

  lemma {:induction false} PoolFacts(c: Chute, rows: seq<Server>, diskOk: string -> bool, room: nat)
    requires Sorted(rows, Cheaper(c))
    ensures
      var pool := Pool(rows, diskOk, room);
      && |pool| <= room
      && (pool == [] <==> room == 0 || forall i :: 0 <= i < |rows| ==> !diskOk(rows[i].id))
      && (forall j :: 0 <= j < |pool| ==> pool[j] in rows && diskOk(pool[j].id))
      && (forall j :: 0 <= j < |pool| ==> Sum(rows, Before(c, diskOk, pool[j])) <= j)
  {
    if rows != [] && room > 0 {
      var rest, pool := rows[1..], Pool(rows, diskOk, room);
      if diskOk(rows[0].id) {
        PoolFacts(c, rest, diskOk, room - 1);
        SumZero(rows, Before(c, diskOk, rows[0]));
        var tail := Pool(rest, diskOk, room - 1);
        forall j | 0 <= j < |pool|
          ensures pool[j] in rows && diskOk(pool[j].id) && Sum(rows, Before(c, diskOk, pool[j])) <= j
        {
          if j > 0 {
            assert pool[j] == tail[j - 1];
          }
        }
      } else {
        PoolFacts(c, rest, diskOk, room);
        forall j | 0 <= j < |pool| ensures Sum(rows, Before(c, diskOk, pool[j])) <= j {
          assert Sum(rows, Before(c, diskOk, pool[j])) == Sum(rest, Before(c, diskOk, pool[j]));
        }
      }
    }
  }

  lemma RankedFacts(c: Chute, servers: seq<Server>)
    ensures Sorted(Ranked(c, servers), Cheaper(c))
    ensures forall s :: s in Ranked(c, servers) <==> s in servers && Candidate(c, s)
  {
    var eligible := (s: Server) => Candidate(c, s);
    var found, rows := Where(servers, eligible), Ranked(c, servers);
    CheaperIsOrder(c);
    SortSorted(found, Cheaper(c));
    SortContents(found, Cheaper(c));
    WhereMembers(servers, eligible);
    forall s ensures s in rows <==> s in found {
      assert s in rows <==> s in multiset(rows);
      assert s in found <==> s in multiset(found);
    }
  }

  lemma BeforeInRanks(c: Chute, servers: seq<Server>, diskOk: string -> bool, s: Server)
    ensures Sum(Ranked(c, servers), Before(c, diskOk, s)) == Sum(servers, Before(c, diskOk, s))
  {
    var eligible := (s: Server) => Candidate(c, s);
    SumSort(Where(servers, eligible), Cheaper(c), Before(c, diskOk, s));
    SumWhere(servers, eligible, Before(c, diskOk, s));
  }

  lemma PickRanks(c: Chute, servers: seq<Server>, diskOk: string -> bool, dice: nat)
    ensures
      var r := PickServer(c, servers, diskOk, dice);
      && (r.None? <==> c.banned || forall s :: s in servers ==> !(Candidate(c, s) && diskOk(s.id)))
      && (r.Some? ==>
            && r.value in servers && Candidate(c, r.value) && diskOk(r.value.id)
            && VerifyGpus(c, r.value)
            && Sum(servers, Before(c, diskOk, r.value)) < CANDIDATE_POOL)
  {
    RankedFacts(c, servers);
    PoolFacts(c, Ranked(c, servers), diskOk, CANDIDATE_POOL);
    var r := PickServer(c, servers, diskOk, dice);
    if r.Some? {
      EstimateGap(c, r.value.gpus);
      BeforeInRanks(c, servers, diskOk, r.value);
    } else if !c.banned {
      forall s | s in servers ensures !(Candidate(c, s) && diskOk(s.id)) {
        assert s in Ranked(c, servers) ==> !diskOk(s.id);
      }
    }
  }

  // The places of a server's GPUs that are of a supported model, in use, or free: verified ones only.
  function Supported(c: Chute, s: Server): set<int> {
    set i | 0 <= i < |s.gpus| && s.gpus[i].verified && s.gpus[i].model in c.supported
  }

  function Used(s: Server): set<int> {
    set i | 0 <= i < |s.gpus| && s.gpus[i].verified && s.gpus[i].owner != None
  }

  function Free(s: Server): set<int> {
    set i | 0 <= i < |s.gpus| && s.gpus[i].verified && s.gpus[i].owner == None
  }

  // An unlocked server of the chute's kind, with disk space and a supported GPU, and with as many supported GPUs beyond
  // the used ones as the chute wants.
  predicate Suits(c: Chute, s: Server, diskOk: string -> bool) {
    && !s.locked && s.tee == c.tee && diskOk(s.id)
    && Supported(c, s) != {} && |Supported(c, s)| - |Used(s)| >= c.gpuCount
  }

  // Cheaper, or as cheap and with fewer GPUs to spare.
  predicate GoesBefore(c: Chute, r: Server, s: Server) {
    r.cost < s.cost || (r.cost == s.cost && |Supported(c, r)| - |Used(r)| < |Supported(c, s)| - |Used(s)|)
  }

  lemma Counted<T>(s: seq<T>, p: T -> bool)
    ensures CountIf(s, p) == |Places(s, p)|
  {
    SumCounts(s, p, Flag(p));
  }

  lemma GpusCounted(c: Chute, s: Server)
    ensures CountIf(s.gpus, IsSupported(c)) == |Supported(c, s)|
    ensures CountIf(s.gpus, IsUsed()) == |Used(s)|
    ensures CountIf(s.gpus, IsFree()) == |Free(s)|
  {
    Counted(s.gpus, IsSupported(c));
    Counted(s.gpus, IsUsed());
    Counted(s.gpus, IsFree());
    assert Supported(c, s) == Places(s.gpus, IsSupported(c));
    assert Used(s) == Places(s.gpus, IsUsed());
    assert Free(s) == Places(s.gpus, IsFree());
  }

  lemma SuitsIff(c: Chute, s: Server, diskOk: string -> bool)
    ensures Suits(c, s, diskOk) <==> Candidate(c, s) && diskOk(s.id)
  {
    GpusCounted(c, s);
  }

  // The places of the servers that suit and come strictly before `s`.
  function Ahead(c: Chute, servers: seq<Server>, diskOk: string -> bool, s: Server): set<int> {
    set i | 0 <= i < |servers| && Suits(c, servers[i], diskOk) && GoesBefore(c, servers[i], s)
  }

  lemma AheadCounted(c: Chute, servers: seq<Server>, diskOk: string -> bool, s: Server)
    ensures Sum(servers, Before(c, diskOk, s)) == |Ahead(c, servers, diskOk, s)|
  {
    var p := (r: Server) => Candidate(c, r) && diskOk(r.id) && !Cheaper(c)(s, r);
    SumCounts(servers, p, Before(c, diskOk, s));
    forall r ensures p(r) <==> Suits(c, r, diskOk) && GoesBefore(c, r, s) {
      SuitsIff(c, r, diskOk);
      GpusCounted(c, r);
      GpusCounted(c, s);
    }
    assert Ahead(c, servers, diskOk, s) == Places(servers, p);
  }

  /** The server is one that suits, has enough verified free GPUs for `_verify_gpus`, and has at most one other strictly
      before it; there is none only for a banned chute or when nothing suits. */
  lemma PickFacts(c: Chute, servers: seq<Server>, diskOk: string -> bool, dice: nat)
    ensures
      var r := PickServer(c, servers, diskOk, dice);
      && (r.None? <==> c.banned || forall s :: s in servers ==> !Suits(c, s, diskOk))
      && (r.Some? ==>
            && r.value in servers && Suits(c, r.value, diskOk) && |Free(r.value)| >= c.gpuCount
            && |Ahead(c, servers, diskOk, r.value)| < 2)
  {
    PickRanks(c, servers, diskOk, dice);
    forall s ensures Suits(c, s, diskOk) <==> Candidate(c, s) && diskOk(s.id) {
      SuitsIff(c, s, diskOk);
    }
    var r := PickServer(c, servers, diskOk, dice);
    if r.Some? {
      GpusCounted(c, r.value);
      AheadCounted(c, servers, diskOk, r.value);
    }
  }

  lemma {:induction false} PoolSnoc(rows: seq<Server>, s: Server, diskOk: string -> bool, room: nat)
    ensures Pool(rows + [s], diskOk, room)
         == if |Pool(rows, diskOk, room)| < room && diskOk(s.id) then Pool(rows, diskOk, room) + [s]
            else Pool(rows, diskOk, room)
  {
    if rows == [] {
      assert (rows + [s])[1..] == [];
    } else if room > 0 {
      PoolSnoc(rows[1..], s, diskOk, if diskOk(rows[0].id) then room - 1 else room);
      assert (rows + [s])[1..] == rows[1..] + [s];
    }
  }

  lemma {:induction false} PoolFull(rows: seq<Server>, more: seq<Server>, diskOk: string -> bool, room: nat)
    requires |Pool(rows, diskOk, room)| >= room
    ensures Pool(rows + more, diskOk, room) == Pool(rows, diskOk, room)
  {
    if room > 0 {
      PoolFull(rows[1..], more, diskOk, if diskOk(rows[0].id) then room - 1 else room);
      assert (rows + more)[1..] == rows[1..] + more;
    }
  }

  method OptimalScaleUpServer(c: Chute, servers: seq<Server>, diskOk: string -> bool, dice: nat)
    returns (r: Option<Server>)
    ensures r == PickServer(c, servers, diskOk, dice)
    ensures r.None? <==> c.banned || forall s :: s in servers ==> !Suits(c, s, diskOk)
    ensures r.Some? ==> r.value in servers && Suits(c, r.value, diskOk) && |Free(r.value)| >= c.gpuCount
    ensures r.Some? ==> VerifyGpus(c, r.value)
    ensures r.Some? ==> |Ahead(c, servers, diskOk, r.value)| < 2
  {
    PickFacts(c, servers, diskOk, dice);
    PickRanks(c, servers, diskOk, dice);
    if c.banned {
      return None;
    }
    var candidates := GatherCandidates(Ranked(c, servers), diskOk);
    if candidates == [] {
      return None;
    }
    return Some(candidates[dice % |candidates|]);
  }

  method GatherCandidates(rows: seq<Server>, diskOk: string -> bool) returns (candidates: seq<Server>)
    ensures candidates == Pool(rows, diskOk, CANDIDATE_POOL)
  {
    candidates := [];
    for i := 0 to |rows|
      invariant candidates == Pool(rows[..i], diskOk, CANDIDATE_POOL)
      invariant |candidates| < CANDIDATE_POOL
    {
      PoolSnoc(rows[..i], rows[i], diskOk, CANDIDATE_POOL);
      assert rows[..i + 1] == rows[..i] + [rows[i]];
      if diskOk(rows[i].id) {
        candidates := candidates + [rows[i]];
        if |candidates| >= CANDIDATE_POOL {
          PoolFull(rows[..i + 1], rows[i + 1..], diskOk, CANDIDATE_POOL);
          assert rows == rows[..i + 1] + rows[i + 1..];
          return;
        }
      }
    }
    assert rows[..|rows|] == rows;
  }

  // ---- Choosing a deployment to remove ----

  predicate HoldsOn(gpus: seq<Gpu>, id: string) {
    exists g :: g in gpus && g.owner == Some(id)
  }

  predicate Holds(f: Fleet, id: string) {
    exists s :: s in f.servers && HoldsOn(s.gpus, id)
  }

  function ServerOf(servers: seq<Server>, id: string): Option<Server> {
    if servers == [] then None else if servers[0].id == id then Some(servers[0]) else ServerOf(servers[1..], id)
  }

  // The query looks at the chute alone, not at its version or validator.
  predicate Removable(c: Chute, f: Fleet, d: Deployment, now: int) {
    && d.chuteId == c.id && !d.isJob && d.preemptible
    && d.activatedAt.Some? && d.activatedAt.value <= now - MIN_ACTIVE_SECONDS
    && ServerOf(f.servers, d.server).Some? && !ServerOf(f.servers, d.server).value.locked
    && ServerOf(f.servers, d.server).value.gpus != []
    && Holds(f, d.id)
  }

  function Score(f: Fleet, d: Deployment): real {
    match ServerOf(f.servers, d.server)
    case None => 0.0
    case Some(s) =>
      if s.gpus == [] then 0.0
      else s.cost * CountIf(s.gpus, (g: Gpu) => g.owner.Some?) as real / |s.gpus| as real
  }

  function HigherScore(f: Fleet): (Deployment, Deployment) -> bool {
    (a: Deployment, b: Deployment) => Score(f, a) >= Score(f, b)
  }

  function Victim(c: Chute, f: Fleet, now: int): Option<Deployment> {
    var rows := Sort(Where(f.rows, (d: Deployment) => Removable(c, f, d, now)), HigherScore(f));
    if rows == [] then None else Some(rows[0])
  }

  lemma VictimRanks(c: Chute, f: Fleet, now: int)
    ensures Victim(c, f, now).None? <==> forall d :: d in f.rows ==> !Removable(c, f, d, now)
    ensures Victim(c, f, now).Some? ==>
              var v := Victim(c, f, now).value;
              && v in f.rows && Removable(c, f, v, now)
              && forall d :: d in f.rows && Removable(c, f, d, now) ==> Score(f, d) <= Score(f, v)
  {
    var p := (d: Deployment) => Removable(c, f, d, now);
    var found := Where(f.rows, p);
    var rows := Sort(found, HigherScore(f));
    WhereMembers(f.rows, p);
    SortContents(found, HigherScore(f));
    SortSorted(found, HigherScore(f));
    forall d ensures d in rows <==> d in found {
      assert d in rows <==> d in multiset(rows);
      assert d in found <==> d in multiset(found);
    }
    if rows != [] {
      assert rows[0] in rows;
      forall d | d in found ensures Score(f, d) <= Score(f, rows[0]) {
        assert d in rows;
        var k :| 0 <= k < |rows| && rows[k] == d;
        assert k > 0 ==> HigherScore(f)(rows[0], rows[k]);
      }
    }
  }

  ghost predicate FirstWith(servers: seq<Server>, id: string, i: int) {
    0 <= i < |servers| && servers[i].id == id && forall j :: 0 <= j < i ==> servers[j].id != id
  }

  lemma {:induction false} ServerOfIsFirst(servers: seq<Server>, id: string)
    ensures ServerOf(servers, id).Some? ==> exists i :: FirstWith(servers, id, i)
    ensures forall i :: FirstWith(servers, id, i) ==> ServerOf(servers, id) == Some(servers[i])
  {
    if servers != [] {
      var rest := servers[1..];
      ServerOfIsFirst(rest, id);
      if servers[0].id == id {
        assert FirstWith(servers, id, 0);
      } else {
        assert forall i :: FirstWith(rest, id, i) ==> FirstWith(servers, id, i + 1);
        assert forall i :: FirstWith(servers, id, i) ==> FirstWith(rest, id, i - 1);
      }
    }
  }

  // A public deployment of the chute, no job, active for 63 minutes, that holds a GPU, with its server unlocked.
  ghost predicate MayLeave(c: Chute, f: Fleet, d: Deployment, now: int) {
    && d.chuteId == c.id && !d.isJob && d.preemptible
    && d.activatedAt.Some? && now - d.activatedAt.value >= 3780
    && (exists s, g :: s in f.servers && g in s.gpus && g.owner == Some(d.id))
    && exists i :: FirstWith(f.servers, d.server, i) && !f.servers[i].locked && f.servers[i].gpus != []
  }

  function InUse(s: Server): set<int> {
    set i | 0 <= i < |s.gpus| && s.gpus[i].owner != None
  }

  // What a server costs times the part of its GPUs in use.
  function CostInUse(s: Server): real
    requires s.gpus != []
  {
    s.cost * |InUse(s)| as real / |s.gpus| as real
  }

  lemma RemovableIff(c: Chute, f: Fleet, d: Deployment, now: int)
    ensures Removable(c, f, d, now) <==> MayLeave(c, f, d, now)
  {
    ServerOfIsFirst(f.servers, d.server);
  }

  lemma ScoreIs(f: Fleet, d: Deployment, i: int)
    requires FirstWith(f.servers, d.server, i) && f.servers[i].gpus != []
    ensures Score(f, d) == CostInUse(f.servers[i])
  {
    var s := f.servers[i];
    var p := (g: Gpu) => g.owner.Some?;
    ServerOfIsFirst(f.servers, d.server);
    SumCounts(s.gpus, p, Flag(p));
    assert InUse(s) == Places(s.gpus, p);
    ScoreCounts(f, d, s, p);
  }

  lemma ScoreCounts(f: Fleet, d: Deployment, s: Server, p: Gpu -> bool)
    requires ServerOf(f.servers, d.server) == Some(s) && s.gpus != []
    requires forall g :: p(g) <==> g.owner.Some?
    ensures Score(f, d) == s.cost * CountIf(s.gpus, p) as real / |s.gpus| as real
  {
    var q := (g: Gpu) => g.owner.Some?;
    SameSum(s.gpus, Flag(p), Flag(q));
  }

  lemma {:induction false} SameSum<T>(s: seq<T>, f: T -> nat, g: T -> nat)
    requires forall x :: f(x) == g(x)
    ensures Sum(s, f) == Sum(s, g)
  {
    if s != [] {
      SameSum(s[1..], f, g);
    }
  }

  /** The deployment to remove is one that may leave, whatever its version or validator, and none that may leave is on a
      server with more cost in use. */
  lemma VictimFacts(c: Chute, f: Fleet, now: int)
    ensures Victim(c, f, now).None? <==> forall d :: d in f.rows ==> !MayLeave(c, f, d, now)
    ensures Victim(c, f, now).Some? ==>
              var v := Victim(c, f, now).value;
              && v in f.rows && MayLeave(c, f, v, now)
              && forall d, i, j :: d in f.rows && MayLeave(c, f, d, now)
                                   && FirstWith(f.servers, d.server, i) && FirstWith(f.servers, v.server, j) ==>
                   f.servers[i].gpus != [] && f.servers[j].gpus != []
                   && CostInUse(f.servers[i]) <= CostInUse(f.servers[j])
  {
    VictimRanks(c, f, now);
    forall d ensures Removable(c, f, d, now) <==> MayLeave(c, f, d, now) {
      RemovableIff(c, f, d, now);
    }
    if Victim(c, f, now).Some? {
      var v := Victim(c, f, now).value;
      forall d, i, j | d in f.rows && MayLeave(c, f, d, now)
                       && FirstWith(f.servers, d.server, i) && FirstWith(f.servers, v.server, j)
        ensures f.servers[i].gpus != [] && f.servers[j].gpus != []
        ensures CostInUse(f.servers[i]) <= CostInUse(f.servers[j])
      {
        ServerOfIsFirst(f.servers, d.server);
        ServerOfIsFirst(f.servers, v.server);
        ScoreIs(f, d, i);
        ScoreIs(f, v, j);
      }
    }
  }

  // ---- Rows and GPUs ----

  function Each<T>(s: seq<T>, f: T -> T): seq<T> {
    if s == [] then [] else [f(s[0])] + Each(s[1..], f)
  }

  function Clear(id: string): Gpu -> Gpu {
    (g: Gpu) => if g.owner == Some(id) then g.(owner := None) else g
  }

  function WithoutRow(rows: seq<Deployment>, id: string): seq<Deployment> {
    Where(rows, (d: Deployment) => d.id != id)
  }

  function ClearOn(id: string): Server -> Server {
    (s: Server) => s.(gpus := Each(s.gpus, Clear(id)))
  }

  function Undeployed(f: Fleet, id: string): Fleet {
    Fleet(Each(f.servers, ClearOn(id)), WithoutRow(f.rows, id))
  }

  // The first `n` free GPUs get the owner.
  function Claimed(gpus: seq<Gpu>, n: nat, id: string): seq<Gpu> {
    if gpus == [] || n == 0 then gpus
    else if IsFree()(gpus[0]) then [gpus[0].(owner := Some(id))] + Claimed(gpus[1..], n - 1, id)
    else [gpus[0]] + Claimed(gpus[1..], n, id)
  }

  // A row carries the chute's version and the server's validator.
  function NewRow(c: Chute, s: Server, id: string): Deployment {
    Deployment(id, c.id, c.version, s.validator, false, c.preemptible, None, s.id)
  }

  function ClaimOn(c: Chute, s: Server, id: string): Server -> Server {
    (r: Server) => if r.id == s.id then r.(gpus := Claimed(r.gpus, c.gpuCount, id)) else r
  }

  function Deployed(c: Chute, f: Fleet, s: Server, id: string): Fleet {
    Fleet(Each(f.servers, ClaimOn(c, s, id)), f.rows + [NewRow(c, s, id)])
  }

  predicate DistinctIds(rows: seq<Deployment>) {
    forall i, j :: 0 <= i < j < |rows| ==> rows[i].id != rows[j].id
  }

  function IsCounted(c: Chute): Deployment -> bool {
    (d: Deployment) => d.chuteId == c.id && d.version == c.version && d.validator == c.validator && !d.isJob
  }

  function IsNonJob(c: Chute): Deployment -> bool {
    (d: Deployment) => d.chuteId == c.id && !d.isJob
  }

  // `count_non_job_deployments`
  function Count(c: Chute, f: Fleet): nat {
    CountIf(f.rows, IsCounted(c))
  }

  function NonJobs(c: Chute, f: Fleet): nat {
    CountIf(f.rows, IsNonJob(c))
  }

  function FreeOn(): Server -> nat {
    (s: Server) => CountIf(s.gpus, IsFree())
  }

  function TotalFree(f: Fleet): nat {
    Sum(f.servers, FreeOn())
  }

  lemma {:induction false} WithoutAbsent(rows: seq<Deployment>, id: string)
    requires forall d :: d in rows ==> d.id != id
    ensures WithoutRow(rows, id) == rows
  {
    if rows != [] {
      WithoutAbsent(rows[1..], id);
    }
  }

  lemma {:induction false} RowGoes(rows: seq<Deployment>, v: Deployment, f: Deployment -> nat)
    requires DistinctIds(rows) && v in rows
    ensures Sum(WithoutRow(rows, v.id), f) + f(v) == Sum(rows, f)
  {
    var rest := rows[1..];
    if rows[0] == v {
      forall d | d in rest ensures d.id != v.id {
        var k :| 0 <= k < |rest| && rest[k] == d;
      }
      WithoutAbsent(rest, v.id);
      assert WithoutRow(rows, v.id) == rest;
    } else {
      var k :| 0 <= k < |rows| && rows[k] == v;
      assert rest[k - 1] == v;
      RowGoes(rest, v, f);
      assert ([rows[0]] + WithoutRow(rest, v.id))[1..] == WithoutRow(rest, v.id);
    }
  }

  lemma {:induction false} WithoutDistinct(rows: seq<Deployment>, id: string)
    requires DistinctIds(rows)
    ensures DistinctIds(WithoutRow(rows, id))
  {
    if rows != [] {
      WithoutDistinct(rows[1..], id);
      WhereMembers(rows[1..], (d: Deployment) => d.id != id);
      var rest := WithoutRow(rows[1..], id);
      forall j | 0 <= j < |rest| ensures rest[j].id != rows[0].id {
        assert rest[j] in rows[1..];
      }
    }
  }

  lemma {:induction false} ClaimTakes(gpus: seq<Gpu>, n: nat, id: string)
    ensures var left := CountIf(Claimed(gpus, n, id), IsFree());
            left == if CountIf(gpus, IsFree()) >= n then CountIf(gpus, IsFree()) - n else 0
  {
    if gpus != [] && n > 0 {
      var rest := Claimed(gpus[1..], if IsFree()(gpus[0]) then n - 1 else n, id);
      ClaimTakes(gpus[1..], if IsFree()(gpus[0]) then n - 1 else n, id);
      assert Claimed(gpus, n, id)[1..] == rest;
    } else if gpus == [] {
      assert CountIf(gpus, IsFree()) == 0;
    }
  }

  lemma {:induction false} DeployTakes(c: Chute, servers: seq<Server>, s: Server, id: string)
    ensures Sum(Each(servers, ClaimOn(c, s, id)), FreeOn()) <= Sum(servers, FreeOn())
    ensures s in servers && VerifyGpus(c, s) ==>
              Sum(Each(servers, ClaimOn(c, s, id)), FreeOn()) + c.gpuCount <= Sum(servers, FreeOn())
  {
    if servers != [] {
      DeployTakes(c, servers[1..], s, id);
      ClaimTakes(servers[0].gpus, c.gpuCount, id);
      assert Each(servers, ClaimOn(c, s, id))[1..] == Each(servers[1..], ClaimOn(c, s, id));
    }
  }

  // ---- One turn of the loop ----

  // How an attempt to deploy ended: with a running deployment; with a failure that left nothing; or with a failure to
  // announce it, followed by an undeploy whose preflight may veto.
  datatype Outcome = Running | Failed | Withdrawn(preflightOk: bool)

  // What the world answers during one turn.
  datatype Turn = Turn(now: int, preflightOk: bool, diskOk: string -> bool, dice: nat, id: string, outcome: Outcome)

  datatype Move = Again(f: Fleet) | Stop(f: Fleet) | Delegate(f: Fleet)

  function ScaleDown(c: Chute, f: Fleet, t: Turn): Move {
    match Victim(c, f, t.now)
    case None => Stop(f)
    case Some(d) => Again(if t.preflightOk then Undeployed(f, d.id) else f)
  }

  function ScaleUp(c: Chute, preempt: bool, f: Fleet, t: Turn): Move {
    match PickServer(c, f.servers, t.diskOk, t.dice)
    case None => if preempt then Delegate(f) else Stop(f)
    case Some(s) =>
      match t.outcome
      case Running => Again(Deployed(c, f, s, t.id))
      case Failed => Stop(f)
      case Withdrawn(ok) => Stop(if ok then Undeployed(Deployed(c, f, s, t.id), t.id) else Deployed(c, f, s, t.id))
  }

  function Step(c: Chute, desired: nat, preempt: bool, f: Fleet, t: Turn): Move {
    if Count(c, f) > desired then ScaleDown(c, f, t) else ScaleUp(c, preempt, f, t)
  }

  predicate IsNew(rows: seq<Deployment>, id: string) {
    forall d :: d in rows ==> d.id != id
  }

  lemma DownFacts(c: Chute, f: Fleet, t: Turn)
    requires DistinctIds(f.rows)
    ensures
      var m := ScaleDown(c, f, t);
      && DistinctIds(m.f.rows)
      && Count(c, f) <= Count(c, m.f) + 1 && Count(c, m.f) <= Count(c, f)
      && (m.Again? && t.preflightOk ==> NonJobs(c, m.f) + 1 == NonJobs(c, f))
      && (m.Again? && !t.preflightOk ==> m.f == f)
  {
    VictimRanks(c, f, t.now);
    var v := Victim(c, f, t.now);
    if v.Some? {
      RowGoes(f.rows, v.value, Flag(IsCounted(c)));
      RowGoes(f.rows, v.value, Flag(IsNonJob(c)));
      WithoutDistinct(f.rows, v.value.id);
    }
  }

  lemma DeployCounts(c: Chute, f: Fleet, s: Server, id: string)
    ensures Count(c, Deployed(c, f, s, id)) == Count(c, f) + if s.validator == c.validator then 1 else 0
    ensures NonJobs(c, Deployed(c, f, s, id)) == NonJobs(c, f) + 1
  {
    SumSnoc(f.rows, NewRow(c, s, id), Flag(IsCounted(c)));
    SumSnoc(f.rows, NewRow(c, s, id), Flag(IsNonJob(c)));
  }

  lemma {:induction false} ClaimCleared(gpus: seq<Gpu>, n: nat, id: string)
    requires !HoldsOn(gpus, id)
    ensures Each(Claimed(gpus, n, id), Clear(id)) == gpus
  {
    if gpus != [] {
      assert gpus[0] in gpus;
      assert !HoldsOn(gpus[1..], id) by {
        assert forall g :: g in gpus[1..] ==> g in gpus;
      }
      var m := if n > 0 && IsFree()(gpus[0]) then n - 1 else n;
      ClaimCleared(gpus[1..], m, id);
      if n == 0 {
        assert Claimed(gpus[1..], m, id) == gpus[1..];
      } else {
        assert Claimed(gpus, n, id)[1..] == Claimed(gpus[1..], m, id);
      }
    }
  }

  lemma {:induction false} ServersCleared(c: Chute, servers: seq<Server>, s: Server, id: string)
    requires forall r :: r in servers ==> !HoldsOn(r.gpus, id)
    ensures Each(Each(servers, ClaimOn(c, s, id)), ClearOn(id)) == servers
  {
    if servers != [] {
      ServersCleared(c, servers[1..], s, id);
      assert servers[0] in servers;
      ClaimCleared(servers[0].gpus, c.gpuCount, id);
      ClaimCleared(servers[0].gpus, 0, id);
      assert Claimed(servers[0].gpus, 0, id) == servers[0].gpus;
      assert Each(servers, ClaimOn(c, s, id))[1..] == Each(servers[1..], ClaimOn(c, s, id));
    }
  }

  /** Undeploying a deployment just made restores rows and GPUs alike. */
  lemma WithdrawnRestores(c: Chute, f: Fleet, s: Server, id: string)
    requires IsNew(f.rows, id) && !Holds(f, id)
    ensures Undeployed(Deployed(c, f, s, id), id) == f
  {
    WithoutAbsent(f.rows, id);
    WhereAppend(f.rows, [NewRow(c, s, id)], (d: Deployment) => d.id != id);
    ServersCleared(c, f.servers, s, id);
  }

  lemma {:induction false} WhereAppend<T>(s: seq<T>, t: seq<T>, p: T -> bool)
    ensures Where(s + t, p) == Where(s, p) + Where(t, p)
  {
    if s == [] {
      assert s + t == t;
    } else {
      WhereAppend(s[1..], t, p);
      assert (s + t)[0] == s[0] && (s + t)[1..] == s[1..] + t;
      var rest, more := Where(s[1..], p), Where(t, p);
      assert [s[0]] + (rest + more) == [s[0]] + rest + more;
    }
  }

  lemma RunningFacts(c: Chute, f: Fleet, s: Server, id: string)
    requires DistinctIds(f.rows) && IsNew(f.rows, id)
    ensures
      var g := Deployed(c, f, s, id);
      && DistinctIds(g.rows)
      && (forall d :: d in g.rows ==> d in f.rows || d.id == id)
      && Count(c, g) == Count(c, f) + (if s.validator == c.validator then 1 else 0)
      && (s in f.servers && VerifyGpus(c, s) ==> TotalFree(g) + c.gpuCount <= TotalFree(f))
  {
    DeployCounts(c, f, s, id);
    DeployTakes(c, f.servers, s, id);
  }

  // A turn either leaves everything as it was or deploys on the picked server.
  lemma UpLands(c: Chute, preempt: bool, f: Fleet, t: Turn)
    requires IsNew(f.rows, t.id) && !Holds(f, t.id)
    ensures
      var m, pick := ScaleUp(c, preempt, f, t), PickServer(c, f.servers, t.diskOk, t.dice);
      && (pick.None? ==> !m.Again? && m.f == f)
      && (pick.Some? ==> m.f == f || m.f == Deployed(c, f, pick.value, t.id))
      && (m.Again? ==> pick.Some? && m.f == Deployed(c, f, pick.value, t.id))
  {
    var pick := PickServer(c, f.servers, t.diskOk, t.dice);
    if pick.Some? {
      WithdrawnRestores(c, f, pick.value, t.id);
    }
  }

  /** One turn below the desired count adds at most one counted deployment: exactly one when it deploys to a server of
      the chute's own validator. The server selection ignores the validator, and a deployment elsewhere counts for
      nothing while it uses up GPUs. */
  lemma UpFacts(c: Chute, preempt: bool, f: Fleet, t: Turn)
    requires DistinctIds(f.rows) && IsNew(f.rows, t.id) && !Holds(f, t.id)
    ensures
      var m := ScaleUp(c, preempt, f, t);
      && DistinctIds(m.f.rows)
      && (forall d :: d in m.f.rows ==> d in f.rows || d.id == t.id)
      && Count(c, f) <= Count(c, m.f) <= Count(c, f) + 1
      && (m.Again? ==>
            var s := PickServer(c, f.servers, t.diskOk, t.dice).value;
            && Count(c, m.f) == Count(c, f) + (if s.validator == c.validator then 1 else 0)
            && TotalFree(m.f) + c.gpuCount <= TotalFree(f))
  {
    UpLands(c, preempt, f, t);
    var pick := PickServer(c, f.servers, t.diskOk, t.dice);
    if pick.Some? {
      PickRanks(c, f.servers, t.diskOk, t.dice);
      RunningFacts(c, f, pick.value, t.id);
    }
  }

  // ---- A turn, in full ----

  // The places of the rows that count: the chute's own, at its version and validator, and no jobs.
  function Counting(c: Chute, f: Fleet): set<int> {
    set i | 0 <= i < |f.rows| && f.rows[i].chuteId == c.id && f.rows[i].version == c.version
            && f.rows[i].validator == c.validator && !f.rows[i].isJob
  }

  lemma CountIs(c: Chute, f: Fleet)
    ensures Count(c, f) == |Counting(c, f)|
  {
    Counted(f.rows, IsCounted(c));
    assert Counting(c, f) == Places(f.rows, IsCounted(c));
  }

  predicate NothingSuits(c: Chute, f: Fleet, diskOk: string -> bool) {
    c.banned || forall s :: s in f.servers ==> !Suits(c, s, diskOk)
  }

  /** Too many deployments: one that may leave is undeployed, unless its preflight vetoes, and the loop goes on; with
      none it stops. Too few: a server that suits gets a deployment, and the loop goes on if it runs; with none it
      leaves the rest to the preempting deploy if it may, and stops otherwise. */
  lemma TurnFacts(c: Chute, desired: nat, preempt: bool, f: Fleet, t: Turn)
    requires |Counting(c, f)| != desired
    ensures
      var m := Step(c, desired, preempt, f, t);
      if |Counting(c, f)| > desired then
        if forall d :: d in f.rows ==> !MayLeave(c, f, d, t.now) then m == Stop(f)
        else exists d :: d in f.rows && MayLeave(c, f, d, t.now)
                         && m == Again(if t.preflightOk then Undeployed(f, d.id) else f)
      else if NothingSuits(c, f, t.diskOk) then m == if preempt then Delegate(f) else Stop(f)
      else exists s :: s in f.servers && Suits(c, s, t.diskOk) && LandsOn(c, f, s, t, m)
  {
    CountIs(c, f);
    VictimFacts(c, f, t.now);
    PickFacts(c, f.servers, t.diskOk, t.dice);
    if |Counting(c, f)| < desired && !NothingSuits(c, f, t.diskOk) {
      assert LandsOn(c, f, PickServer(c, f.servers, t.diskOk, t.dice).value, t, Step(c, desired, preempt, f, t));
    }
  }

  // A deployment on the server that runs, that fails, or that is withdrawn since it could not be announced.
  ghost predicate LandsOn(c: Chute, f: Fleet, s: Server, t: Turn, m: Move) {
    match t.outcome
    case Running => m == Again(Deployed(c, f, s, t.id))
    case Failed => m == Stop(f)
    case Withdrawn(ok) => m == Stop(if ok then Undeployed(Deployed(c, f, s, t.id), t.id) else Deployed(c, f, s, t.id))
  }

  /** An undeploy takes the row and the owner of its GPUs, and changes nothing else. */
  lemma UndeployedFacts(f: Fleet, id: string)
    ensures
      var g := Undeployed(f, id);
      && (forall d :: d in g.rows <==> d in f.rows && d.id != id)
      && |g.servers| == |f.servers|
      && (forall i :: 0 <= i < |f.servers| ==>
            g.servers[i] == f.servers[i].(gpus := g.servers[i].gpus) && |g.servers[i].gpus| == |f.servers[i].gpus|)
      && (forall i, j :: 0 <= i < |f.servers| && 0 <= j < |f.servers[i].gpus| ==>
            var was := f.servers[i].gpus[j];
            g.servers[i].gpus[j] == if was.owner == Some(id) then was.(owner := None) else was)
  {
    WhereMembers(f.rows, (d: Deployment) => d.id != id);
    EachMembers(f.servers, ClearOn(id));
    forall i | 0 <= i < |f.servers| {
      EachMembers(f.servers[i].gpus, Clear(id));
    }
  }

  // GPUs before and after a claim of `n` under the id: it takes verified ones without an owner, as many as it says.
  ghost predicate ClaimsExactly(before: seq<Gpu>, after: seq<Gpu>, n: nat, id: string) {
    && |after| == |before|
    && (forall j :: 0 <= j < |before| ==>
          after[j] == before[j]
          || (before[j].verified && before[j].owner == None && after[j] == before[j].(owner := Some(id))))
    && |Places(after, IsOwned(id))| == n
  }

  function IsOwned(id: string): Gpu -> bool {
    (g: Gpu) => g.owner == Some(id)
  }

  lemma {:induction false} NoneOwned(gpus: seq<Gpu>, id: string)
    requires !HoldsOn(gpus, id)
    ensures CountIf(gpus, IsOwned(id)) == 0
  {
    if gpus != [] {
      assert gpus[0] in gpus && forall g :: g in gpus[1..] ==> g in gpus;
      NoneOwned(gpus[1..], id);
    }
  }

  lemma {:induction false} ClaimedOnes(gpus: seq<Gpu>, n: nat, id: string)
    requires CountIf(gpus, IsFree()) >= n && !HoldsOn(gpus, id)
    ensures CountIf(Claimed(gpus, n, id), IsOwned(id)) == n
    ensures |Claimed(gpus, n, id)| == |gpus|
    ensures forall j :: 0 <= j < |gpus| ==>
              Claimed(gpus, n, id)[j] == gpus[j]
              || (gpus[j].verified && gpus[j].owner == None
                  && Claimed(gpus, n, id)[j] == gpus[j].(owner := Some(id)))
  {
    if gpus == [] || n == 0 {
      NoneOwned(gpus, id);
    } else {
      assert gpus[0] in gpus && forall g :: g in gpus[1..] ==> g in gpus;
      var m := if IsFree()(gpus[0]) then n - 1 else n;
      ClaimedOnes(gpus[1..], m, id);
      assert Claimed(gpus, n, id)[1..] == Claimed(gpus[1..], m, id);
    }
  }

  /** A deployment adds one row, with the chute's version and the server's validator, and claims exactly the chute's GPU
      count on the server, out of verified GPUs without an owner. */
  lemma DeployedFacts(c: Chute, f: Fleet, s: Server, id: string)
    requires s in f.servers && |Free(s)| >= c.gpuCount && !Holds(f, id)
    requires forall i, j :: 0 <= i < j < |f.servers| ==> f.servers[i].id != f.servers[j].id
    ensures
      var g := Deployed(c, f, s, id);
      && g.rows == f.rows + [Deployment(id, c.id, c.version, s.validator, false, c.preemptible, None, s.id)]
      && |g.servers| == |f.servers|
      && (forall i :: 0 <= i < |f.servers| ==>
            if f.servers[i] == s then ClaimsExactly(s.gpus, g.servers[i].gpus, c.gpuCount, id)
                                      && g.servers[i] == s.(gpus := g.servers[i].gpus)
            else g.servers[i] == f.servers[i])
  {
    EachMembers(f.servers, ClaimOn(c, s, id));
    GpusCounted(c, s);
    assert !HoldsOn(s.gpus, id);
    ClaimedOnes(s.gpus, c.gpuCount, id);
    Counted(Claimed(s.gpus, c.gpuCount, id), IsOwned(id));
    var k :| 0 <= k < |f.servers| && f.servers[k] == s;
    forall i | 0 <= i < |f.servers| && f.servers[i] != s ensures f.servers[i].id != s.id {
      assert i < k || k < i;
    }
  }

  // ---- Whole runs ----

  // What shrinks with every turn that achieves something.
  function Measure(c: Chute, desired: nat, down: bool, f: Fleet): int {
    if down then NonJobs(c, f) else desired - Count(c, f) + TotalFree(f)
  }

  // A turn that changes nothing the loop looks at: a vetoed removal, or a deployment that is neither counted nor
  // uses up a GPU.
  predicate Stuck(c: Chute, desired: nat, f: Fleet, t: Turn) {
    if Count(c, f) > desired then Victim(c, f, t.now).Some? && !t.preflightOk
    else
      var pick := PickServer(c, f.servers, t.diskOk, t.dice);
      c.gpuCount == 0 && t.outcome.Running? && pick.Some? && pick.value.validator != c.validator
  }

  // Deployment ids are drawn afresh: no row has one of the later ones, and no GPU points to one.
  ghost predicate FreshFrom(f: Fleet, script: nat -> Turn, start: nat) {
    && (forall i :: start <= i ==> IsNew(f.rows, script(i).id) && !Holds(f, script(i).id))
    && (forall i, j :: start <= i < j ==> script(i).id != script(j).id)
  }

  // One turn from `f` to `g` goes towards the desired count, by one at most, and not past it.
  predicate Approaches(c: Chute, desired: nat, f: Fleet, g: Fleet) {
    var before, after := Count(c, f), Count(c, g);
    if before > desired then desired <= after <= before <= after + 1
    else before <= after <= before + 1 && after <= desired
  }

  lemma StepApproaches(c: Chute, desired: nat, preempt: bool, f: Fleet, t: Turn)
    requires DistinctIds(f.rows) && IsNew(f.rows, t.id) && !Holds(f, t.id) && Count(c, f) != desired
    ensures Approaches(c, desired, f, Step(c, desired, preempt, f, t).f)
  {
    DownFacts(c, f, t);
    UpFacts(c, preempt, f, t);
  }

  lemma {:induction false} ClaimNothing(c: Chute, servers: seq<Server>, s: Server, id: string)
    requires c.gpuCount == 0
    ensures Each(servers, ClaimOn(c, s, id)) == servers
  {
    if servers != [] {
      ClaimNothing(c, servers[1..], s, id);
      assert Claimed(servers[0].gpus, 0, id) == servers[0].gpus;
    }
  }

  lemma UpShrinksIff(c: Chute, desired: nat, preempt: bool, f: Fleet, t: Turn)
    requires DistinctIds(f.rows) && IsNew(f.rows, t.id) && !Holds(f, t.id) && Count(c, f) < desired
    requires ScaleUp(c, preempt, f, t).Again?
    ensures
      var g := ScaleUp(c, preempt, f, t).f;
      && 0 <= Measure(c, desired, false, g) <= Measure(c, desired, false, f)
      && (Measure(c, desired, false, g) < Measure(c, desired, false, f) <==> !Stuck(c, desired, f, t))
  {
    UpFacts(c, preempt, f, t);
    if c.gpuCount == 0 {
      ClaimNothing(c, f.servers, PickServer(c, f.servers, t.diskOk, t.dice).value, t.id);
    }
  }

  /** A turn that lets the loop go on gets closer to its end exactly when it is not stuck. */
  lemma StepShrinksIff(c: Chute, desired: nat, preempt: bool, f: Fleet, t: Turn)
    requires DistinctIds(f.rows) && IsNew(f.rows, t.id) && !Holds(f, t.id) && Count(c, f) != desired
    requires Step(c, desired, preempt, f, t).Again?
    ensures
      var g, down := Step(c, desired, preempt, f, t).f, Count(c, f) > desired;
      && 0 <= Measure(c, desired, down, g) <= Measure(c, desired, down, f)
      && (Measure(c, desired, down, g) < Measure(c, desired, down, f) <==> !Stuck(c, desired, f, t))
  {
    if Count(c, f) > desired {
      DownFacts(c, f, t);
    } else {
      UpShrinksIff(c, desired, preempt, f, t);
    }
  }

  // One call of `scale_chute`: what it is asked, the tables it finds, and what the world answers turn by turn.
  datatype Call = Call(chute: Chute, desired: nat, preempt: bool, start: Fleet, script: nat -> Turn)

  // How a call ends.
  datatype Ending = Scaled(done: bool) | Preempting

  // Still turning, or over with an answer.
  datatype Status = Going(f: Fleet) | Over(f: Fleet, ending: Ending)

  // At the head of the loop, before the first turn or after one.
  function Head(k: Call, f: Fleet, scaled: bool): Status {
    if Count(k.chute, f) == k.desired then Over(f, Scaled(scaled)) else Going(f)
  }

  function Turned(k: Call, f: Fleet, n: nat): Status {
    match Step(k.chute, k.desired, k.preempt, f, k.script(n))
    case Again(g) => Head(k, g, true)
    case Stop(g) => Over(g, Scaled(false))
    case Delegate(g) => Over(g, Preempting)
  }

  // Where a call is after each number of turns.
  type Trace = nat -> Status

  predicate Links(k: Call, at: Trace, n: nat) {
    at(n + 1) == if at(n).Over? then at(n) else Turned(k, at(n).f, n)
  }

  ghost predicate IsTrace(k: Call, at: Trace) {
    at(0) == Head(k, k.start, false) && forall n: nat :: Links(k, at, n)
  }

  function Run(k: Call, n: nat): Status {
    if n == 0 then Head(k, k.start, false)
    else
      var s := Run(k, n - 1);
      if s.Over? then s else Turned(k, s.f, n - 1)
  }

  // Every call has a trace.
  lemma RunIsTrace(k: Call)
    ensures IsTrace(k, (n: nat) => Run(k, n))
  {
    var at := (n: nat) => Run(k, n);
    forall n: nat ensures Links(k, at, n) {
      RunLinks(k, at, n);
    }
  }

  lemma RunLinks(k: Call, at: Trace, n: nat)
    requires at(n + 1) == Run(k, n + 1) && at(n) == Run(k, n)
    ensures Links(k, at, n)
  {
  }

  ghost predicate Sound(k: Call) {
    DistinctIds(k.start.rows) && FreshFrom(k.start, k.script, 0)
  }

  lemma {:induction false} ClaimedOwners(gpus: seq<Gpu>, n: nat, id: string, x: string)
    requires HoldsOn(Claimed(gpus, n, id), x) && x != id
    ensures HoldsOn(gpus, x)
  {
    if gpus != [] && n > 0 {
      var m := if IsFree()(gpus[0]) then n - 1 else n;
      var g :| g in Claimed(gpus, n, id) && g.owner == Some(x);
      if g == gpus[0] {
        assert g in gpus;
      } else {
        assert Claimed(gpus, n, id) == [Claimed(gpus, n, id)[0]] + Claimed(gpus[1..], m, id);
        assert g in Claimed(gpus[1..], m, id);
        ClaimedOwners(gpus[1..], m, id, x);
        assert forall y :: y in gpus[1..] ==> y in gpus;
      }
    }
  }

  lemma DeployedHolds(c: Chute, f: Fleet, s: Server, id: string, x: string)
    requires Holds(Deployed(c, f, s, id), x) && x != id
    ensures Holds(f, x)
  {
    EachMembers(f.servers, ClaimOn(c, s, id));
    var r :| r in Deployed(c, f, s, id).servers && HoldsOn(r.gpus, x);
    var i :| 0 <= i < |f.servers| && Deployed(c, f, s, id).servers[i] == r;
    assert f.servers[i] in f.servers;
    if f.servers[i].id == s.id {
      ClaimedOwners(f.servers[i].gpus, c.gpuCount, id, x);
    }
  }

  lemma {:induction false} ClearedOwners(gpus: seq<Gpu>, id: string, x: string)
    requires HoldsOn(Each(gpus, Clear(id)), x)
    ensures HoldsOn(gpus, x)
  {
    if gpus != [] {
      var g :| g in Each(gpus, Clear(id)) && g.owner == Some(x);
      if g == Clear(id)(gpus[0]) {
        assert gpus[0] in gpus;
      } else {
        assert Each(gpus, Clear(id)) == [Clear(id)(gpus[0])] + Each(gpus[1..], Clear(id));
        ClearedOwners(gpus[1..], id, x);
        assert forall y :: y in gpus[1..] ==> y in gpus;
      }
    }
  }

  lemma UndeployedHolds(f: Fleet, id: string, x: string)
    requires Holds(Undeployed(f, id), x)
    ensures Holds(f, x)
  {
    EachMembers(f.servers, ClearOn(id));
    var r :| r in Undeployed(f, id).servers && HoldsOn(r.gpus, x);
    var i :| 0 <= i < |f.servers| && Undeployed(f, id).servers[i] == r;
    ClearedOwners(f.servers[i].gpus, id, x);
    assert f.servers[i] in f.servers;
  }

  lemma DownKeepsRows(c: Chute, f: Fleet, t: Turn)
    ensures forall d :: d in ScaleDown(c, f, t).f.rows ==> d in f.rows
  {
    var v := Victim(c, f, t.now);
    if v.Some? {
      WhereMembers(f.rows, (d: Deployment) => d.id != v.value.id);
    }
  }

  // A step brings no owner but the turn's own id.
  lemma StepHolds(c: Chute, desired: nat, preempt: bool, f: Fleet, t: Turn, x: string)
    requires IsNew(f.rows, t.id) && !Holds(f, t.id) && x != t.id && !Holds(f, x)
    ensures !Holds(Step(c, desired, preempt, f, t).f, x)
  {
    var g := Step(c, desired, preempt, f, t).f;
    if Count(c, f) > desired {
      var v := Victim(c, f, t.now);
      if v.Some? && Holds(Undeployed(f, v.value.id), x) {
        UndeployedHolds(f, v.value.id, x);
      }
    } else {
      var pick := PickServer(c, f.servers, t.diskOk, t.dice);
      if pick.Some? {
        WithdrawnRestores(c, f, pick.value, t.id);
        if Holds(Deployed(c, f, pick.value, t.id), x) {
          DeployedHolds(c, f, pick.value, t.id, x);
        }
      }
    }
  }

  lemma StepKeepsFresh(c: Chute, desired: nat, preempt: bool, f: Fleet, script: nat -> Turn, i: nat)
    requires DistinctIds(f.rows) && FreshFrom(f, script, i)
    ensures
      var g := Step(c, desired, preempt, f, script(i)).f;
      DistinctIds(g.rows) && FreshFrom(g, script, i + 1)
  {
    var g := Step(c, desired, preempt, f, script(i)).f;
    DownFacts(c, f, script(i));
    DownKeepsRows(c, f, script(i));
    UpFacts(c, preempt, f, script(i));
    forall j | i + 1 <= j ensures IsNew(g.rows, script(j).id) && !Holds(g, script(j).id) {
      assert script(i).id != script(j).id;
      StepHolds(c, desired, preempt, f, script(i), script(j).id);
    }
  }

  lemma TurnKeeps(k: Call, at: Trace, n: nat)
    requires IsTrace(k, at) && DistinctIds(at(n).f.rows) && FreshFrom(at(n).f, k.script, n)
    ensures DistinctIds(at(n + 1).f.rows) && FreshFrom(at(n + 1).f, k.script, n + 1)
  {
    assert Links(k, at, n);
    if at(n).Going? {
      StepKeepsFresh(k.chute, k.desired, k.preempt, at(n).f, k.script, n);
    }
  }

  lemma {:induction false} RunKeeps(k: Call, at: Trace, n: nat)
    requires IsTrace(k, at) && Sound(k)
    ensures DistinctIds(at(n).f.rows) && FreshFrom(at(n).f, k.script, n)
  {
    if n > 0 {
      RunKeeps(k, at, n - 1);
      TurnKeeps(k, at, n - 1);
    }
  }

  lemma {:induction false} GoingCount(k: Call, at: Trace, n: nat)
    requires IsTrace(k, at) && at(n).Going?
    ensures Count(k.chute, at(n).f) != k.desired
  {
    if n > 0 {
      assert Links(k, at, n - 1);
    }
  }

  /** Over a whole run every turn takes the count towards the desired one, by at most one, and never past it. */
  lemma RunApproaches(k: Call, at: Trace, n: nat)
    requires IsTrace(k, at) && Sound(k) && at(n).Going?
    ensures Approaches(k.chute, k.desired, at(n).f, at(n + 1).f)
  {
    RunKeeps(k, at, n);
    GoingCount(k, at, n);
    assert Links(k, at, n);
    StepApproaches(k.chute, k.desired, k.preempt, at(n).f, k.script(n));
  }

  lemma OverStays(k: Call, at: Trace, n: nat)
    requires IsTrace(k, at) && at(n).Over?
    ensures at(n + 1) == at(n)
  {
    assert Links(k, at, n);
  }

  /** So the count stays between its first value and the desired one. */
  lemma {:induction false} RunOneWay(k: Call, at: Trace, n: nat)
    requires IsTrace(k, at) && Sound(k)
    ensures
      var first, now := Count(k.chute, k.start), Count(k.chute, at(n).f);
      if first <= k.desired then first <= now <= k.desired else k.desired <= now <= first
  {
    if n > 0 {
      RunOneWay(k, at, n - 1);
      if at(n - 1).Going? {
        RunApproaches(k, at, n - 1);
      } else {
        OverStays(k, at, n - 1);
      }
    }
  }

  function MeasureOf(k: Call, f: Fleet): int {
    Measure(k.chute, k.desired, Count(k.chute, k.start) > k.desired, f)
  }

  predicate StuckAt(k: Call, at: Trace, n: nat) {
    at(n).Going? && Stuck(k.chute, k.desired, at(n).f, k.script(n))
  }

  lemma TurnShrinksIff(k: Call, at: Trace, n: nat)
    requires IsTrace(k, at) && Sound(k) && at(n + 1).Going?
    ensures 0 <= MeasureOf(k, at(n + 1).f) <= MeasureOf(k, at(n).f)
    ensures MeasureOf(k, at(n + 1).f) < MeasureOf(k, at(n).f) <==> !StuckAt(k, at, n)
  {
    if at(n).Over? {
      OverStays(k, at, n);
    }
    RunKeeps(k, at, n);
    RunOneWay(k, at, n);
    GoingCount(k, at, n);
    assert Links(k, at, n);
    StepShrinksIff(k.chute, k.desired, k.preempt, at(n).f, k.script(n));
  }

  lemma {:induction false} StillGoing(k: Call, at: Trace, m: nat, n: nat)
    requires IsTrace(k, at) && m <= n && at(n).Going?
    ensures at(m).Going?
    decreases n
  {
    if m < n {
      if at(n - 1).Over? {
        OverStays(k, at, n - 1);
      }
      StillGoing(k, at, m, n - 1);
    }
  }

  function Stalls(k: Call, at: Trace, n: nat): nat {
    if n == 0 then 0 else Stalls(k, at, n - 1) + if StuckAt(k, at, n - 1) then 1 else 0
  }

  lemma MeasureAtStart(k: Call, at: Trace)
    requires IsTrace(k, at) && at(0).Going?
    ensures 0 <= MeasureOf(k, at(0).f)
  {
  }

  /** The loop runs for no more turns than its first state allows, stuck ones not counted. */
  lemma {:induction false} RunIsShort(k: Call, at: Trace, n: nat)
    requires IsTrace(k, at) && Sound(k) && at(n).Going?
    ensures 0 <= MeasureOf(k, at(n).f) && n + MeasureOf(k, at(n).f) <= MeasureOf(k, at(0).f) + Stalls(k, at, n)
  {
    if n == 0 {
      MeasureAtStart(k, at);
    } else {
      StillGoing(k, at, n - 1, n);
      RunIsShort(k, at, n - 1);
      TurnShrinksIff(k, at, n - 1);
    }
  }

  // ---- Runs that never end ----

  ghost predicate Endless(at: Trace) {
    forall n: nat :: at(n).Going?
  }

  ghost predicate StuckFrom(k: Call, at: Trace, m: nat) {
    forall n :: m <= n ==> StuckAt(k, at, n)
  }

  // A quantity that never grows, and shrinks exactly when not stuck, is stuck in the end.
  predicate WearsAt(m: nat -> int, stuck: nat -> bool, n: nat) {
    0 <= m(n + 1) <= m(n) && (m(n + 1) < m(n) <==> !stuck(n))
  }

  ghost predicate Wears(m: nat -> int, stuck: nat -> bool) {
    forall n: nat :: WearsAt(m, stuck, n)
  }

  lemma {:induction false} NeverGrows(m: nat -> int, stuck: nat -> bool, i: nat, j: nat)
    requires Wears(m, stuck) && i <= j
    ensures m(j) <= m(i)
    decreases j
  {
    if i < j {
      NeverGrows(m, stuck, i, j - 1);
      assert WearsAt(m, stuck, j - 1);
    }
  }

  lemma {:induction false} WearsOut(m: nat -> int, stuck: nat -> bool, i: nat) returns (last: nat)
    requires Wears(m, stuck) && m(i) >= 0
    ensures forall n :: last <= n ==> stuck(n)
    decreases m(i)
  {
    if forall n :: i <= n ==> stuck(n) {
      last := i;
    } else {
      var j :| i <= j && !stuck(j);
      NeverGrows(m, stuck, i, j);
      assert WearsAt(m, stuck, j);
      last := WearsOut(m, stuck, j + 1);
    }
  }

  lemma TurnWears(k: Call, at: Trace, n: nat)
    requires IsTrace(k, at) && Sound(k) && Endless(at)
    ensures WearsAt((i: nat) => MeasureOf(k, at(i).f), (i: nat) => StuckAt(k, at, i), n)
  {
    assert at(n + 1).Going?;
    TurnShrinksIff(k, at, n);
  }

  lemma EventuallyStuck(k: Call, at: Trace) returns (m: nat)
    requires IsTrace(k, at) && Sound(k) && Endless(at)
    ensures StuckFrom(k, at, m)
  {
    var measure, stuck := (i: nat) => MeasureOf(k, at(i).f), (i: nat) => StuckAt(k, at, i);
    forall n: nat ensures WearsAt(measure, stuck, n) {
      TurnWears(k, at, n);
    }
    MeasureAtStart(k, at);
    m := WearsOut(measure, stuck, 0);
    forall n | m <= n ensures StuckAt(k, at, n) {
      assert stuck(n);
    }
  }

  lemma StuckIsEndless(k: Call, at: Trace, m: nat)
    requires IsTrace(k, at) && StuckFrom(k, at, m)
    ensures Endless(at)
  {
    forall n: nat ensures at(n).Going? {
      var later := if n <= m then m else n;
      assert StuckAt(k, at, later);
      StillGoing(k, at, n, later);
    }
  }

  lemma EndlessIffStuck(k: Call, at: Trace)
    requires IsTrace(k, at) && Sound(k)
    ensures Endless(at) <==> exists m: nat :: StuckFrom(k, at, m)
  {
    if Endless(at) {
      var m := EventuallyStuck(k, at);
    }
    forall m: nat | StuckFrom(k, at, m) ensures Endless(at) {
      StuckIsEndless(k, at, m);
    }
  }

  lemma VetoedTurn(k: Call, at: Trace, n: nat)
    requires IsTrace(k, at) && Count(k.chute, k.start) > k.desired && at(n) == Going(k.start)
    requires !k.script(n).preflightOk && Victim(k.chute, k.start, k.script(n).now).Some?
    ensures at(n + 1) == Going(k.start)
  {
    assert Links(k, at, n);
  }

  /** While every preflight vetoes, a chute with too many deployments and one to remove keeps the loop turning on the
      spot. */
  lemma {:induction false} VetoedForever(k: Call, at: Trace, n: nat)
    requires IsTrace(k, at) && Count(k.chute, k.start) > k.desired
    requires forall i :: 0 <= i < n ==> !k.script(i).preflightOk && Victim(k.chute, k.start, k.script(i).now).Some?
    ensures at(n) == Going(k.start)
  {
    if n > 0 {
      VetoedForever(k, at, n - 1);
      VetoedTurn(k, at, n - 1);
    }
  }

  // The turn places a deployment on a server of another validator.
  predicate GoesAbroad(k: Call, servers: seq<Server>, t: Turn) {
    var pick := PickServer(k.chute, servers, t.diskOk, t.dice);
    t.outcome.Running? && pick.Some? && pick.value.validator != k.chute.validator
  }

  lemma ForeignTurn(k: Call, at: Trace, n: nat)
    requires IsTrace(k, at) && k.chute.gpuCount == 0
    requires at(n).Going? && Count(k.chute, at(n).f) < k.desired && GoesAbroad(k, at(n).f.servers, k.script(n))
    ensures
      var f, g := at(n).f, at(n + 1).f;
      && at(n + 1).Going? && g.servers == f.servers
      && Count(k.chute, g) == Count(k.chute, f) && NonJobs(k.chute, g) == NonJobs(k.chute, f) + 1
  {
    var f, t := at(n).f, k.script(n);
    var s := PickServer(k.chute, f.servers, t.diskOk, t.dice).value;
    assert Links(k, at, n);
    DeployCounts(k.chute, f, s, t.id);
    ClaimNothing(k.chute, f.servers, s, t.id);
  }

  /** A chute that needs no GPU and only finds servers of another validator is deployed on them without end. */
  lemma {:induction false} ForeignForever(k: Call, at: Trace, n: nat)
    requires IsTrace(k, at) && Count(k.chute, k.start) < k.desired && k.chute.gpuCount == 0
    requires forall i :: 0 <= i < n ==> GoesAbroad(k, k.start.servers, k.script(i))
    ensures
      var f := at(n).f;
      && at(n).Going? && f.servers == k.start.servers && Count(k.chute, f) == Count(k.chute, k.start)
      && NonJobs(k.chute, f) == NonJobs(k.chute, k.start) + n
  {
    if n > 0 {
      ForeignForever(k, at, n - 1);
      ForeignTurn(k, at, n - 1);
    }
  }

  // The turn changes nothing the loop looks at in this state: the removal is vetoed, or the deployment takes no GPU and
  // goes to another validator's server.
  predicate Frozen(k: Call, f: Fleet, t: Turn) {
    if Count(k.chute, f) > k.desired then Victim(k.chute, f, t.now).Some? && !t.preflightOk
    else k.chute.gpuCount == 0 && GoesAbroad(k, f.servers, t)
  }

  // A state that the loop reaches, and that all the answers still to come leave as it is.
  ghost predicate FrozenFrom(k: Call, at: Trace, m: nat) {
    at(m).Going? && forall n :: m <= n ==> Frozen(k, at(m).f, k.script(n))
  }

  // The two states look the same to the loop.
  predicate Alike(k: Call, f: Fleet, g: Fleet) {
    if Count(k.chute, f) > k.desired then g == f
    else g.servers == f.servers && Count(k.chute, g) == Count(k.chute, f)
  }

  lemma FrozenTurn(k: Call, at: Trace, n: nat)
    requires IsTrace(k, at) && at(n).Going? && Frozen(k, at(n).f, k.script(n))
    ensures at(n + 1).Going? && Alike(k, at(n).f, at(n + 1).f)
  {
    GoingCount(k, at, n);
    assert Links(k, at, n);
    if Count(k.chute, at(n).f) < k.desired {
      ForeignTurn(k, at, n);
    }
  }

  lemma AlikeFrozen(k: Call, f: Fleet, g: Fleet, t: Turn)
    requires Alike(k, f, g)
    ensures Frozen(k, f, t) <==> Frozen(k, g, t)
  {
  }

  // Frozen turns lead to states alike.
  lemma {:induction false} StaysFrozen(k: Call, at: Trace, m: nat, n: nat)
    requires IsTrace(k, at) && m <= n && FrozenFrom(k, at, m)
    ensures at(n).Going? && Alike(k, at(m).f, at(n).f)
    decreases n
  {
    if m < n {
      StaysFrozen(k, at, m, n - 1);
      AlikeFrozen(k, at(m).f, at(n - 1).f, k.script(n - 1));
      FrozenTurn(k, at, n - 1);
    }
  }

  lemma StuckIsFrozen(k: Call, at: Trace, n: nat)
    requires IsTrace(k, at) && StuckAt(k, at, n)
    ensures Frozen(k, at(n).f, k.script(n))
  {
    GoingCount(k, at, n);
  }

  lemma {:induction false} StuckAlike(k: Call, at: Trace, m: nat, n: nat)
    requires IsTrace(k, at) && m <= n && StuckFrom(k, at, m)
    ensures Alike(k, at(m).f, at(n).f)
    decreases n
  {
    if m < n {
      StuckAlike(k, at, m, n - 1);
      assert StuckAt(k, at, n - 1);
      StuckIsFrozen(k, at, n - 1);
      FrozenTurn(k, at, n - 1);
    }
  }

  lemma StuckFromFreezes(k: Call, at: Trace, m: nat)
    requires IsTrace(k, at) && StuckFrom(k, at, m)
    ensures FrozenFrom(k, at, m)
  {
    assert StuckAt(k, at, m);
    forall n | m <= n ensures Frozen(k, at(m).f, k.script(n)) {
      StuckAlike(k, at, m, n);
      assert StuckAt(k, at, n);
      StuckIsFrozen(k, at, n);
      AlikeFrozen(k, at(m).f, at(n).f, k.script(n));
    }
  }

  /** A call never ends exactly when it reaches a state that all the answers still to come leave frozen: with too many
      deployments each removal of what is there is vetoed, or with too few each deployment goes, without a GPU, to
      another validator's server. */
  lemma EndlessIff(k: Call, at: Trace)
    requires IsTrace(k, at) && Sound(k)
    ensures Endless(at) <==> exists m: nat :: FrozenFrom(k, at, m)
  {
    EndlessIffStuck(k, at);
    forall m: nat | StuckFrom(k, at, m) ensures FrozenFrom(k, at, m) {
      StuckFromFreezes(k, at, m);
    }
    forall m: nat | FrozenFrom(k, at, m) ensures Endless(at) {
      forall n: nat ensures at(n).Going? {
        var later := if n <= m then m else n;
        StaysFrozen(k, at, m, later);
        StillGoing(k, at, n, later);
      }
    }
  }

  // Whether every deployment of the chute is counted or at least uses up a GPU.
  predicate Bounded(c: Chute, f: Fleet) {
    c.gpuCount > 0 || forall s :: s in f.servers ==> s.validator == c.validator
  }

  lemma {:induction false} EachMembers<T>(s: seq<T>, f: T -> T)
    ensures |Each(s, f)| == |s| && forall i :: 0 <= i < |s| ==> Each(s, f)[i] == f(s[i])
  {
    if s != [] {
      EachMembers(s[1..], f);
    }
  }

  lemma DeployKeepsBounded(c: Chute, f: Fleet, s: Server, id: string)
    requires Bounded(c, f)
    ensures Bounded(c, Deployed(c, f, s, id))
  {
    EachMembers(f.servers, ClaimOn(c, s, id));
    forall r | r in Deployed(c, f, s, id).servers ensures exists q :: q in f.servers && q.validator == r.validator {
      var i :| 0 <= i < |f.servers| && Deployed(c, f, s, id).servers[i] == r;
      assert f.servers[i] in f.servers;
    }
  }

  lemma UndeployKeepsBounded(c: Chute, f: Fleet, id: string)
    requires Bounded(c, f)
    ensures Bounded(c, Undeployed(f, id))
  {
    EachMembers(f.servers, ClearOn(id));
    forall r | r in Undeployed(f, id).servers ensures exists q :: q in f.servers && q.validator == r.validator {
      var i :| 0 <= i < |f.servers| && Undeployed(f, id).servers[i] == r;
      assert f.servers[i] in f.servers;
    }
  }

  lemma StepKeepsBounded(c: Chute, desired: nat, preempt: bool, f: Fleet, t: Turn)
    requires Bounded(c, f)
    ensures Bounded(c, Step(c, desired, preempt, f, t).f)
  {
    if Count(c, f) > desired {
      if Victim(c, f, t.now).Some? {
        UndeployKeepsBounded(c, f, Victim(c, f, t.now).value.id);
      }
    } else {
      var pick := PickServer(c, f.servers, t.diskOk, t.dice);
      if pick.Some? {
        DeployKeepsBounded(c, f, pick.value, t.id);
        UndeployKeepsBounded(c, Deployed(c, f, pick.value, t.id), t.id);
      }
    }
  }

  lemma TurnKeepsBounded(k: Call, at: Trace, n: nat)
    requires IsTrace(k, at) && Bounded(k.chute, at(n).f)
    ensures Bounded(k.chute, at(n + 1).f)
  {
    assert Links(k, at, n);
    StepKeepsBounded(k.chute, k.desired, k.preempt, at(n).f, k.script(n));
  }

  lemma {:induction false} RunKeepsBounded(k: Call, at: Trace, n: nat)
    requires IsTrace(k, at) && Bounded(k.chute, k.start)
    ensures Bounded(k.chute, at(n).f)
  {
    if n > 0 {
      RunKeepsBounded(k, at, n - 1);
      TurnKeepsBounded(k, at, n - 1);
    }
  }

  lemma NotStuck(k: Call, at: Trace, n: nat)
    requires IsTrace(k, at) && Bounded(k.chute, k.start) && k.script(n).preflightOk
    ensures !StuckAt(k, at, n)
  {
    RunKeepsBounded(k, at, n);
    PickRanks(k.chute, at(n).f.servers, k.script(n).diskOk, k.script(n).dice);
  }

  ghost predicate PassesAfter(k: Call, m: nat) {
    exists n :: m <= n && k.script(n).preflightOk
  }

  /** A chute that uses GPUs, or whose validator owns every server, is scaled to an end whenever preflights keep passing
      now and then, however many veto in between. */
  lemma PassingEnds(k: Call, at: Trace)
    requires IsTrace(k, at) && Sound(k) && Bounded(k.chute, k.start)
    requires forall m: nat :: PassesAfter(k, m)
    ensures !Endless(at)
  {
    EndlessIffStuck(k, at);
    forall m: nat ensures !StuckFrom(k, at, m) {
      assert PassesAfter(k, m);
      var n :| m <= n && k.script(n).preflightOk;
      NotStuck(k, at, n);
    }
  }

  /** The scheduler with the tables it changes. */
  class Gepetto {
    var servers: seq<Server>
    var rows: seq<Deployment>

    function Contents(): Fleet
      reads this
    {
      Fleet(servers, rows)
    }

    method Undeploy(id: string, preflightOk: bool)
      modifies this
      ensures Contents() == if preflightOk then Undeployed(old(Contents()), id) else old(Contents())
    {
      if !preflightOk {
        return;
      }
      servers := Each(servers, ClearOn(id));
      rows := WithoutRow(rows, id);
    }

    // `started` says whether everything after the claim worked; false stands for the raised failure.
    method DeployChute(c: Chute, s: Server, id: string, started: bool) returns (ok: bool)
      requires IsNew(rows, id) && !Holds(Contents(), id)
      modifies this
      ensures ok <==> started && VerifyGpus(c, s)
      ensures Contents() == if ok then Deployed(c, old(Contents()), s, id) else old(Contents())
    {
      if !VerifyGpus(c, s) {
        return false;
      }
      WithdrawnRestores(c, Contents(), s, id);
      rows := rows + [NewRow(c, s, id)];
      servers := Each(servers, ClaimOn(c, s, id));
      if !started {
        rows := WithoutRow(rows, id);
        servers := Each(servers, ClearOn(id));
      }
      return started;
    }

    // The body of the loop.
    method TakeTurn(c: Chute, desired: nat, preempt: bool, t: Turn) returns (move: Move)
      requires Count(c, Contents()) != desired && IsNew(rows, t.id) && !Holds(Contents(), t.id)
      modifies this
      ensures move == Step(c, desired, preempt, old(Contents()), t) && Contents() == move.f
    {
      if Count(c, Contents()) > desired {
        var victim := Victim(c, Contents(), t.now);
        if victim.None? {
          return Stop(Contents());
        }
        Undeploy(victim.value.id, t.preflightOk);
        return Again(Contents());
      }
      var server := OptimalScaleUpServer(c, servers, t.diskOk, t.dice);
      if server.None? {
        return if preempt then Delegate(Contents()) else Stop(Contents());
      }
      var ok := DeployChute(c, server.value, t.id, !t.outcome.Failed?);
      if !ok {
        return Stop(Contents());
      }
      if t.outcome.Withdrawn? {
        Undeploy(t.id, t.outcome.preflightOk);
        return Stop(Contents());
      }
      return Again(Contents());
    }

    // The same, as the next step of a run.
    method TakeTurnAt(c: Chute, desired: nat, preempt: bool, t: Turn, ghost k: Call, ghost at: Trace, ghost i: nat)
      returns (move: Move)
      requires k.chute == c && k.desired == desired && k.preempt == preempt && k.script(i) == t
      requires IsTrace(k, at) && Sound(k) && at(i) == Going(Contents())
      modifies this
      ensures Contents() == move.f
      ensures move.Again? ==> at(i + 1) == Head(k, move.f, true)
      ensures !move.Again? ==> at(i + 1) == Over(move.f, if move.Delegate? then Preempting else Scaled(false))
    {
      RunKeeps(k, at, i);
      GoingCount(k, at, i);
      move := TakeTurn(c, desired, preempt, t);
      AfterTurn(k, at, i, move);
    }

    /** A call that has an end reaches it, in the state and with the answer of the last turn. */
    method ScaleChute(c: Chute, desired: nat, preempt: bool, script: nat -> Turn, ghost k: Call, ghost at: Trace)
      returns (ending: Ending, ghost turns: nat)
      requires k == Call(c, desired, preempt, Contents(), script) && Sound(k) && IsTrace(k, at)
      requires !exists m: nat :: FrozenFrom(k, at, m)
      modifies this
      ensures at(turns) == Over(Contents(), ending) && forall n :: 0 <= n < turns ==> at(n).Going?
      ensures Answers(k, at, turns)
    {
      ghost var end := HasEnd(k, at);
      turns := 0;
      var scaled, i := false, 0;
      while Count(c, Contents()) != desired
        invariant at(i) == Head(k, Contents(), scaled) && turns == i && (scaled <==> i > 0)
        invariant forall n :: 0 <= n < i ==> at(n).Going?
        decreases end - i
      {
        assert i < end by {
          BeforeTurn(k, at, i, end);
        }
        var move := TakeTurnAt(c, desired, preempt, script(i), k, at, i);
        i := i + 1;
        turns := i;
        if !move.Again? {
          EndOfCall(k, at, i);
          return if move.Delegate? then Preempting else Scaled(false), turns;
        }
        scaled := true;
      }
      EndOfCall(k, at, i);
      return Scaled(scaled), turns;
    }
  }

  // The last turn, from the tables `f`, decides the answer.
  ghost predicate EndsWith(k: Call, f: Fleet, t: Turn, last: Fleet, ending: Ending) {
    var c := k.chute;
    if |Counting(c, f)| > k.desired then
      if forall d :: d in f.rows ==> !MayLeave(c, f, d, t.now) then ending == Scaled(false) && last == f
      else ending == Scaled(true) && t.preflightOk
    else if NothingSuits(c, f, t.diskOk) then
      last == f && ending == if k.preempt then Preempting else Scaled(false)
    else ending == Scaled(t.outcome.Running?)
  }

  // The answer after `n` turns is that of the last one; True means that the desired count is reached; and the count has
  // not gone the other way or past it.
  ghost predicate Answers(k: Call, at: Trace, n: nat)
    requires at(n).Over?
  {
    var first, last := |Counting(k.chute, k.start)|, |Counting(k.chute, at(n).f)|;
    && (n == 0 ==> at(n).ending == Scaled(false) && last == k.desired)
    && (n > 0 ==> EndsWith(k, at(n - 1).f, k.script(n - 1), at(n).f, at(n).ending))
    && (at(n).ending == Scaled(true) ==> last == k.desired)
    && (if first <= k.desired then first <= last <= k.desired else k.desired <= last <= first)
  }

  /** Whatever the turn: a call that ends does so for the reason its answer says, and it leaves the rest to the
      preempting deploy exactly when it was asked to and no server suits. */
  lemma EndingFacts(k: Call, at: Trace, n: nat)
    requires IsTrace(k, at) && at(n).Going? && at(n + 1).Over?
    ensures EndsWith(k, at(n).f, k.script(n), at(n + 1).f, at(n + 1).ending)
  {
    assert Links(k, at, n);
    GoingCount(k, at, n);
    CountIs(k.chute, at(n).f);
    TurnFacts(k.chute, k.desired, k.preempt, at(n).f, k.script(n));
    SameTables(k, at, n);
  }

  // A veto leaves the call going.
  lemma SameTables(k: Call, at: Trace, n: nat)
    requires IsTrace(k, at) && at(n).Going? && at(n + 1).Over?
    ensures Step(k.chute, k.desired, k.preempt, at(n).f, k.script(n)) != Again(at(n).f)
  {
    assert Links(k, at, n);
    GoingCount(k, at, n);
  }

  lemma EndOfCall(k: Call, at: Trace, n: nat)
    requires IsTrace(k, at) && Sound(k) && at(n).Over? && (n > 0 ==> at(n - 1).Going?)
    ensures Answers(k, at, n)
  {
    RunOneWay(k, at, n);
    CountIs(k.chute, k.start);
    CountIs(k.chute, at(n).f);
    if n > 0 {
      EndingFacts(k, at, n - 1);
    }
    DoneCounts(k, at, n);
  }

  lemma DoneCounts(k: Call, at: Trace, n: nat)
    requires IsTrace(k, at) && at(n).Over? && (n > 0 ==> at(n - 1).Going?)
    ensures at(n).ending == Scaled(true) ==> Count(k.chute, at(n).f) == k.desired
    ensures n == 0 ==> at(n).ending == Scaled(false) && Count(k.chute, at(n).f) == k.desired
  {
    if n > 0 {
      assert Links(k, at, n - 1);
    }
  }

  lemma HasEnd(k: Call, at: Trace) returns (end: nat)
    requires IsTrace(k, at) && Sound(k) && !exists m: nat :: FrozenFrom(k, at, m)
    ensures at(end).Over?
  {
    EndlessIff(k, at);
    end :| at(end).Over?;
  }

  lemma BeforeTurn(k: Call, at: Trace, i: nat, end: nat)
    requires IsTrace(k, at) && at(i).Going? && at(end).Over?
    ensures i < end
  {
    if end <= i {
      StillGoing(k, at, end, i);
    }
  }

  lemma AfterTurn(k: Call, at: Trace, i: nat, move: Move)
    requires IsTrace(k, at) && at(i).Going?
    requires move == Step(k.chute, k.desired, k.preempt, at(i).f, k.script(i))
    ensures move.Again? ==> at(i + 1) == Head(k, move.f, true)
    ensures !move.Again? ==> at(i + 1) == Over(move.f, if move.Delegate? then Preempting else Scaled(false))
  {
    assert Links(k, at, i);
  }
}
