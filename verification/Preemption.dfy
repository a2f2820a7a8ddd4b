/** The planner of `Gepetto.preempting_deploy`: which server takes the new chute, and which
    deployments there make room for it. */
module Preemption {
  import opened Options
  import opened Sorting

  // An entry of the validator's list of active instances, over all miners.
  datatype Instance = Instance(instanceId: Option<string>, chuteId: string, multiplier: real)

  // `gpus` is the number of GPU rows that point at the deployment; times are in seconds.
  datatype Deployment = Deployment(
    id: string, chuteId: string, instanceId: Option<string>, isJob: bool, preemptible: bool,
    activatedAt: Option<int>, gpus: nat)

  datatype Gpu = Gpu(owner: Option<string>, verified: bool)

  datatype Server = Server(
    name: string, diskOk: bool, gpus: seq<Gpu>, deployments: seq<Deployment>)

  // What one call decides by, apart from the number of GPUs asked for.
  datatype Policy = Policy(chuteId: string, effective: real, now: int, active: seq<Instance>)

  const MIN_ACTIVE_SECONDS := 62 * 60

  function Multiplier(active: seq<Instance>, id: Option<string>): real {
    if active == [] then 0.0
    else if active[0].instanceId == id then active[0].multiplier
    else Multiplier(active[1..], id)
  }

  function IsOf(chute: string): Instance -> nat {
    (i: Instance) => if i.chuteId == chute then 1 else 0
  }

  // Live instances of a chute everywhere.
  function GlobalCount(p: Policy, chute: string): nat {
    Sum(p.active, IsOf(chute))
  }

  // How many instances of a chute may go while one stays.
  function Budget(p: Policy, chute: string): nat {
    var n := GlobalCount(p, chute);
    if n == 0 then 0 else n - 1
  }

  function ValueOf(p: Policy, d: Deployment): real {
    Multiplier(p.active, d.instanceId)
  }

  function LessValuable(p: Policy): (Deployment, Deployment) -> bool {
    (a: Deployment, b: Deployment) => ValueOf(p, a) <= ValueOf(p, b)
  }

  // The rules that look at one deployment alone.
  predicate Eligible(p: Policy, d: Deployment) {
    && !d.isJob
    && d.preemptible
    && d.activatedAt.Some?
    && d.chuteId != p.chuteId
    && p.now - d.activatedAt.value > MIN_ACTIVE_SECONDS
    && ValueOf(p, d) < p.effective
  }

  function GpusOf(): Deployment -> nat {
    (d: Deployment) => d.gpus
  }

  function OfChute(chute: string): Deployment -> nat {
    (d: Deployment) => if d.chuteId == chute then 1 else 0
  }

  // GPUs held by the members of `victims`, and how many of them belong to a chute.
  function FreedBy(victims: set<string>): Deployment -> nat {
    (d: Deployment) => if d.id in victims then d.gpus else 0
  }

  function LostBy(victims: set<string>, chute: string): Deployment -> nat {
    (d: Deployment) => if d.id in victims && d.chuteId == chute then 1 else 0
  }

  // The planner does not ask whether a GPU is verified.
  function IsFree(): Gpu -> nat {
    (g: Gpu) => if g.owner.None? then 1 else 0
  }

  function FreeGpus(s: Server): nat {
    Sum(s.gpus, IsFree())
  }

  function IdList(ds: seq<Deployment>): seq<string> {
    seq(|ds|, k requires 0 <= k < |ds| => ds[k].id)
  }

  // ---- What the planner computes ----

  // The deployment at `i` is taken when it is eligible and the earlier ones left budget for it.
  predicate TakenAt(p: Policy, ds: seq<Deployment>, i: nat)
    requires i < |ds|
    decreases i, 1
  {
    && Eligible(p, ds[i])
    && Sum(Takes(p, ds, i), OfChute(ds[i].chuteId)) < Budget(p, ds[i].chuteId)
  }

  // Everything taken among the first `n`.
  function Takes(p: Policy, ds: seq<Deployment>, n: nat): seq<Deployment>
    requires n <= |ds|
    decreases n, 0
  {
    if n == 0 then []
    else if TakenAt(p, ds, n - 1) then Takes(p, ds, n - 1) + [ds[n - 1]]
    else Takes(p, ds, n - 1)
  }

  function Freed(p: Policy, ds: seq<Deployment>, n: nat): nat
    requires n <= |ds|
  {
    Sum(Takes(p, ds, n), GpusOf())
  }

  // The victims once enough GPUs are reached, looking at `n` or more deployments.
  function Walk(p: Policy, ds: seq<Deployment>, free: nat, need: nat, n: nat): Option<seq<Deployment>>
    requires n <= |ds|
    decreases |ds| - n
  {
    if free + Freed(p, ds, n) >= need then Some(Takes(p, ds, n))
    else if n == |ds| then None
    else Walk(p, ds, free, need, n + 1)
  }

  function Ranked(p: Policy, s: Server): seq<Deployment> {
    Sort(s.deployments, LessValuable(p))
  }

  function PlanFor(p: Policy, s: Server, need: nat): Option<seq<Deployment>> {
    Walk(p, Ranked(p, s), FreeGpus(s), need, 0)
  }

  // ---- What any plan must respect ----

  ghost predicate DistinctIds(ds: seq<Deployment>) {
    forall i, j :: 0 <= i < j < |ds| ==> ds[i].id != ds[j].id
  }

  // The first entry of the active instances that bears the id is worth less than the new chute; without an entry the
  // deployment is worth nothing.
  ghost predicate WorthLess(p: Policy, id: Option<string>) {
    if exists k :: FirstEntry(p.active, id, k) then
      exists k :: FirstEntry(p.active, id, k) && p.active[k].multiplier < p.effective
    else 0.0 < p.effective
  }

  ghost predicate FirstEntry(active: seq<Instance>, id: Option<string>, k: int) {
    0 <= k < |active| && active[k].instanceId == id && forall j :: 0 <= j < k ==> active[j].instanceId != id
  }

  // A public deployment that is no job, belongs to another chute, has been active for more than 62 minutes, and is
  // worth less than what comes in its place.
  ghost predicate MayGo(p: Policy, d: Deployment) {
    && !d.isJob && d.preemptible && d.chuteId != p.chuteId
    && d.activatedAt.Some? && p.now - d.activatedAt.value > 3720
    && WorthLess(p, d.instanceId)
  }

  // The entries of a chute among the active instances.
  function Entries(active: seq<Instance>, chute: string): set<int> {
    set n | 0 <= n < |active| && active[n].chuteId == chute
  }

  // Every victim may go, and every chute that loses an instance keeps another.
  ghost predicate Allowed(p: Policy, ds: seq<Deployment>, victims: set<string>) {
    && (forall d :: d in ds && d.id in victims ==> MayGo(p, d))
    && (forall c :: Sum(ds, LostBy(victims, c)) == 0 || Sum(ds, LostBy(victims, c)) < |Entries(p.active, c)|)
  }

  // The same, as the planner reckons.
  ghost predicate InRules(p: Policy, ds: seq<Deployment>, victims: set<string>) {
    && (forall d :: d in ds && d.id in victims ==> Eligible(p, d))
    && (forall c :: Sum(ds, LostBy(victims, c)) <= Budget(p, c))
  }

  ghost predicate Makes(p: Policy, s: Server, need: nat, victims: set<string>) {
    && Allowed(p, s.deployments, victims)
    && FreeGpus(s) + Sum(s.deployments, FreedBy(victims)) >= need
  }

  ghost predicate Possible(p: Policy, s: Server, need: nat) {
    exists victims :: Makes(p, s, need, victims)
  }

  lemma {:induction false} FirstEntryCounts(active: seq<Instance>, id: Option<string>)
    ensures (forall k :: !FirstEntry(active, id, k)) ==> Multiplier(active, id) == 0.0
    ensures forall k :: FirstEntry(active, id, k) ==> Multiplier(active, id) == active[k].multiplier
  {
    if active != [] {
      var rest := active[1..];
      FirstEntryCounts(rest, id);
      if active[0].instanceId == id {
        assert FirstEntry(active, id, 0);
      } else {
        assert forall k :: FirstEntry(rest, id, k) ==> FirstEntry(active, id, k + 1);
        assert forall k :: FirstEntry(active, id, k) ==> FirstEntry(rest, id, k - 1);
      }
    }
  }

  lemma EligibleIff(p: Policy, d: Deployment)
    ensures Eligible(p, d) <==> MayGo(p, d)
  {
    FirstEntryCounts(p.active, d.instanceId);
  }

  lemma EntriesCounted(active: seq<Instance>, chute: string)
    ensures Sum(active, IsOf(chute)) == |Entries(active, chute)|
  {
    var p := (i: Instance) => i.chuteId == chute;
    SumCounts(active, p, IsOf(chute));
    assert Entries(active, chute) == Places(active, p);
  }

  /** The planner goes by the rules as they are. */
  lemma AllowedIff(p: Policy, ds: seq<Deployment>, victims: set<string>)
    ensures Allowed(p, ds, victims) <==> InRules(p, ds, victims)
  {
    forall d ensures Eligible(p, d) <==> MayGo(p, d) {
      EligibleIff(p, d);
    }
    forall c ensures GlobalCount(p, c) == |Entries(p.active, c)| {
      EntriesCounted(p.active, c);
    }
  }

  // Eligible deployments of a chute.
  function EligibleOf(p: Policy, chute: string): Deployment -> nat {
    (d: Deployment) => if d.chuteId == chute && Eligible(p, d) then 1 else 0
  }

  // The deployment is eligible, and so are fewer earlier ones of its chute than the chute can spare.
  predicate InBudget(p: Policy, ds: seq<Deployment>, i: nat)
    requires i < |ds|
  {
    Eligible(p, ds[i]) && Sum(ds[..i], EligibleOf(p, ds[i].chuteId)) < Budget(p, ds[i].chuteId)
  }

  // Within a chute, an eligible deployment beyond the budget never holds more GPUs than one within it.
  ghost predicate Dominant(p: Policy, ds: seq<Deployment>) {
    forall i, j | 0 <= i < j < |ds| && ds[i].chuteId == ds[j].chuteId ::
      InBudget(p, ds, i) && Eligible(p, ds[j]) && !InBudget(p, ds, j) ==> ds[j].gpus <= ds[i].gpus
  }

  // The same, said of what the planner takes.
  ghost predicate TakesLargest(p: Policy, ds: seq<Deployment>) {
    forall i, j | 0 <= i < j < |ds| && ds[i].chuteId == ds[j].chuteId ::
      TakenAt(p, ds, i) && Eligible(p, ds[j]) && !TakenAt(p, ds, j) ==> ds[j].gpus <= ds[i].gpus
  }

  // Of each chute the planner takes the first eligible deployments, as many as the budget allows.
  lemma {:induction false} TakesFirstEligible(p: Policy, ds: seq<Deployment>, n: nat, chute: string)
    requires n <= |ds|
    ensures Sum(Takes(p, ds, n), OfChute(chute))
         == var all := Sum(ds[..n], EligibleOf(p, chute)); if all < Budget(p, chute) then all else Budget(p, chute)
  {
    if n > 0 {
      TakesFirstEligible(p, ds, n - 1, chute);
      assert ds[..n] == ds[..n - 1] + [ds[n - 1]];
      SumSnoc(ds[..n - 1], ds[n - 1], EligibleOf(p, chute));
      if TakenAt(p, ds, n - 1) {
        SumSnoc(Takes(p, ds, n - 1), ds[n - 1], OfChute(chute));
      }
    }
  }

  /** Which deployments the planner takes can be read off the ranking without running it. */
  lemma TakenIffInBudget(p: Policy, ds: seq<Deployment>, i: nat)
    requires i < |ds|
    ensures TakenAt(p, ds, i) <==> InBudget(p, ds, i)
  {
    TakesFirstEligible(p, ds, i, ds[i].chuteId);
  }

  lemma DominantTakesLargest(p: Policy, ds: seq<Deployment>)
    ensures Dominant(p, ds) <==> TakesLargest(p, ds)
  {
    forall i | 0 <= i < |ds| ensures TakenAt(p, ds, i) <==> InBudget(p, ds, i) {
      TakenIffInBudget(p, ds, i);
    }
  }

  // ---- Safety and tightness ----

  function Ids(ds: seq<Deployment>): set<string> {
    set d | d in ds :: d.id
  }

  lemma {:induction false} TakesMembers(p: Policy, ds: seq<Deployment>, n: nat)
    requires n <= |ds|
    ensures forall d :: d in Takes(p, ds, n) ==> d in ds[..n] && Eligible(p, d)
    ensures forall c :: Sum(Takes(p, ds, n), OfChute(c)) <= Budget(p, c)
  {
    if n > 0 {
      TakesMembers(p, ds, n - 1);
      assert ds[..n] == ds[..n - 1] + [ds[n - 1]];
      forall c ensures Sum(Takes(p, ds, n), OfChute(c)) <= Budget(p, c) {
        if TakenAt(p, ds, n - 1) {
          SumSnoc(Takes(p, ds, n - 1), ds[n - 1], OfChute(c));
        }
      }
    }
  }

  lemma {:induction false} WalkStops(p: Policy, ds: seq<Deployment>, free: nat, need: nat, n: nat) returns (m: nat)
    requires n <= |ds|
    requires n > 0 ==> free + Freed(p, ds, n - 1) < need
    ensures n <= m <= |ds|
    ensures m > 0 ==> free + Freed(p, ds, m - 1) < need
    ensures Walk(p, ds, free, need, n).Some? ==>
              Walk(p, ds, free, need, n).value == Takes(p, ds, m) && free + Freed(p, ds, m) >= need
    ensures Walk(p, ds, free, need, n).None? ==> m == |ds| && free + Freed(p, ds, m) < need
    decreases |ds| - n
  {
    if free + Freed(p, ds, n) >= need || n == |ds| {
      m := n;
    } else {
      m := WalkStops(p, ds, free, need, n + 1);
    }
  }

  lemma RankedFacts(p: Policy, s: Server)
    ensures multiset(Ranked(p, s)) == multiset(s.deployments)
    ensures forall d :: d in Ranked(p, s) <==> d in s.deployments
    ensures Sorted(Ranked(p, s), LessValuable(p))
  {
    SortContents(s.deployments, LessValuable(p));
    SortSorted(s.deployments, LessValuable(p));
    forall d ensures d in Ranked(p, s) <==> d in s.deployments {
      assert d in Ranked(p, s) <==> d in multiset(Ranked(p, s));
      assert d in s.deployments <==> d in multiset(s.deployments);
    }
  }

  function OfSameChute(ds: seq<Deployment>, d: Deployment): set<int> {
    set n | 0 <= n < |ds| && ds[n].chuteId == d.chuteId
  }

  lemma SameChuteCounted(ds: seq<Deployment>, d: Deployment)
    ensures Sum(ds, OfChute(d.chuteId)) == |OfSameChute(ds, d)|
  {
    var p := (x: Deployment) => x.chuteId == d.chuteId;
    SumCounts(ds, p, OfChute(d.chuteId));
    assert OfSameChute(ds, d) == Places(ds, p);
  }

  /** A plan takes only deployments of the server that may go, leaves every chute it touches an instance,
      reaches the request, and falls short without its last victim. */
  lemma PlanSafeAndTight(p: Policy, s: Server, need: nat)
    requires PlanFor(p, s, need).Some?
    ensures var plan := PlanFor(p, s, need).value;
            && (forall d :: d in plan ==> d in s.deployments && MayGo(p, d))
            && (forall d :: d in plan ==> |OfSameChute(plan, d)| < |Entries(p.active, d.chuteId)|)
            && FreeGpus(s) + Sum(plan, GpusOf()) >= need
            && (plan != [] ==> FreeGpus(s) + Sum(plan[..|plan| - 1], GpusOf()) < need)
            && (FreeGpus(s) >= need ==> plan == [])
  {
    var ds := Ranked(p, s);
    var plan := PlanFor(p, s, need).value;
    RankedFacts(p, s);
    var m := WalkStops(p, ds, FreeGpus(s), need, 0);
    TakesMembers(p, ds, m);
    forall d | d in plan
      ensures d in s.deployments && MayGo(p, d)
      ensures |OfSameChute(plan, d)| < |Entries(p.active, d.chuteId)|
    {
      assert d in ds;
      EligibleIff(p, d);
      EntriesCounted(p.active, d.chuteId);
      SameChuteCounted(plan, d);
      CountsOne(plan, d);
    }
    if plan != [] {
      assert TakenAt(p, ds, m - 1);
      assert plan[..|plan| - 1] == Takes(p, ds, m - 1);
    }
  }

  lemma {:induction false} CountsOne(ds: seq<Deployment>, d: Deployment)
    requires d in ds
    ensures Sum(ds, OfChute(d.chuteId)) >= 1
  {
    if ds[0] != d {
      CountsOne(ds[1..], d);
    }
  }

  lemma TakeStep(p: Policy, ds: seq<Deployment>, n: nat)
    requires n < |ds| && TakenAt(p, ds, n)
    ensures Takes(p, ds, n + 1) == Takes(p, ds, n) + [ds[n]]
    ensures Freed(p, ds, n + 1) == Freed(p, ds, n) + ds[n].gpus
    ensures IdList(Takes(p, ds, n + 1)) == IdList(Takes(p, ds, n)) + [ds[n].id]
  {
    SumSnoc(Takes(p, ds, n), ds[n], GpusOf());
  }

  // ---- The exchange argument ----

  lemma {:induction false} SpareTaken(p: Policy, ds: seq<Deployment>, n: nat, victims: set<string>, c: string)
    returns (i: nat)
    requires n <= |ds|
    requires Sum(Takes(p, ds, n), OfChute(c)) > Sum(ds[..n], LostBy(victims, c))
    ensures i < n && TakenAt(p, ds, i) && ds[i].chuteId == c && ds[i].id !in victims
  {
    assert n > 0;
    var last := ds[n - 1];
    assert ds[..n] == ds[..n - 1] + [last];
    SumSnoc(ds[..n - 1], last, LostBy(victims, c));
    if TakenAt(p, ds, n - 1) {
      SumSnoc(Takes(p, ds, n - 1), last, OfChute(c));
      if last.chuteId == c && last.id !in victims {
        return n - 1;
      }
    }
    i := SpareTaken(p, ds, n - 1, victims, c);
  }

  lemma {:induction false} SumsAgree(ds: seq<Deployment>, f: Deployment -> nat, g: Deployment -> nat)
    requires forall d :: d in ds ==> f(d) == g(d)
    ensures Sum(ds, f) == Sum(ds, g)
  {
    if ds != [] {
      assert ds[0] in ds;
      SumsAgree(ds[1..], f, g);
    }
  }

  // Changing one member's value changes the sum by the difference.
  lemma {:induction false} SumPoint(ds: seq<Deployment>, i: nat, f: Deployment -> nat, g: Deployment -> nat)
    requires i < |ds| && DistinctIds(ds)
    requires forall d :: d in ds && d.id != ds[i].id ==> f(d) == g(d)
    ensures Sum(ds, f) + g(ds[i]) == Sum(ds, g) + f(ds[i])
  {
    var rest := ds[1..];
    if i == 0 {
      forall d | d in rest ensures f(d) == g(d) {
        var k :| 0 <= k < |rest| && rest[k] == d;
        assert ds[k + 1] == d;
      }
      SumsAgree(rest, f, g);
    } else {
      assert rest[i - 1] == ds[i] && ds[0].id != ds[i].id;
      SumPoint(rest, i - 1, f, g);
    }
  }

  /** Among the first `n` deployments no allowed set of victims frees more GPUs than the planner takes. */
  lemma {:induction false} GreedyIsBest(p: Policy, ds: seq<Deployment>, n: nat, victims: set<string>)
    requires n <= |ds| && DistinctIds(ds) && TakesLargest(p, ds)
    requires InRules(p, ds[..n], victims)
    ensures Sum(ds[..n], FreedBy(victims)) <= Freed(p, ds, n)
  {
    if n > 0 {
      var init, d := ds[..n - 1], ds[n - 1];
      assert ds[..n] == init + [d];
      SumSnoc(init, d, FreedBy(victims));
      forall c ensures Sum(ds[..n], LostBy(victims, c)) == Sum(init, LostBy(victims, c)) + LostBy(victims, c)(d) {
        SumSnoc(init, d, LostBy(victims, c));
      }
      assert InRules(p, init, victims);
      if TakenAt(p, ds, n - 1) {
        GreedyIsBest(p, ds, n - 1, victims);
        SumSnoc(Takes(p, ds, n - 1), d, GpusOf());
      } else if d.id !in victims {
        GreedyIsBest(p, ds, n - 1, victims);
      } else {
        assert d in ds[..n] && Eligible(p, d);
        var c := d.chuteId;
        assert Sum(ds[..n], LostBy(victims, c)) <= Budget(p, c);
        var i := SpareTaken(p, ds, n - 1, victims, c);
        Exchange(p, ds, n, victims, i);
        GreedyIsBest(p, ds, n - 1, victims - {d.id} + {ds[i].id});
      }
    }
  }

  // Trading a victim for another deployment: what is freed, and what each chute loses.
  lemma SwapFreed(ds: seq<Deployment>, victims: set<string>, i: nat, j: nat)
    requires i < |ds| && j < |ds| && DistinctIds(ds)
    requires ds[i].id in victims && ds[j].id !in victims
    ensures var swapped := victims - {ds[i].id} + {ds[j].id};
            Sum(ds, FreedBy(swapped)) + ds[i].gpus == Sum(ds, FreedBy(victims)) + ds[j].gpus
  {
    var less := victims - {ds[i].id};
    SumPoint(ds, i, FreedBy(victims), FreedBy(less));
    SumPoint(ds, j, FreedBy(less), FreedBy(less + {ds[j].id}));
  }

  lemma SwapLost(ds: seq<Deployment>, victims: set<string>, i: nat, j: nat, c: string)
    requires i < |ds| && j < |ds| && DistinctIds(ds) && ds[i].chuteId == ds[j].chuteId
    requires ds[i].id in victims && ds[j].id !in victims
    ensures var swapped := victims - {ds[i].id} + {ds[j].id};
            Sum(ds, LostBy(swapped, c)) == Sum(ds, LostBy(victims, c))
  {
    var less := victims - {ds[i].id};
    SumPoint(ds, i, LostBy(victims, c), LostBy(less, c));
    SumPoint(ds, j, LostBy(less, c), LostBy(less + {ds[j].id}, c));
  }

  // Trading the last victim for a taken deployment of its chute keeps the rules and loses no GPU.
  lemma Exchange(p: Policy, ds: seq<Deployment>, n: nat, victims: set<string>, i: nat)
    requires i < n - 1 < |ds| && DistinctIds(ds) && TakesLargest(p, ds)
    requires InRules(p, ds[..n], victims)
    requires ds[n - 1].id in victims && !TakenAt(p, ds, n - 1)
    requires TakenAt(p, ds, i) && ds[i].chuteId == ds[n - 1].chuteId && ds[i].id !in victims
    ensures var swapped := victims - {ds[n - 1].id} + {ds[i].id};
            && InRules(p, ds[..n - 1], swapped)
            && Sum(ds[..n], FreedBy(victims)) <= Sum(ds[..n - 1], FreedBy(swapped))
  {
    var init, d := ds[..n - 1], ds[n - 1];
    assert ds[..n] == init + [d] && init[i] == ds[i];
    assert d in ds[..n] && Eligible(p, d);
    forall k | 0 <= k < |init| ensures init[k].id != d.id {
      assert init[k] == ds[k];
    }
    ExchangeLast(p, init, d, victims, i);
  }

  lemma ExchangeLast(p: Policy, init: seq<Deployment>, d: Deployment, victims: set<string>, i: nat)
    requires DistinctIds(init) && forall k :: 0 <= k < |init| ==> init[k].id != d.id
    requires i < |init| && InRules(p, init + [d], victims)
    requires d.id in victims && init[i].id !in victims && init[i].chuteId == d.chuteId
    requires Eligible(p, init[i]) && d.gpus <= init[i].gpus
    ensures var swapped := victims - {d.id} + {init[i].id};
            && InRules(p, init, swapped)
            && Sum(init + [d], FreedBy(victims)) <= Sum(init, FreedBy(swapped))
  {
    var swapped := victims - {d.id} + {init[i].id};
    ExchangeFreed(init, d, victims, i);
    forall c ensures Sum(init, LostBy(swapped, c)) <= Budget(p, c) {
      ExchangeLost(init, d, victims, i, c);
      assert Sum(init + [d], LostBy(victims, c)) <= Budget(p, c);
    }
    forall x | x in init && x.id in swapped ensures Eligible(p, x) {
      var k :| 0 <= k < |init| && init[k] == x;
      assert k != i ==> x.id in victims && x in init + [d];
    }
  }

  // The exchange concerns nobody else.
  lemma KeptApart(init: seq<Deployment>, d: Deployment, victims: set<string>, i: nat)
    requires i < |init| && forall k :: 0 <= k < |init| ==> init[k].id != d.id
    ensures forall x :: x in init && x.id != init[i].id ==>
              (x.id in victims <==> x.id in victims - {d.id} + {init[i].id})
  {
  }

  lemma ExchangeFreed(init: seq<Deployment>, d: Deployment, victims: set<string>, i: nat)
    requires DistinctIds(init) && forall k :: 0 <= k < |init| ==> init[k].id != d.id
    requires i < |init| && d.id in victims && init[i].id !in victims && d.gpus <= init[i].gpus
    ensures Sum(init + [d], FreedBy(victims)) <= Sum(init, FreedBy(victims - {d.id} + {init[i].id}))
  {
    var after := victims - {d.id} + {init[i].id};
    KeptApart(init, d, victims, i);
    SumSnoc(init, d, FreedBy(victims));
    SumPoint(init, i, FreedBy(victims), FreedBy(after));
  }

  lemma ExchangeLost(init: seq<Deployment>, d: Deployment, victims: set<string>, i: nat, c: string)
    requires DistinctIds(init) && forall k :: 0 <= k < |init| ==> init[k].id != d.id
    requires i < |init| && d.id in victims && init[i].id !in victims && init[i].chuteId == d.chuteId
    ensures Sum(init, LostBy(victims - {d.id} + {init[i].id}, c)) == Sum(init + [d], LostBy(victims, c))
  {
    var after := victims - {d.id} + {init[i].id};
    KeptApart(init, d, victims, i);
    SumSnoc(init, d, LostBy(victims, c));
    SumPoint(init, i, LostBy(victims, c), LostBy(after, c));
  }

  lemma SwapAllowed(p: Policy, ds: seq<Deployment>, j: nat, victims: set<string>, i: nat)
    requires i < |ds| && j < |ds| && DistinctIds(ds) && InRules(p, ds, victims)
    requires ds[j].id in victims && ds[i].id !in victims && ds[i].chuteId == ds[j].chuteId && Eligible(p, ds[i])
    ensures InRules(p, ds, victims - {ds[j].id} + {ds[i].id})
  {
    var swapped := victims - {ds[j].id} + {ds[i].id};
    forall c ensures Sum(ds, LostBy(swapped, c)) <= Budget(p, c) {
      SwapLost(ds, victims, j, i, c);
      assert Sum(ds, LostBy(victims, c)) <= Budget(p, c);
    }
    forall x | x in ds && x.id in swapped ensures Eligible(p, x) {
      var k :| 0 <= k < |ds| && ds[k] == x;
      assert k != i ==> x.id in victims;
    }
  }

  // A sum over all deployments that ignores those after the first `m`.
  lemma SumPrefix(ds: seq<Deployment>, m: nat, f: Deployment -> nat)
    requires m <= |ds| && forall d :: d in ds[m..] ==> f(d) == 0
    ensures Sum(ds, f) == Sum(ds[..m], f)
  {
    assert ds == ds[..m] + ds[m..];
    SumAppend(ds[..m], ds[m..], f);
    SumsAgree(ds[m..], f, FreedBy({}));
    NothingFreed(ds[m..]);
  }

  lemma {:induction false} NothingFreed(ds: seq<Deployment>)
    ensures Sum(ds, FreedBy({})) == 0
  {
    if ds != [] {
      NothingFreed(ds[1..]);
    }
  }

  lemma RestrictPlan(p: Policy, ds: seq<Deployment>, k: nat, victims: set<string>)
    requires k <= |ds| && InRules(p, ds, victims)
    requires forall d :: d in ds[k..] ==> d.id !in victims
    ensures InRules(p, ds[..k], victims)
    ensures Sum(ds[..k], FreedBy(victims)) == Sum(ds, FreedBy(victims))
  {
    SumPrefix(ds, k, FreedBy(victims));
    forall c ensures Sum(ds[..k], LostBy(victims, c)) <= Budget(p, c) {
      SumPrefix(ds, k, LostBy(victims, c));
      assert Sum(ds, LostBy(victims, c)) <= Budget(p, c);
    }
  }

  // ---- Completeness ----

  lemma DistinctRanked(p: Policy, s: Server)
    requires DistinctIds(s.deployments)
    ensures DistinctIds(Ranked(p, s))
  {
    SortKeepsDistinct(s.deployments, LessValuable(p));
  }

  lemma {:induction false} SortKeepsDistinct(ds: seq<Deployment>, le: (Deployment, Deployment) -> bool)
    requires DistinctIds(ds)
    ensures DistinctIds(Sort(ds, le))
  {
    if ds != [] {
      SortKeepsDistinct(ds[1..], le);
      SortContents(ds[1..], le);
      var t := Sort(ds[1..], le);
      forall k | 0 <= k < |t| ensures t[k].id != ds[0].id {
        assert t[k] in multiset(t);
        assert t[k] in multiset(ds[1..]);
      }
      InsertKeepsDistinct(ds[0], t, le);
    }
  }

  lemma {:induction false} InsertKeepsDistinct(x: Deployment, ds: seq<Deployment>, le: (Deployment, Deployment) -> bool)
    requires DistinctIds(ds) && forall k :: 0 <= k < |ds| ==> ds[k].id != x.id
    ensures DistinctIds(Insert(x, ds, le))
  {
    if ds != [] && !le(x, ds[0]) {
      InsertKeepsDistinct(x, ds[1..], le);
      InsertContents(x, ds[1..], le);
      var t := Insert(x, ds[1..], le);
      forall k | 0 <= k < |t| ensures t[k].id != ds[0].id {
        assert t[k] in multiset(t);
        if t[k] != x {
          assert t[k] in multiset(ds[1..]);
        }
      }
    }
  }

  // Plans may be read off the ranked list or the server's own list alike.
  lemma AllowedRanked(p: Policy, s: Server, victims: set<string>)
    ensures InRules(p, s.deployments, victims) <==> InRules(p, Ranked(p, s), victims)
    ensures Sum(Ranked(p, s), FreedBy(victims)) == Sum(s.deployments, FreedBy(victims))
  {
    RankedFacts(p, s);
    SumSort(s.deployments, LessValuable(p), FreedBy(victims));
    forall c ensures Sum(Ranked(p, s), LostBy(victims, c)) == Sum(s.deployments, LostBy(victims, c)) {
      SumSort(s.deployments, LessValuable(p), LostBy(victims, c));
    }
  }

  lemma SnocCounts(ds: seq<Deployment>, d: Deployment)
    ensures forall c :: Sum(ds + [d], OfChute(c)) == Sum(ds, OfChute(c)) + OfChute(c)(d)
  {
    forall c {
      SumSnoc(ds, d, OfChute(c));
    }
  }

  // Adding one deployment to a list, and to the victims when it is taken.
  lemma SnocVictim(init: seq<Deployment>, d: Deployment, victims: set<string>, taken: bool)
    requires d.id !in victims && forall x :: x in init ==> x.id != d.id
    ensures var after := if taken then victims + {d.id} else victims;
            && Sum(init + [d], FreedBy(after)) == Sum(init, FreedBy(victims)) + (if taken then d.gpus else 0)
            && forall c :: Sum(init + [d], LostBy(after, c))
                        == Sum(init, LostBy(victims, c)) + (if taken then OfChute(c)(d) else 0)
  {
    var after := if taken then victims + {d.id} else victims;
    SumsAgree(init, FreedBy(victims), FreedBy(after));
    SumSnoc(init, d, FreedBy(after));
    forall c
      ensures Sum(init + [d], LostBy(after, c)) == Sum(init, LostBy(victims, c)) + (if taken then OfChute(c)(d) else 0)
    {
      SumsAgree(init, LostBy(victims, c), LostBy(after, c));
      SumSnoc(init, d, LostBy(after, c));
    }
  }

  lemma IdsSnoc(ds: seq<Deployment>, d: Deployment)
    ensures Ids(ds + [d]) == Ids(ds) + {d.id}
  {
    assert forall x :: x in ds + [d] <==> x in ds || x == d;
  }

  // The ids taken among the first `n`, one more deployment at a time; ids of later deployments are not among them.
  lemma IdsTaken(p: Policy, ds: seq<Deployment>, n: nat)
    requires 0 < n <= |ds| && DistinctIds(ds)
    ensures Ids(Takes(p, ds, n)) == Ids(Takes(p, ds, n - 1)) + if TakenAt(p, ds, n - 1) then {ds[n - 1].id} else {}
    ensures ds[n - 1].id !in Ids(Takes(p, ds, n - 1))
  {
    if TakenAt(p, ds, n - 1) {
      IdsSnoc(Takes(p, ds, n - 1), ds[n - 1]);
    }
    TakesMembers(p, ds, n - 1);
    forall x | x in Takes(p, ds, n - 1) ensures x.id != ds[n - 1].id {
      var k :| 0 <= k < n - 1 && ds[..n - 1][k] == x;
      assert ds[k] == x;
    }
  }

  lemma {:induction false} TakenByIndex(p: Policy, ds: seq<Deployment>, n: nat, i: nat)
    requires i < n <= |ds| && DistinctIds(ds)
    ensures ds[i].id in Ids(Takes(p, ds, n)) <==> TakenAt(p, ds, i)
    decreases n
  {
    IdsTaken(p, ds, n);
    if i < n - 1 {
      TakenByIndex(p, ds, n - 1, i);
    }
  }

  // The taken deployments, read as a set of ids, free and cost exactly what the list says.
  lemma {:induction false} TakesAsSet(p: Policy, ds: seq<Deployment>, n: nat)
    requires n <= |ds| && DistinctIds(ds)
    ensures Sum(ds[..n], FreedBy(Ids(Takes(p, ds, n)))) == Freed(p, ds, n)
    ensures forall c :: Sum(ds[..n], LostBy(Ids(Takes(p, ds, n)), c)) == Sum(Takes(p, ds, n), OfChute(c))
  {
    if n > 0 {
      var init, d := ds[..n - 1], ds[n - 1];
      var before, taken := Ids(Takes(p, ds, n - 1)), TakenAt(p, ds, n - 1);
      TakesAsSet(p, ds, n - 1);
      IdsTaken(p, ds, n);
      assert ds[..n] == init + [d];
      forall x | x in init ensures x.id != d.id {
        var k :| 0 <= k < |init| && init[k] == x;
      }
      SnocVictim(init, d, before, taken);
      if taken {
        TakeStep(p, ds, n - 1);
        SnocCounts(Takes(p, ds, n - 1), d);
      }
    }
  }

  // A plan the planner finds is one of the possible plans.
  lemma PlanMakes(p: Policy, s: Server, need: nat)
    requires DistinctIds(s.deployments) && PlanFor(p, s, need).Some?
    ensures Makes(p, s, need, Ids(PlanFor(p, s, need).value))
  {
    var ds := Ranked(p, s);
    var victims := Ids(PlanFor(p, s, need).value);
    DistinctRanked(p, s);
    RankedFacts(p, s);
    var m := WalkStops(p, ds, FreeGpus(s), need, 0);
    TakesMembers(p, ds, m);
    PrefixSums(p, ds, m);
    AllowedRanked(p, s, victims);
    AllowedIff(p, s.deployments, victims);
  }

  // Deployments after the first `m` are not among those taken there.
  lemma NoneTakenAfter(p: Policy, ds: seq<Deployment>, m: nat, d: Deployment)
    requires m <= |ds| && DistinctIds(ds) && d in ds[m..]
    ensures d.id !in Ids(Takes(p, ds, m))
  {
    TakesMembers(p, ds, m);
    var j :| m <= j < |ds| && ds[j] == d;
    forall t | t in Takes(p, ds, m) ensures t.id != d.id {
      var i :| 0 <= i < m && ds[..m][i] == t;
    }
  }

  lemma TakenIndex(p: Policy, ds: seq<Deployment>, m: nat, i: nat)
    requires m <= |ds| && i < |ds| && DistinctIds(ds)
    ensures ds[i].id in Ids(Takes(p, ds, m)) <==> i < m && TakenAt(p, ds, i)
  {
    if i < m {
      TakenByIndex(p, ds, m, i);
    } else {
      assert ds[m..][i - m] == ds[i];
      NoneTakenAfter(p, ds, m, ds[i]);
    }
  }

  lemma PrefixSums(p: Policy, ds: seq<Deployment>, m: nat)
    requires m <= |ds| && DistinctIds(ds)
    ensures forall d :: d in ds && d.id in Ids(Takes(p, ds, m)) ==> Eligible(p, d)
    ensures forall c :: Sum(ds, LostBy(Ids(Takes(p, ds, m)), c)) <= Budget(p, c)
    ensures Sum(ds, FreedBy(Ids(Takes(p, ds, m)))) == Freed(p, ds, m)
  {
    var victims := Ids(Takes(p, ds, m));
    TakesAsSet(p, ds, m);
    TakesMembers(p, ds, m);
    forall d | d in ds[m..] ensures d.id !in victims {
      NoneTakenAfter(p, ds, m, d);
    }
    SumPrefix(ds, m, FreedBy(victims));
    forall c ensures Sum(ds, LostBy(victims, c)) <= Budget(p, c) {
      SumPrefix(ds, m, LostBy(victims, c));
    }
    forall d | d in ds && d.id in victims ensures Eligible(p, d) {
      var i :| 0 <= i < |ds| && ds[i] == d;
      TakenIndex(p, ds, m, i);
    }
  }

  lemma DominantPlans(p: Policy, s: Server, need: nat)
    requires DistinctIds(s.deployments) && TakesLargest(p, Ranked(p, s)) && Possible(p, s, need)
    ensures PlanFor(p, s, need).Some?
  {
    var ds := Ranked(p, s);
    var victims :| Makes(p, s, need, victims);
    AllowedIff(p, s.deployments, victims);
    DistinctRanked(p, s);
    AllowedRanked(p, s, victims);
    assert ds[..|ds|] == ds;
    GreedyIsBest(p, ds, |ds|, victims);
    var m := WalkStops(p, ds, FreeGpus(s), need, 0);
  }

  // Swapping a taken deployment for a larger one of its chute that was passed over.
  lemma Improve(p: Policy, ds: seq<Deployment>, i: nat, j: nat) returns (better: set<string>)
    requires DistinctIds(ds) && i < j < |ds|
    requires TakenAt(p, ds, i) && Eligible(p, ds[j]) && !TakenAt(p, ds, j) && ds[i].chuteId == ds[j].chuteId
    ensures InRules(p, ds, better)
    ensures Sum(ds, FreedBy(better)) + ds[i].gpus == Freed(p, ds, |ds|) + ds[j].gpus
  {
    var taken := Ids(Takes(p, ds, |ds|));
    better := taken - {ds[i].id} + {ds[j].id};
    PrefixSums(p, ds, |ds|);
    TakenIndex(p, ds, |ds|, i);
    TakenIndex(p, ds, |ds|, j);
    SwapFreed(ds, taken, i, j);
    SwapAllowed(p, ds, i, taken, j);
  }

  // A pair that breaks dominance gives a request the planner misses.
  lemma MissedRequest(p: Policy, s: Server, i: nat, j: nat) returns (need: nat)
    requires DistinctIds(s.deployments)
    requires i < j < |Ranked(p, s)|
    requires TakenAt(p, Ranked(p, s), i) && Eligible(p, Ranked(p, s)[j]) && !TakenAt(p, Ranked(p, s), j)
    requires Ranked(p, s)[i].chuteId == Ranked(p, s)[j].chuteId
    requires Ranked(p, s)[j].gpus > Ranked(p, s)[i].gpus
    ensures PlanFor(p, s, need).None? && Possible(p, s, need)
  {
    var ds := Ranked(p, s);
    DistinctRanked(p, s);
    var better := Improve(p, ds, i, j);
    AllowedRanked(p, s, better);
    AllowedIff(p, s.deployments, better);
    need := FreeGpus(s) + Freed(p, ds, |ds|) + 1;
    assert Makes(p, s, need, better);
    var m := WalkStops(p, ds, FreeGpus(s), need, 0);
    TakesGrow(p, ds, m, |ds|);
  }

  lemma {:induction false} TakesGrow(p: Policy, ds: seq<Deployment>, m: nat, n: nat)
    requires m <= n <= |ds|
    ensures Takes(p, ds, m) <= Takes(p, ds, n)
    ensures Freed(p, ds, m) <= Freed(p, ds, n)
  {
    if m < n {
      TakesGrow(p, ds, m, n - 1);
      if TakenAt(p, ds, n - 1) {
        SumSnoc(Takes(p, ds, n - 1), ds[n - 1], GpusOf());
      }
    }
  }

  /** The planner finds a plan on a server for every request some allowed set of victims can meet
      exactly when dominance holds there. */
  lemma CompleteIffDominant(p: Policy, s: Server)
    requires DistinctIds(s.deployments)
    ensures (forall need: nat :: PlanFor(p, s, need).Some? <==> Possible(p, s, need)) <==> Dominant(p, Ranked(p, s))
  {
    DominantTakesLargest(p, Ranked(p, s));
    forall need: nat | PlanFor(p, s, need).Some? ensures Possible(p, s, need) {
      PlanMakes(p, s, need);
    }
    if TakesLargest(p, Ranked(p, s)) {
      forall need: nat | Possible(p, s, need) ensures PlanFor(p, s, need).Some? {
        DominantPlans(p, s, need);
      }
    } else {
      var ds := Ranked(p, s);
      var i, j :| 0 <= i < j < |ds| && TakenAt(p, ds, i) && Eligible(p, ds[j]) && !TakenAt(p, ds, j)
                  && ds[i].chuteId == ds[j].chuteId && !(ds[j].gpus <= ds[i].gpus);
      var need := MissedRequest(p, s, i, j);
    }
  }

  /** Deployments of one chute holding equally many GPUs are enough for completeness. */
  lemma EqualHoldingsComplete(p: Policy, s: Server, need: nat)
    requires DistinctIds(s.deployments)
    requires forall a, b :: a in s.deployments && b in s.deployments && a.chuteId == b.chuteId ==> a.gpus == b.gpus
    ensures PlanFor(p, s, need).Some? <==> Possible(p, s, need)
  {
    RankedFacts(p, s);
    var ds := Ranked(p, s);
    assert Dominant(p, ds) by {
      forall i, j | 0 <= i < j < |ds| && ds[i].chuteId == ds[j].chuteId ensures ds[j].gpus <= ds[i].gpus {
        assert ds[i] in ds && ds[j] in ds;
      }
    }
    CompleteIffDominant(p, s);
  }

  /** The most valuable deployment the planner evicts is no more valuable than the most valuable
      one of any other plan for the same request. */
  lemma BottleneckOptimal(p: Policy, s: Server, need: nat, victims: set<string>, cap: real, d: Deployment)
    requires DistinctIds(s.deployments) && Dominant(p, Ranked(p, s))
    requires Makes(p, s, need, victims)
    requires forall v :: v in s.deployments && v.id in victims ==> ValueOf(p, v) <= cap
    requires PlanFor(p, s, need).Some? && d in PlanFor(p, s, need).value
    ensures ValueOf(p, d) <= cap
  {
    RankedFacts(p, s);
    DistinctRanked(p, s);
    AllowedIff(p, s.deployments, victims);
    AllowedRanked(p, s, victims);
    DominantTakesLargest(p, Ranked(p, s));
    StopsByCap(p, Ranked(p, s), FreeGpus(s), need, victims, cap, d);
  }

  // The planner stops within any prefix of the ranking that some allowed set of victims makes do with.
  lemma StopsWithin(p: Policy, ds: seq<Deployment>, free: nat, need: nat, victims: set<string>, k: nat)
    returns (m: nat)
    requires DistinctIds(ds) && TakesLargest(p, ds) && k <= |ds| && InRules(p, ds[..k], victims)
    requires free + Sum(ds[..k], FreedBy(victims)) >= need
    requires Walk(p, ds, free, need, 0).Some?
    ensures m <= k && Walk(p, ds, free, need, 0).value == Takes(p, ds, m)
  {
    GreedyIsBest(p, ds, k, victims);
    m := WalkStops(p, ds, free, need, 0);
    if m > k {
      TakesGrow(p, ds, k, m - 1);
    }
  }

  lemma StopsByCap(p: Policy, ds: seq<Deployment>, free: nat, need: nat, victims: set<string>, cap: real, d: Deployment)
    requires DistinctIds(ds) && TakesLargest(p, ds) && Sorted(ds, LessValuable(p)) && InRules(p, ds, victims)
    requires free + Sum(ds, FreedBy(victims)) >= need
    requires forall v :: v in ds && v.id in victims ==> ValueOf(p, v) <= cap
    requires Walk(p, ds, free, need, 0).Some? && d in Walk(p, ds, free, need, 0).value
    ensures ValueOf(p, d) <= cap
  {
    var k := CapPrefix(p, ds, cap, |ds|);
    assert ds[k..|ds|] == ds[k..];
    RestrictPlan(p, ds, k, victims);
    var m := StopsWithin(p, ds, free, need, victims, k);
    TakesMembers(p, ds, m);
    var i :| 0 <= i < m && ds[i] == d;
    assert ds[..k][i] == d;
  }

  // The deployments worth at most `cap` come first in the ranking.
  lemma {:induction false} CapPrefix(p: Policy, ds: seq<Deployment>, cap: real, n: nat) returns (k: nat)
    requires n <= |ds| && Sorted(ds, LessValuable(p))
    ensures k <= n
    ensures forall d :: d in ds[..k] ==> ValueOf(p, d) <= cap
    ensures forall d :: d in ds[k..n] ==> ValueOf(p, d) > cap
  {
    if n == 0 {
      k := 0;
    } else {
      k := CapPrefix(p, ds, cap, n - 1);
      if ValueOf(p, ds[n - 1]) <= cap {
        assert k < n - 1 ==> ds[k..n - 1][n - 2 - k] == ds[n - 2];
        assert ds[..n] == ds[..k] + [ds[n - 1]];
        k := n;
      } else {
        assert ds[k..n] == ds[k..n - 1] + [ds[n - 1]];
      }
    }
  }

  /** With unequal holdings the planner can miss a plan: the cheaper one-GPU instance of a chute uses up
      its budget, and the four-GPU instance that alone would make room is passed over. */
  lemma UnequalHoldingsMissPlan()
    ensures exists p: Policy, s: Server, need: nat ::
              DistinctIds(s.deployments) && PlanFor(p, s, need).None? && Possible(p, s, need)
  {
    var small := Deployment("small", "a", Some("i1"), false, true, Some(0), 1);
    var big := Deployment("big", "a", Some("i2"), false, true, Some(0), 4);
    var held := Gpu(Some("big"), true);
    var s := Server("n", true, [Gpu(Some("small"), true), held, held, held, held], [small, big]);
    var ds := Ranked(TWO_LIVE, s);
    TwoRanked(s, small, big);
    OnlyFirstTaken(ds);
    var need := MissedRequest(TWO_LIVE, s, 0, 1);
  }

  lemma {:induction false} OnlyFirstTaken(ds: seq<Deployment>)
    requires |ds| == 2 && ds[0].chuteId == ds[1].chuteId == "a" && Eligible(TWO_LIVE, ds[0])
    ensures TakenAt(TWO_LIVE, ds, 0) && !TakenAt(TWO_LIVE, ds, 1)
  {
    assert GlobalCount(TWO_LIVE, "a") == 2 by {
      assert TWO_LIVE.active[1..] == [Instance(Some("i2"), "a", 2.0)];
    }
    assert TakenAt(TWO_LIVE, ds, 0);
    assert Takes(TWO_LIVE, ds, 1) == [ds[0]];
    assert Sum([ds[0]], OfChute("a")) == 1;
  }

  lemma TwoRanked(s: Server, cheap: Deployment, dear: Deployment)
    requires s.deployments == [cheap, dear] && ValueOf(TWO_LIVE, cheap) <= ValueOf(TWO_LIVE, dear)
    ensures Ranked(TWO_LIVE, s) == [cheap, dear]
  {
    assert s.deployments[1..] == [dear];
    assert Sort([dear], LessValuable(TWO_LIVE)) == [dear];
  }

  // ---- Choosing the server ----

  ghost predicate Chosen(p: Policy, servers: seq<Server>, need: nat, i: nat, victims: seq<string>) {
    && i < |servers|
    && servers[i].diskOk
    && PlanFor(p, servers[i], need).Some?
    && victims == IdList(PlanFor(p, servers[i], need).value)
    && (forall j :: 0 <= j < i && servers[j].diskOk ==> PlanFor(p, servers[j], need).None?)
  }

  function AtLeast(m: map<string, nat>, key: string): nat {
    if key in m then m[key] else 0
  }

  method CountGlobalInstances(active: seq<Instance>) returns (counts: map<string, nat>)
    ensures forall c :: AtLeast(counts, c) == |Entries(active, c)|
  {
    counts := map[];
    for n := 0 to |active|
      invariant forall c :: AtLeast(counts, c) == Sum(active[..n], IsOf(c))
    {
      var cid := active[n].chuteId;
      assert active[..n + 1] == active[..n] + [active[n]];
      forall c {
        SumSnoc(active[..n], active[n], IsOf(c));
      }
      counts := counts[cid := AtLeast(counts, cid) + 1];
    }
    assert active[..|active|] == active;
    forall c {
      EntriesCounted(active, c);
    }
  }

  method CountFree(gpus: seq<Gpu>) returns (free: nat)
    ensures free == Sum(gpus, IsFree())
  {
    free := 0;
    for n := 0 to |gpus|
      invariant free == Sum(gpus[..n], IsFree())
    {
      assert gpus[..n + 1] == gpus[..n] + [gpus[n]];
      SumSnoc(gpus[..n], gpus[n], IsFree());
      if gpus[n].owner.None? {
        free := free + 1;
      }
    }
    assert gpus[..|gpus|] == gpus;
  }

  // The running counts are the global ones less what was taken.
  ghost predicate Remaining(p: Policy, proposed: map<string, nat>, taken: seq<Deployment>) {
    forall c :: AtLeast(proposed, c) == GlobalCount(p, c) - Sum(taken, OfChute(c))
  }

  lemma RemainingStep(p: Policy, proposed: map<string, nat>, taken: seq<Deployment>, d: Deployment)
    requires Remaining(p, proposed, taken) && AtLeast(proposed, d.chuteId) > 1
    ensures Remaining(p, proposed[d.chuteId := AtLeast(proposed, d.chuteId) - 1], taken + [d])
  {
    SnocCounts(taken, d);
  }

  // The checks made on one deployment, in the source's order.
  method IsPassedOver(p: Policy, d: Deployment, proposed: map<string, nat>) returns (skip: bool)
    ensures skip <==> !MayGo(p, d) || AtLeast(proposed, d.chuteId) <= 1
  {
    EligibleIff(p, d);
    if d.isJob || !d.preemptible || d.activatedAt.None? || d.chuteId == p.chuteId {
      return true;
    }
    if p.now - d.activatedAt.value <= MIN_ACTIVE_SECONDS {
      return true;
    }
    if Multiplier(p.active, d.instanceId) >= p.effective {
      return true;
    }
    return AtLeast(proposed, d.chuteId) <= 1;
  }

  lemma PassedOverIff(p: Policy, proposed: map<string, nat>, ds: seq<Deployment>, n: nat)
    requires n < |ds| && Remaining(p, proposed, Takes(p, ds, n))
    ensures TakenAt(p, ds, n) <==> MayGo(p, ds[n]) && AtLeast(proposed, ds[n].chuteId) > 1
  {
    EligibleIff(p, ds[n]);
  }

  /** One server: walk its deployments, least valuable first, keeping running counts. */
  method ProposeVictims(p: Policy, ds: seq<Deployment>, counts: map<string, nat>, need: nat, free: nat)
    returns (plan: Option<seq<string>>)
    requires Remaining(p, counts, []) && free < need
    ensures plan.Some? <==> Walk(p, ds, free, need, 0).Some?
    ensures plan.Some? ==> plan.value == IdList(Walk(p, ds, free, need, 0).value)
  {
    var proposed: map<string, nat> := counts;
    var available := free;
    var toDelete: seq<string> := [];
    ghost var target := Walk(p, ds, free, need, 0);
    var n := 0;
    while n < |ds|
      invariant 0 <= n <= |ds|
      invariant toDelete == IdList(Takes(p, ds, n))
      invariant available == free + Freed(p, ds, n) < need
      invariant Remaining(p, proposed, Takes(p, ds, n))
      invariant target == Walk(p, ds, free, need, n)
    {
      var skip := IsPassedOver(p, ds[n], proposed);
      PassedOverIff(p, proposed, ds, n);
      if !skip {
        TakeStep(p, ds, n);
        RemainingStep(p, proposed, Takes(p, ds, n), ds[n]);
        toDelete := toDelete + [ds[n].id];
        available := available + ds[n].gpus;
        proposed := proposed[ds[n].chuteId := AtLeast(proposed, ds[n].chuteId) - 1];
        if available >= need {
          return Some(toDelete);
        }
      }
      n := n + 1;
    }
    return None;
  }

  /** The first server in order, among those with disk room, where the request can be met. */
  method ChooseServer(p: Policy, servers: seq<Server>, need: nat) returns (target: Option<nat>, victims: seq<string>)
    ensures target.Some? ==> Chosen(p, servers, need, target.value, victims)
    ensures target.None? ==> forall j :: 0 <= j < |servers| && servers[j].diskOk ==> PlanFor(p, servers[j], need).None?
  {
    var counts := CountGlobalInstances(p.active);
    forall c {
      EntriesCounted(p.active, c);
    }
    victims := [];
    for i := 0 to |servers|
      invariant forall j :: 0 <= j < i && servers[j].diskOk ==> PlanFor(p, servers[j], need).None?
    {
      if servers[i].diskOk {
        var free := CountFree(servers[i].gpus);
        if free >= need {
          return Some(i), [];
        }
        var ranked := Sort(servers[i].deployments, LessValuable(p));
        var plan := ProposeVictims(p, ranked, counts, need, free);
        if plan.Some? {
          return Some(i), plan.value;
        }
      }
    }
    return None, [];
  }

  /** Where dominance holds, the chosen server is the first in order, among those with disk room, on which any allowed
      set of victims makes room; with none chosen there is no such server. */
  lemma FirstPossibleServer(p: Policy, servers: seq<Server>, need: nat, target: Option<nat>, victims: seq<string>)
    requires forall s :: s in servers ==> DistinctIds(s.deployments) && Dominant(p, Ranked(p, s))
    requires target.Some? ==> Chosen(p, servers, need, target.value, victims)
    requires target.None? ==> forall j :: 0 <= j < |servers| && servers[j].diskOk ==> PlanFor(p, servers[j], need).None?
    ensures target.Some? ==> servers[target.value].diskOk && Possible(p, servers[target.value], need)
    ensures forall j :: 0 <= j < target.GetOr(|servers|) && servers[j].diskOk ==> !Possible(p, servers[j], need)
  {
    forall s | s in servers ensures PlanFor(p, s, need).Some? <==> Possible(p, s, need) {
      CompleteIffDominant(p, s);
    }
  }

  // ---- Deploying on what a plan opens ----

  function IsOwnedBy(id: string): Gpu -> nat {
    (g: Gpu) => if g.owner == Some(id) then 1 else 0
  }

  function IsOwnedIn(ids: set<string>): Gpu -> nat {
    (g: Gpu) => if g.owner.Some? && g.owner.value in ids then 1 else 0
  }

  // Open once the victims are gone, whether verified or not.
  function IsOpen(victims: set<string>, verified: bool): Gpu -> nat {
    (g: Gpu) => if g.verified == verified && (g.owner.None? || g.owner.value in victims) then 1 else 0
  }

  // Every deployment is credited with the GPU rows that point at it.
  ghost predicate Accounted(s: Server) {
    forall d :: d in s.deployments ==> d.gpus == Sum(s.gpus, IsOwnedBy(d.id))
  }

  function Released(gpus: seq<Gpu>, victims: set<string>): seq<Gpu> {
    if gpus == [] then []
    else
      var g := gpus[0];
      [if g.owner.Some? && g.owner.value in victims then g.(owner := None) else g] + Released(gpus[1..], victims)
  }

  // What `_verify_gpus` counts.
  function VerifiedFree(): Gpu -> nat {
    (g: Gpu) => if g.verified && g.owner.None? then 1 else 0
  }

  lemma {:induction false} ReleasedFree(gpus: seq<Gpu>, victims: set<string>)
    ensures Sum(Released(gpus, victims), VerifiedFree()) == Sum(gpus, IsOpen(victims, true))
  {
    if gpus != [] {
      ReleasedFree(gpus[1..], victims);
      assert Released(gpus, victims)[1..] == Released(gpus[1..], victims);
    }
  }

  lemma {:induction false} OpenByVerdict(gpus: seq<Gpu>, victims: set<string>)
    ensures Sum(gpus, IsOpen(victims, true)) + Sum(gpus, IsOpen(victims, false))
         == Sum(gpus, IsFree()) + Sum(gpus, IsOwnedIn(victims))
  {
    if gpus != [] {
      OpenByVerdict(gpus[1..], victims);
    }
  }

  lemma {:induction false} OneMoreOwner(gpus: seq<Gpu>, ids: set<string>, id: string)
    requires id !in ids
    ensures Sum(gpus, IsOwnedIn(ids + {id})) == Sum(gpus, IsOwnedIn(ids)) + Sum(gpus, IsOwnedBy(id))
  {
    if gpus != [] {
      OneMoreOwner(gpus[1..], ids, id);
    }
  }

  lemma {:induction false} NoOwner(gpus: seq<Gpu>)
    ensures Sum(gpus, IsOwnedIn({})) == 0
  {
    if gpus != [] {
      NoOwner(gpus[1..]);
    }
  }

  lemma {:induction false} FreedAreOwned(gpus: seq<Gpu>, ds: seq<Deployment>, victims: set<string>)
    requires DistinctIds(ds) && forall d :: d in ds ==> d.gpus == Sum(gpus, IsOwnedBy(d.id))
    ensures Sum(ds, FreedBy(victims)) == Sum(gpus, IsOwnedIn(victims * Ids(ds)))
  {
    if ds == [] {
      assert victims * Ids(ds) == {};
      NoOwner(gpus);
    } else {
      var d, rest := ds[0], ds[1..];
      assert ds == [d] + rest;
      FreedAreOwned(gpus, rest, victims);
      forall x | x in rest ensures x.id != d.id {
        var k :| 0 <= k < |rest| && rest[k] == x;
        assert ds[k + 1] == x;
      }
      if d.id in victims {
        assert victims * Ids(ds) == victims * Ids(rest) + {d.id};
        OneMoreOwner(gpus, victims * Ids(rest), d.id);
      } else {
        assert victims * Ids(ds) == victims * Ids(rest);
      }
    }
  }

  lemma PlanFrees(p: Policy, s: Server, need: nat)
    requires DistinctIds(s.deployments) && PlanFor(p, s, need).Some?
    ensures
      var plan := PlanFor(p, s, need).value;
      && Ids(plan) <= Ids(s.deployments)
      && Sum(s.deployments, FreedBy(Ids(plan))) == Sum(plan, GpusOf())
      && FreeGpus(s) + Sum(plan, GpusOf()) >= need
  {
    PlanSafeAndTight(p, s, need);
    DistinctRanked(p, s);
    var m := WalkStops(p, Ranked(p, s), FreeGpus(s), need, 0);
    PrefixSums(p, Ranked(p, s), m);
    AllowedRanked(p, s, Ids(PlanFor(p, s, need).value));
  }

  // The plan for the request, if there is one, is followed by a deploy that `_verify_gpus` lets through.
  predicate Deploys(p: Policy, s: Server, need: nat) {
    var plan := PlanFor(p, s, need);
    plan.Some? ==> Sum(Released(s.gpus, Ids(plan.value)), VerifiedFree()) >= need
  }

  // Counting the GPUs that a plan opens, verified or not.
  lemma PlanDeploysIff(p: Policy, s: Server, need: nat)
    requires DistinctIds(s.deployments) && Accounted(s) && PlanFor(p, s, need).Some?
    ensures
      var plan := PlanFor(p, s, need).value;
      Sum(Released(s.gpus, Ids(plan)), VerifiedFree()) >= need <==>
        Sum(s.gpus, IsOpen(Ids(plan), false)) <= FreeGpus(s) + Sum(plan, GpusOf()) - need
  {
    var victims := Ids(PlanFor(p, s, need).value);
    PlanFrees(p, s, need);
    ReleasedFree(s.gpus, victims);
    OpenByVerdict(s.gpus, victims);
    FreedAreOwned(s.gpus, s.deployments, victims);
    assert victims * Ids(s.deployments) == victims;
  }

  // The GPU is unowned, or belongs to one of the first `m` deployments of the ranking that is within its budget.
  predicate Opens(p: Policy, ds: seq<Deployment>, m: nat, g: Gpu)
    requires m <= |ds|
  {
    g.owner.None? || exists i :: 0 <= i < m && InBudget(p, ds, i) && ds[i].id == g.owner.value
  }

  function Opening(p: Policy, ds: seq<Deployment>, m: nat, verified: bool): Gpu -> nat
    requires m <= |ds|
  {
    (g: Gpu) => if g.verified == verified && Opens(p, ds, m, g) then 1 else 0
  }

  lemma {:induction false} OpensIffTaken(p: Policy, ds: seq<Deployment>, m: nat, g: Gpu)
    requires m <= |ds| && DistinctIds(ds)
    ensures Opens(p, ds, m, g) <==> g.owner.None? || g.owner.value in Ids(Takes(p, ds, m))
  {
    if m > 0 {
      OpensIffTaken(p, ds, m - 1, g);
      IdsTaken(p, ds, m);
      TakenIffInBudget(p, ds, m - 1);
    }
  }

  lemma {:induction false} SumSame(gpus: seq<Gpu>, f: Gpu -> nat, h: Gpu -> nat)
    requires forall g :: f(g) == h(g)
    ensures Sum(gpus, f) == Sum(gpus, h)
  {
    if gpus != [] {
      SumSame(gpus[1..], f, h);
    }
  }

  lemma OpeningIsOpen(p: Policy, ds: seq<Deployment>, m: nat, gpus: seq<Gpu>, verified: bool)
    requires m <= |ds| && DistinctIds(ds)
    ensures Sum(gpus, Opening(p, ds, m, verified)) == Sum(gpus, IsOpen(Ids(Takes(p, ds, m)), verified))
  {
    forall g ensures Opening(p, ds, m, verified)(g) == IsOpen(Ids(Takes(p, ds, m)), verified)(g) {
      OpensIffTaken(p, ds, m, g);
    }
    SumSame(gpus, Opening(p, ds, m, verified), IsOpen(Ids(Takes(p, ds, m)), verified));
  }

  // How many GPUs of the server, verified or not, are open after the first `m` of the ranking.
  function OpenAfter(p: Policy, s: Server, m: nat, verified: bool): nat
    requires m <= |Ranked(p, s)|
  {
    Sum(s.gpus, Opening(p, Ranked(p, s), m, verified))
  }

  lemma OpenTotal(p: Policy, s: Server, m: nat)
    requires DistinctIds(s.deployments) && Accounted(s) && m <= |Ranked(p, s)|
    ensures OpenAfter(p, s, m, true) + OpenAfter(p, s, m, false) == FreeGpus(s) + Freed(p, Ranked(p, s), m)
  {
    var ds, victims := Ranked(p, s), Ids(Takes(p, Ranked(p, s), m));
    RankedFacts(p, s);
    DistinctRanked(p, s);
    OpeningIsOpen(p, ds, m, s.gpus, true);
    OpeningIsOpen(p, ds, m, s.gpus, false);
    OpenByVerdict(s.gpus, victims);
    PrefixSums(p, ds, m);
    FreedAreOwned(s.gpus, ds, victims);
    TakesMembers(p, ds, m);
    forall d | d in Takes(p, ds, m) ensures d in ds {
      assert d in ds[..m];
    }
    assert victims * Ids(ds) == victims;
  }

  lemma {:induction false} SumBelow(gpus: seq<Gpu>, f: Gpu -> nat, h: Gpu -> nat)
    requires forall g :: f(g) <= h(g)
    ensures Sum(gpus, f) <= Sum(gpus, h)
  {
    if gpus != [] {
      SumBelow(gpus[1..], f, h);
    }
  }

  lemma OpenGrows(p: Policy, s: Server, m: nat, n: nat, verified: bool)
    requires m <= n <= |Ranked(p, s)|
    ensures OpenAfter(p, s, m, verified) <= OpenAfter(p, s, n, verified)
  {
    SumBelow(s.gpus, Opening(p, Ranked(p, s), m, verified), Opening(p, Ranked(p, s), n, verified));
  }

  // A plan that stops after the first `m` is followed by a deploy exactly when the verified GPUs open there suffice.
  lemma StopsAndDeploys(p: Policy, s: Server, need: nat) returns (m: nat)
    requires DistinctIds(s.deployments) && Accounted(s) && PlanFor(p, s, need).Some?
    ensures m <= |Ranked(p, s)| && OpenAfter(p, s, m, true) + OpenAfter(p, s, m, false) >= need
    ensures m > 0 ==> OpenAfter(p, s, m - 1, true) + OpenAfter(p, s, m - 1, false) < need
    ensures Deploys(p, s, need) <==> OpenAfter(p, s, m, true) >= need
  {
    var ds := Ranked(p, s);
    DistinctRanked(p, s);
    m := WalkStops(p, ds, FreeGpus(s), need, 0);
    OpenTotal(p, s, m);
    if m > 0 {
      OpenTotal(p, s, m - 1);
    }
    DeploysAt(p, s, need, m);
  }

  lemma DeploysAt(p: Policy, s: Server, need: nat, m: nat)
    requires DistinctIds(Ranked(p, s)) && m <= |Ranked(p, s)|
    requires PlanFor(p, s, need) == Some(Takes(p, Ranked(p, s), m))
    ensures Deploys(p, s, need) <==> OpenAfter(p, s, m, true) >= need
  {
    OpeningIsOpen(p, Ranked(p, s), m, s.gpus, true);
    ReleasedFree(s.gpus, Ids(Takes(p, Ranked(p, s), m)));
  }

  // Up to `cap`, no unverified GPU is open while verified ones are still short.
  ghost predicate VerifiedFirst(p: Policy, s: Server, cap: nat) {
    forall m | 0 <= m <= |Ranked(p, s)| :: OpenAfter(p, s, m, false) == 0 || OpenAfter(p, s, m, true) >= cap
  }

  // The first place where an unverified GPU is open.
  lemma {:induction false} FirstUnverified(p: Policy, s: Server, n: nat) returns (m: nat)
    requires n <= |Ranked(p, s)| && OpenAfter(p, s, n, false) > 0
    ensures m <= n && OpenAfter(p, s, m, false) > 0 && (m > 0 ==> OpenAfter(p, s, m - 1, false) == 0)
  {
    if n == 0 || OpenAfter(p, s, n - 1, false) == 0 {
      m := n;
    } else {
      m := FirstUnverified(p, s, n - 1);
    }
  }

  // There the request for one GPU more than the verified ones open has a plan in vain.
  lemma VainRequest(p: Policy, s: Server, n: nat) returns (need: nat)
    requires DistinctIds(s.deployments) && Accounted(s)
    requires n <= |Ranked(p, s)| && OpenAfter(p, s, n, false) > 0
    ensures need <= OpenAfter(p, s, n, true) + 1 && !Deploys(p, s, need)
  {
    var m := FirstUnverified(p, s, n);
    need := OpenAfter(p, s, m, true) + 1;
    OpenGrows(p, s, m, n, true);
    EnoughPlans(p, s, m, need);
    var k := StopsAndDeploys(p, s, need);
    VainStop(p, s, m, k, need);
  }

  lemma EnoughPlans(p: Policy, s: Server, m: nat, need: nat)
    requires DistinctIds(s.deployments) && Accounted(s) && m <= |Ranked(p, s)|
    requires OpenAfter(p, s, m, true) + OpenAfter(p, s, m, false) >= need
    ensures PlanFor(p, s, need).Some?
  {
    OpenTotal(p, s, m);
    var stop := WalkStops(p, Ranked(p, s), FreeGpus(s), need, 0);
    TakesGrow(p, Ranked(p, s), m, |Ranked(p, s)|);
  }

  lemma VainStop(p: Policy, s: Server, m: nat, k: nat, need: nat)
    requires m <= |Ranked(p, s)| && k <= |Ranked(p, s)|
    requires OpenAfter(p, s, m, false) > 0 && (m > 0 ==> OpenAfter(p, s, m - 1, false) == 0)
    requires need == OpenAfter(p, s, m, true) + 1
    requires OpenAfter(p, s, k, true) + OpenAfter(p, s, k, false) >= need
    requires k > 0 ==> OpenAfter(p, s, k - 1, true) + OpenAfter(p, s, k - 1, false) < need
    ensures k == m
  {
    if k < m {
      OpenGrows(p, s, k, m - 1, false);
      OpenGrows(p, s, k, m, true);
    } else if k > m {
      OpenGrows(p, s, m, k - 1, true);
      OpenGrows(p, s, m, k - 1, false);
    }
  }

  /** Every request up to a cap that has a plan is followed by a deploy `_verify_gpus` lets through exactly when, along
      the ranking, no unverified GPU opens while fewer verified ones than the cap are open. */
  lemma RequestsDeployIff(p: Policy, s: Server, cap: nat)
    requires DistinctIds(s.deployments) && Accounted(s)
    ensures (forall need | 0 <= need <= cap :: Deploys(p, s, need)) <==> VerifiedFirst(p, s, cap)
  {
    if VerifiedFirst(p, s, cap) {
      forall need | 0 <= need <= cap ensures Deploys(p, s, need) {
        if PlanFor(p, s, need).Some? {
          var m := StopsAndDeploys(p, s, need);
          assert OpenAfter(p, s, m, false) == 0 || OpenAfter(p, s, m, true) >= cap;
        }
      }
    } else {
      var n :| 0 <= n <= |Ranked(p, s)| && OpenAfter(p, s, n, false) != 0 && OpenAfter(p, s, n, true) < cap;
      var need := VainRequest(p, s, n);
    }
  }

  lemma {:induction false} SumPositive(gpus: seq<Gpu>, f: Gpu -> nat)
    ensures Sum(gpus, f) > 0 <==> exists g :: g in gpus && f(g) > 0
  {
    if gpus != [] {
      SumPositive(gpus[1..], f);
      assert gpus == [gpus[0]] + gpus[1..];
    }
  }

  lemma {:induction false} SumFull(gpus: seq<Gpu>, f: Gpu -> nat, h: Gpu -> nat)
    requires forall g :: f(g) <= h(g)
    ensures Sum(gpus, f) >= Sum(gpus, h) <==> forall g :: g in gpus ==> f(g) == h(g)
  {
    if gpus != [] {
      SumFull(gpus[1..], f, h);
      SumBelow(gpus[1..], f, h);
      assert gpus == [gpus[0]] + gpus[1..];
    }
  }

  function IsVerified(): Gpu -> nat {
    (g: Gpu) => if g.verified then 1 else 0
  }

  /** Without a cap: exactly when no unverified GPU is unowned or belongs to a deployment within its budget. */
  lemma AnyRequestDeploysIff(p: Policy, s: Server)
    requires DistinctIds(s.deployments) && Accounted(s)
    ensures
      var ds := Ranked(p, s);
      (forall need: nat :: Deploys(p, s, need)) <==>
        forall g | g in s.gpus && !g.verified ::
          g.owner.Some? && forall i | 0 <= i < |ds| && InBudget(p, ds, i) :: ds[i].id != g.owner.value
  {
    var ds := Ranked(p, s);
    var last := |ds|;
    SumPositive(s.gpus, Opening(p, ds, last, false));
    assert OpenAfter(p, s, last, false) == 0 <==> forall g | g in s.gpus && !g.verified :: !Opens(p, ds, last, g);
    if OpenAfter(p, s, last, false) == 0 {
      forall need: nat ensures Deploys(p, s, need) {
        forall m | 0 <= m <= last ensures OpenAfter(p, s, m, false) == 0 {
          OpenGrows(p, s, m, last, false);
        }
        RequestsDeployIff(p, s, need);
      }
    } else {
      var need := VainRequest(p, s, last);
    }
  }

  // After the first `m` of the ranking, either no unverified GPU is open or every verified one is.
  ghost predicate VerifiedNoLater(p: Policy, ds: seq<Deployment>, gpus: seq<Gpu>, m: nat)
    requires m <= |ds|
  {
    forall u, v | u in gpus && v in gpus && !u.verified && v.verified :: Opens(p, ds, m, u) ==> Opens(p, ds, m, v)
  }

  lemma VerifiedNoLaterIff(p: Policy, s: Server, m: nat)
    requires m <= |Ranked(p, s)|
    ensures OpenAfter(p, s, m, false) == 0 || OpenAfter(p, s, m, true) >= Sum(s.gpus, IsVerified()) <==>
              VerifiedNoLater(p, Ranked(p, s), s.gpus, m)
  {
    SumPositive(s.gpus, Opening(p, Ranked(p, s), m, false));
    SumFull(s.gpus, Opening(p, Ranked(p, s), m, true), IsVerified());
  }

  /** For requests no larger than the server's verified GPUs: exactly when no unverified GPU opens earlier in the
      ranking than a verified one. */
  lemma VerifiedRequestsDeployIff(p: Policy, s: Server)
    requires DistinctIds(s.deployments) && Accounted(s)
    ensures
      (forall need | 0 <= need <= Sum(s.gpus, IsVerified()) :: Deploys(p, s, need)) <==>
        forall m | 0 <= m <= |Ranked(p, s)| :: VerifiedNoLater(p, Ranked(p, s), s.gpus, m)
  {
    RequestsDeployIff(p, s, Sum(s.gpus, IsVerified()));
    forall m | 0 <= m <= |Ranked(p, s)|
      ensures OpenAfter(p, s, m, false) == 0 || OpenAfter(p, s, m, true) >= Sum(s.gpus, IsVerified()) <==>
                VerifiedNoLater(p, Ranked(p, s), s.gpus, m)
    {
      VerifiedNoLaterIff(p, s, m);
    }
  }

  // A server with one verified GPU to win, one unverified GPU, and one a job holds.
  const TWO_LIVE := Policy("new", 9.0, 10000, [Instance(Some("i1"), "a", 1.0), Instance(Some("i2"), "a", 2.0)])
  const VICTIM := Deployment("v", "a", Some("i1"), false, true, Some(0), 1)
  const JOB := Deployment("j", "b", None, true, true, Some(0), 1)
  const MIXED := Server("n", true, [Gpu(Some("v"), true), Gpu(None, false), Gpu(Some("j"), true)], [VICTIM, JOB])

  lemma MixedMakesRoom()
    ensures DistinctIds(MIXED.deployments) && Makes(TWO_LIVE, MIXED, 2, {"v"})
  {
    assert GlobalCount(TWO_LIVE, "a") == 2 by {
      assert TWO_LIVE.active[1..] == [Instance(Some("i2"), "a", 2.0)];
    }
    SumOfThree(MIXED.gpus[0], MIXED.gpus[1], MIXED.gpus[2], IsFree());
    SumOfTwo(VICTIM, JOB, FreedBy({"v"}));
    VictimAllowed();
  }

  lemma VictimAllowed()
    requires GlobalCount(TWO_LIVE, "a") == 2
    ensures Allowed(TWO_LIVE, MIXED.deployments, {"v"})
  {
    forall c ensures Sum([VICTIM, JOB], LostBy({"v"}, c)) <= Budget(TWO_LIVE, c) {
      SumOfTwo(VICTIM, JOB, LostBy({"v"}, c));
    }
    AllowedIff(TWO_LIVE, MIXED.deployments, {"v"});
  }

  lemma MixedIsAccounted()
    ensures Accounted(MIXED)
    ensures FreeGpus(MIXED) == 1
    ensures Sum(MIXED.gpus, IsVerified()) == 2
  {
    var g := MIXED.gpus;
    SumOfThree(g[0], g[1], g[2], IsFree());
    SumOfThree(g[0], g[1], g[2], IsOwnedBy("v"));
    SumOfThree(g[0], g[1], g[2], IsOwnedBy("j"));
    SumOfThree(g[0], g[1], g[2], IsVerified());
  }

  /** With an unverified GPU among those counted free, a plan can evict a running deployment for a chute that
      `_verify_gpus` then turns away, although the server has enough verified GPUs to be considered. */
  lemma EvictionInVain()
    ensures DistinctIds(MIXED.deployments) && Accounted(MIXED)
    ensures Sum(MIXED.gpus, IsVerified()) >= 2
    ensures PlanFor(TWO_LIVE, MIXED, 2).Some? && PlanFor(TWO_LIVE, MIXED, 2).value != []
    ensures Sum(Released(MIXED.gpus, Ids(PlanFor(TWO_LIVE, MIXED, 2).value)), VerifiedFree()) < 2
  {
    MixedMakesRoom();
    MixedIsAccounted();
    EqualHoldingsComplete(TWO_LIVE, MIXED, 2);
    PlanSafeAndTight(TWO_LIVE, MIXED, 2);
    VerifiedAfter(PlanFor(TWO_LIVE, MIXED, 2).value);
  }

  // The job is not among the victims, so its GPU stays taken.
  lemma VerifiedAfter(plan: seq<Deployment>)
    requires forall d :: d in plan ==> d in MIXED.deployments && Eligible(TWO_LIVE, d)
    ensures Sum(Released(MIXED.gpus, Ids(plan)), VerifiedFree()) < 2
  {
    assert "j" !in Ids(plan);
    ReleasedFree(MIXED.gpus, Ids(plan));
    SumOfThree(MIXED.gpus[0], MIXED.gpus[1], MIXED.gpus[2], IsOpen(Ids(plan), true));
  }

  lemma SumOfTwo<T>(a: T, b: T, f: T -> nat)
    ensures Sum([a, b], f) == f(a) + f(b)
  {
    assert [a, b] == [a] + [b];
    SumSnoc([a], b, f);
    SumSnoc([], a, f);
    assert [] + [a] == [a];
  }

  lemma SumOfThree<T>(a: T, b: T, c: T, f: T -> nat)
    ensures Sum([a, b, c], f) == f(a) + f(b) + f(c)
  {
    assert [a, b, c] == [a, b] + [c];
    SumSnoc([a, b], c, f);
    SumOfTwo(a, b, f);
  }
}
