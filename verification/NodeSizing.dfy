/** CPU and memory per GPU (`track_server`), and why the requests of a server's deployments fit. */
module NodeSizing {
  import opened Options
  import opened Allocator

  // ---- Per-GPU shares ----

  // Usable CPUs: two are kept back.
  function UsableCpus(capacity: nat): int {
    capacity - 2
  }

  function CpuPerGpu(usable: int, gpuCount: int): Option<int> {
    if usable <= gpuCount then Some(1)
    else if gpuCount == 0 then None
    else Some(if usable / gpuCount < 4 then usable / gpuCount else 4)
  }

  // The memory capacity as Kubernetes writes it; any other suffix leaves the total undefined.
  datatype Quantity = Ki(n: nat) | Mi(n: nat) | Gi(n: nat) | Other

  // Usable memory in GB: six are kept back.
  function UsableMemory(q: Quantity): Option<int> {
    match q
    case Ki(n) => Some(n / (1024 * 1024) - 6)
    case Mi(n) => Some(n / 1024 - 6)
    case Gi(n) => Some(n - 6)
    case Other => None
  }

  // floor(usable * 0.8 / gpuCount) in exact arithmetic, capped by the GPU's own memory.
  function MemoryPerGpu(usable: int, gpuMemory: nat, gpuCount: int): Option<int> {
    if usable <= gpuCount then Some(1)
    else if gpuCount == 0 then None
    else
      var share := (4 * usable) / (5 * gpuCount);
      Some(if share < gpuMemory then share else gpuMemory)
  }

  lemma DivisionBounds(a: int, b: int)
    requires b > 0
    ensures b * (a / b) <= a < b * (a / b) + b
  {
  }

  lemma ProductMonotone(a: int, b: int, c: int)
    requires a <= b && c >= 0
    ensures a * c <= b * c
  {
  }

  /** With every GPU of the node in use, the CPU requests fit exactly when there is a CPU for each GPU. */
  lemma CpuSharesFitIff(usable: int, gpuCount: int)
    requires gpuCount > 0
    ensures CpuPerGpu(usable, gpuCount).Some?
    ensures gpuCount * CpuPerGpu(usable, gpuCount).value <= usable <==> usable >= gpuCount
    ensures usable >= gpuCount ==> CpuPerGpu(usable, gpuCount).value >= 1
  {
    if usable > gpuCount {
      DivisionBounds(usable, gpuCount);
      var c := CpuPerGpu(usable, gpuCount).value;
      ProductMonotone(c, usable / gpuCount, gpuCount);
      if usable / gpuCount < 1 {
        ProductMonotone(usable / gpuCount, 0, gpuCount);
      }
    }
  }

  /** With every GPU in use, the memory requests stay within 0.8 of the usable memory exactly when
      there is more than 1 GB for each GPU. */
  lemma MemorySharesFitIff(usable: int, gpuMemory: nat, gpuCount: int)
    requires gpuCount > 0
    ensures MemoryPerGpu(usable, gpuMemory, gpuCount).Some?
    ensures 5 * (gpuCount * MemoryPerGpu(usable, gpuMemory, gpuCount).value) <= 4 * usable <==> usable > gpuCount
    ensures MemoryPerGpu(usable, gpuMemory, gpuCount).value >= 0
  {
    if usable > gpuCount {
      var share := (4 * usable) / (5 * gpuCount);
      DivisionBounds(4 * usable, 5 * gpuCount);
      ProductMonotone(MemoryPerGpu(usable, gpuMemory, gpuCount).value, share, gpuCount);
      assert 5 * (gpuCount * share) == (5 * gpuCount) * share;
      if share < 0 {
        ProductMonotone(share, -1, 5 * gpuCount);
      }
    }
  }

  /** A GPU's CPU share is the largest one of up to 4 CPUs that all GPUs can have, and 1 where there is no CPU to spare.
      */
  lemma CpuShareExact(usable: int, gpuCount: int)
    requires gpuCount > 0
    ensures CpuPerGpu(usable, gpuCount).Some?
    ensures var c := CpuPerGpu(usable, gpuCount).value;
            if usable <= gpuCount then c == 1
            else 1 <= c <= 4 && gpuCount * c <= usable && (c < 4 ==> gpuCount * (c + 1) > usable)
  {
    CpuSharesFitIff(usable, gpuCount);
    if usable > gpuCount {
      DivisionBounds(usable, gpuCount);
      Distribute(gpuCount, usable / gpuCount, 1);
    }
  }

  /** Its memory share is the largest whole number of GB, up to the GPU's own memory, that keeps all of them within 0.8
      of the usable memory, and 1 where there is no more than 1 GB each. */
  lemma MemoryShareExact(usable: int, gpuMemory: nat, gpuCount: int)
    requires gpuCount > 0
    ensures MemoryPerGpu(usable, gpuMemory, gpuCount).Some?
    ensures var m := MemoryPerGpu(usable, gpuMemory, gpuCount).value;
            if usable <= gpuCount then m == 1
            else && 0 <= m <= gpuMemory && 5 * (gpuCount * m) <= 4 * usable
                 && (m < gpuMemory ==> 5 * (gpuCount * (m + 1)) > 4 * usable)
  {
    MemorySharesFitIff(usable, gpuMemory, gpuCount);
    if usable > gpuCount {
      var share := (4 * usable) / (5 * gpuCount);
      DivisionBounds(4 * usable, 5 * gpuCount);
      Distribute(gpuCount, share, 1);
      assert 5 * (gpuCount * share) == (5 * gpuCount) * share;
    }
  }

  /** Only a node without a GPU has no share, and only when it has something to divide. */
  lemma NoShareIff(usable: int, gpuMemory: nat, gpuCount: nat)
    ensures CpuPerGpu(usable, gpuCount).None? <==> gpuCount == 0 && usable > 0
    ensures MemoryPerGpu(usable, gpuMemory, gpuCount).None? <==> gpuCount == 0 && usable > 0
  {
  }

  /** A GPU's share of memory rounds down to nothing exactly when the usable memory is above one but below
      one and a quarter GB per GPU (or the GPU reports less than 1 GB of its own). */
  lemma MemoryShareZeroIff(usable: int, gpuMemory: nat, gpuCount: int)
    requires gpuCount > 0
    ensures MemoryPerGpu(usable, gpuMemory, gpuCount) == Some(0) <==>
              usable > gpuCount && (4 * usable < 5 * gpuCount || gpuMemory == 0)
  {
    if usable > gpuCount {
      var share := (4 * usable) / (5 * gpuCount);
      DivisionBounds(4 * usable, 5 * gpuCount);
      MemorySharesFitIff(usable, gpuMemory, gpuCount);
      if share >= 1 {
        ProductMonotone(1, share, 5 * gpuCount);
      } else {
        assert share >= 0 by {
          if share < 0 {
            ProductMonotone(share, -1, 5 * gpuCount);
          }
        }
      }
    }
  }

  // ---- What the deployments of a server request together ----

  ghost function AnyOf(ids: set<string>): string
    requires ids != {}
  {
    var d :| d in ids; d
  }

  // `build_chute_job` requests the per-GPU share times the chute's GPU count.
  ghost function TotalRequest(rows: map<string, Row>, ids: set<string>, perGpu: int): int
    requires ids <= rows.Keys
  {
    if ids == {} then 0
    else perGpu * rows[AnyOf(ids)].want + TotalRequest(rows, ids - {AnyOf(ids)}, perGpu)
  }

  function Tenants(db: Db, server: string): set<string> {
    set d | d in db.rows && db.rows[d].server == server
  }

  function HeldByAny(gpus: map<string, Gpu>, ids: set<string>): set<string> {
    set g | g in gpus && gpus[g].owner.Some? && gpus[g].owner.value in ids
  }

  lemma {:induction false} RequestsFollowGpus(db: Db, ids: set<string>, perGpu: int)
    requires DbOk(db) && ids <= db.rows.Keys
    ensures TotalRequest(db.rows, ids, perGpu) == perGpu * |HeldByAny(db.gpus, ids)|
  {
    if ids == {} {
      assert HeldByAny(db.gpus, ids) == {};
    } else {
      var d := AnyOf(ids);
      RequestsFollowGpus(db, ids - {d}, perGpu);
      SplitHolders(db.gpus, ids, d);
      Distribute(perGpu, |Held(db.gpus, d)|, |HeldByAny(db.gpus, ids - {d})|);
    }
  }

  lemma SplitHolders(gpus: map<string, Gpu>, ids: set<string>, d: string)
    requires d in ids
    ensures |HeldByAny(gpus, ids)| == |Held(gpus, d)| + |HeldByAny(gpus, ids - {d})|
  {
    var rest := HeldByAny(gpus, ids - {d});
    assert HeldByAny(gpus, ids) == Held(gpus, d) + rest;
    assert Held(gpus, d) !! rest;
  }

  lemma Distribute(a: int, b: int, c: int)
    ensures a * b + a * c == a * (b + c)
  {
  }

  // A server's tenants never request more than one share for each of its GPUs.
  lemma TenantsWithinGpus(db: Db, server: string, perGpu: int, gpuCount: nat)
    requires DbOk(db) && perGpu >= 0 && |OnServer(db.gpus, server)| <= gpuCount
    ensures TotalRequest(db.rows, Tenants(db, server), perGpu) <= gpuCount * perGpu
  {
    var ids := Tenants(db, server);
    RequestsFollowGpus(db, ids, perGpu);
    SmallerSubset(HeldByAny(db.gpus, ids), OnServer(db.gpus, server));
    ProductMonotone(|HeldByAny(db.gpus, ids)|, gpuCount, perGpu);
  }

  /** After any run of deploys, undeploys and failures the CPU requests on a server fit its capacity less the two
      CPUs kept back, given a CPU for each of its GPUs. */
  lemma CpuNeverOvercommitted(es: seq<Event>, server: string, capacity: nat, gpuCount: nat)
    requires gpuCount > 0 && UsableCpus(capacity) >= gpuCount
    requires |OnServer(Run(EMPTY, es).db.gpus, server)| <= gpuCount
    ensures CpuPerGpu(UsableCpus(capacity), gpuCount).Some?
    ensures var db, share := Run(EMPTY, es).db, CpuPerGpu(UsableCpus(capacity), gpuCount).value;
            TotalRequest(db.rows, Tenants(db, server), share) <= capacity - 2
  {
    var usable := UsableCpus(capacity);
    RunKeeps(EMPTY, es);
    CpuSharesFitIff(usable, gpuCount);
    TenantsWithinGpus(Run(EMPTY, es).db, server, CpuPerGpu(usable, gpuCount).value, gpuCount);
  }

  /** Likewise the memory requests never pass 0.8 of what the capacity leaves after the six GB kept back, given more
      than 1 GB for each GPU. */
  lemma MemoryNeverOvercommitted(es: seq<Event>, server: string, capacity: Quantity, gpuMemory: nat, gpuCount: nat)
    requires gpuCount > 0 && UsableMemory(capacity).Some? && UsableMemory(capacity).value > gpuCount
    requires |OnServer(Run(EMPTY, es).db.gpus, server)| <= gpuCount
    ensures MemoryPerGpu(UsableMemory(capacity).value, gpuMemory, gpuCount).Some?
    ensures var db, usable := Run(EMPTY, es).db, UsableMemory(capacity).value;
            var share := MemoryPerGpu(usable, gpuMemory, gpuCount).value;
            && 5 * TotalRequest(db.rows, Tenants(db, server), share) <= 4 * usable
            && (capacity.Ki? ==> usable == capacity.n / 1048576 - 6)
            && (capacity.Mi? ==> usable == capacity.n / 1024 - 6)
            && (capacity.Gi? ==> usable == capacity.n - 6)
  {
    var usable := UsableMemory(capacity).value;
    RunKeeps(EMPTY, es);
    MemorySharesFitIff(usable, gpuMemory, gpuCount);
    TenantsWithinGpus(Run(EMPTY, es).db, server, MemoryPerGpu(usable, gpuMemory, gpuCount).value, gpuCount);
  }
}
