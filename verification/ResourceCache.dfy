/** The resource cache of `MonitoringRedisClient`: Redis hashes, one per cluster and resource type, whose
    fields are "namespace:name". */
module ResourceCache {
  import opened Options

  datatype Kind = NodeKind | DeploymentKind | ServiceKind | PodKind | JobKind

  datatype Item = Item(namespace: string, name: string, body: string)

  datatype Resources = Resources(
    deployments: seq<Item>, services: seq<Item>, pods: seq<Item>, nodes: seq<Item>, jobs: seq<Item>)
  {
    function Of(kind: Kind): seq<Item> {
      match kind
      case NodeKind => nodes
      case DeploymentKind => deployments
      case ServiceKind => services
      case PodKind => pods
      case JobKind => jobs
    }
  }

  // A watch event as it reaches the control plane: a deletion, or anything that stores the object.
  datatype Event = Gone(item: Item) | Stored(item: Item)

  type Hash = map<string, string>
  type Store = map<(string, Kind), Hash>

  // The order in which types are cleared, and in which a snapshot is written.
  const CLEAR_ORDER := [NodeKind, DeploymentKind, ServiceKind, PodKind, JobKind]
  const WRITE_ORDER := [DeploymentKind, ServiceKind, PodKind, NodeKind, JobKind]

  // ---- Redis hashes ----

  function Read(s: Store, key: (string, Kind)): Hash {
    if key in s then s[key] else map[]
  }

  function HSet(s: Store, key: (string, Kind), fields: Hash): Store {
    s[key := Read(s, key) + fields]
  }

  // Redis drops a hash with its last field.
  function HDel(s: Store, key: (string, Kind), field: string): Store {
    var h := Read(s, key) - {field};
    if h == map[] then s - {key} else s[key := h]
  }

  function Field(namespace: string, name: string): string {
    namespace + ":" + name
  }

  function Split(s: string): (parts: seq<string>)
    ensures |parts| >= 1
  {
    if s == "" then [""]
    else
      var rest := Split(s[1..]);
      if s[0] == ':' then [""] + rest else [[s[0]] + rest[0]] + rest[1..]
  }

  predicate ColonFree(s: string) {
    ':' !in s
  }

  lemma {:induction false} SplitParts(s: string)
    ensures ColonFree(s) ==> Split(s) == [s]
    ensures !ColonFree(s) ==> |Split(s)| >= 2
  {
    if s != "" {
      SplitParts(s[1..]);
      assert s == [s[0]] + s[1..];
      if ColonFree(s) {
        assert ':' !in s[1..];
      }
    }
  }

  lemma {:induction false} SplitAtFirst(a: string, b: string)
    requires ColonFree(a)
    ensures Split(a + ":" + b) == [a] + Split(b)
  {
    if a == "" {
      assert (a + ":" + b)[1..] == b;
    } else {
      assert ':' !in a[1..];
      SplitAtFirst(a[1..], b);
      assert (a + ":" + b)[1..] == a[1..] + ":" + b;
      assert [a[0]] + a[1..] == a;
    }
  }

  /** A field splits back into its two parts exactly when the name has no colon. */
  lemma FieldSplitsBackIff(namespace: string, name: string)
    requires ColonFree(namespace)
    ensures Split(Field(namespace, name)) == [namespace, name] <==> ColonFree(name)
    ensures |Split(Field(namespace, name))| >= 2 && Split(Field(namespace, name))[0] == namespace
  {
    SplitAtFirst(namespace, name);
    SplitParts(name);
    assert namespace + ":" + name == Field(namespace, name);
  }

  /** With a colon in a name, a lookup by its first part returns the wrong object. */
  lemma ColonNameMisread()
    ensures exists h: Hash, f: string ::
              Filter(h, Some("a"), None) == map[f := "x"] && f == Field("ns", "a:b") && Field("ns", "a") !in h
  {
    var f := Field("ns", "a:b");
    SplitAtFirst("ns", "a:b");
    SplitAtFirst("a", "b");
    SplitParts("b");
    assert "ns" + ":" + "a:b" == f && "a" + ":" + "b" == "a:b";
    var h := map[f := "x"];
    assert Wanted(f, Some("a"), None);
    assert Filter(h, Some("a"), None) == h;
    assert |Field("ns", "a")| == 4 && |f| == 6;
  }

  // ---- Filtering ----

  predicate Asks(o: Option<string>) {
    o.Some? && o.value != ""
  }

  // The test of `_filter_resources` on one field; an empty filter asks for nothing.
  predicate Wanted(field: string, name: Option<string>, namespace: Option<string>) {
    var parts := Split(field);
    && (Asks(name) ==> |parts| > 1 && parts[1] == name.value)
    && (Asks(namespace) ==> parts[0] == namespace.value)
  }

  function Filter(h: Hash, name: Option<string>, namespace: Option<string>): Hash {
    map f | f in h && Wanted(f, name, namespace) :: h[f]
  }

  // ---- The simple model: a map from identities to objects ----

  datatype Ident = Ident(namespace: string, name: string)

  type View = map<Ident, string>

  predicate Plain(i: Ident) {
    ColonFree(i.namespace) && ColonFree(i.name)
  }

  function IdOf(item: Item): Ident {
    Ident(item.namespace, item.name)
  }

  function Latest(items: seq<Item>): View {
    if items == [] then map[]
    else
      var n := |items| - 1;
      Latest(items[..n])[IdOf(items[n]) := items[n].body]
  }

  function After(v: View, e: Event): View {
    if e.Gone? then v - {IdOf(e.item)} else v[IdOf(e.item) := e.item.body]
  }

  // No filter and an empty one let everything through.
  predicate Passes(filter: Option<string>, s: string) {
    filter == None || filter == Some("") || filter == Some(s)
  }

  function Matching(v: View, name: Option<string>, namespace: Option<string>): View {
    map i | i in v && Passes(name, i.name) && Passes(namespace, i.namespace) :: v[i]
  }

  // The hash holds exactly the view's objects, under their fields.
  ghost predicate Holds(h: Hash, v: View) {
    && (forall i :: i in v ==> Plain(i) && Field(i.namespace, i.name) in h && h[Field(i.namespace, i.name)] == v[i])
    && (forall f :: f in h ==> exists i :: i in v && f == Field(i.namespace, i.name))
  }

  lemma FieldsDistinct(i: Ident, j: Ident)
    requires Plain(i) && Plain(j) && Field(i.namespace, i.name) == Field(j.namespace, j.name)
    ensures i == j
  {
    FieldSplitsBackIff(i.namespace, i.name);
    FieldSplitsBackIff(j.namespace, j.name);
  }

  lemma HoldsStore(h: Hash, v: View, i: Ident, body: string)
    requires Holds(h, v) && Plain(i)
    ensures Holds(h[Field(i.namespace, i.name) := body], v[i := body])
  {
    var g, u := h[Field(i.namespace, i.name) := body], v[i := body];
    forall j | j in u ensures Plain(j) && Field(j.namespace, j.name) in g && g[Field(j.namespace, j.name)] == u[j] {
      if Field(j.namespace, j.name) == Field(i.namespace, i.name) {
        FieldsDistinct(i, j);
      }
    }
    forall f | f in g ensures exists j :: j in u && f == Field(j.namespace, j.name) {
      if f == Field(i.namespace, i.name) {
        assert i in u;
      } else {
        var j :| j in v && f == Field(j.namespace, j.name);
        assert j in u;
      }
    }
  }

  lemma HoldsDelete(h: Hash, v: View, i: Ident)
    requires Holds(h, v) && Plain(i)
    ensures Holds(h - {Field(i.namespace, i.name)}, v - {i})
  {
    var g, u := h - {Field(i.namespace, i.name)}, v - {i};
    forall j | j in u ensures Field(j.namespace, j.name) in g {
      if Field(j.namespace, j.name) == Field(i.namespace, i.name) {
        FieldsDistinct(i, j);
      }
    }
    forall f | f in g ensures exists j :: j in u && f == Field(j.namespace, j.name) {
      var j :| j in v && f == Field(j.namespace, j.name);
      assert j in u;
    }
  }

  function ToHash(items: seq<Item>): Hash {
    if items == [] then map[]
    else
      var n := |items| - 1;
      ToHash(items[..n])[Field(items[n].namespace, items[n].name) := items[n].body]
  }

  ghost predicate PlainItems(items: seq<Item>) {
    forall x :: x in items ==> Plain(IdOf(x))
  }

  lemma AddLast(h: Hash, g: Hash, f: string, v: View, u: View, i: Ident, body: string)
    ensures h + g[f := body] == (h + g)[f := body]
    ensures v + u[i := body] == (v + u)[i := body]
  {
  }

  lemma {:induction false} HoldsItems(h: Hash, v: View, items: seq<Item>)
    requires Holds(h, v) && PlainItems(items)
    ensures Holds(h + ToHash(items), v + Latest(items))
  {
    if items == [] {
      assert h + ToHash(items) == h && v + Latest(items) == v;
    } else {
      var init, x := items[..|items| - 1], items[|items| - 1];
      assert x in items;
      HoldsItems(h, v, init);
      HoldsStore(h + ToHash(init), v + Latest(init), IdOf(x), x.body);
      AddLast(h, ToHash(init), Field(x.namespace, x.name), v, Latest(init), IdOf(x), x.body);
    }
  }

  /** Filtering the stored fields is filtering the objects they stand for. */
  lemma FilterMeansMatching(h: Hash, v: View, name: Option<string>, namespace: Option<string>)
    requires Holds(h, v)
    ensures Holds(Filter(h, name, namespace), Matching(v, name, namespace))
  {
    forall i | i in v
      ensures Wanted(Field(i.namespace, i.name), name, namespace) <==>
                Passes(name, i.name) && Passes(namespace, i.namespace)
    {
      FieldSplitsBackIff(i.namespace, i.name);
    }
    forall f | f in Filter(h, name, namespace)
      ensures exists i :: i in Matching(v, name, namespace) && f == Field(i.namespace, i.name)
    {
      var i :| i in v && f == Field(i.namespace, i.name);
      assert i in Matching(v, name, namespace);
    }
  }

  // ---- Operations on the whole cache ----

  datatype Op =
    | SetResources(cluster: string, resources: Resources)
    | Update(cluster: string, kind: Kind, event: Event)
    | Clear(cluster: string, withNodes: bool)

  type Views = map<(string, Kind), View>

  function Shown(vs: Views, key: (string, Kind)): View {
    if key in vs then vs[key] else map[]
  }

  predicate Clears(kind: Kind, withNodes: bool) {
    withNodes || !kind.NodeKind?
  }

  // What each operation should do, type by type: a snapshot replaces every one but nodes, which it adds to.
  function Expected(vs: Views, op: Op, key: (string, Kind)): View {
    if op.cluster != key.0 then Shown(vs, key)
    else match op
      case SetResources(_, r) => (
        match key.1
        case NodeKind => Shown(vs, key) + Latest(r.nodes)
        case DeploymentKind => Latest(r.deployments)
        case ServiceKind => Latest(r.services)
        case PodKind => Latest(r.pods)
        case JobKind => Latest(r.jobs))
      case Update(_, kind, e) => if kind == key.1 then After(Shown(vs, key), e) else Shown(vs, key)
      case Clear(_, withNodes) => if key.1 == NodeKind && !withNodes then Shown(vs, key) else map[]
  }

  function Cleared(s: Store, cluster: string, withNodes: bool): Store {
    map key | key in s && !(key.0 == cluster && Clears(key.1, withNodes)) :: s[key]
  }

  function WriteKinds(s: Store, cluster: string, r: Resources, kinds: seq<Kind>): Store
    decreases |kinds|
  {
    if kinds == [] then s
    else
      var t := if r.Of(kinds[0]) == [] then s else HSet(s, (cluster, kinds[0]), ToHash(r.Of(kinds[0])));
      WriteKinds(t, cluster, r, kinds[1..])
  }

  function Apply(s: Store, op: Op): Store {
    match op
    case SetResources(cluster, r) => WriteKinds(Cleared(s, cluster, false), cluster, r, WRITE_ORDER)
    case Update(cluster, kind, e) =>
      if e.Gone? then HDel(s, (cluster, kind), Field(e.item.namespace, e.item.name))
      else HSet(s, (cluster, kind), map[Field(e.item.namespace, e.item.name) := e.item.body])
    case Clear(cluster, withNodes) => Cleared(s, cluster, withNodes)
  }

  /** The client, changing the hashes in place. */
  class Client {
    var hashes: Store

    method ClearClusterResources(cluster: string, withNodes: bool)
      modifies this
      ensures hashes == Apply(old(hashes), Clear(cluster, withNodes))
    {
      for i := 0 to |CLEAR_ORDER|
        invariant forall key :: key in hashes <==>
                    key in old(hashes) && !(key.0 == cluster && key.1 in CLEAR_ORDER[..i] && Clears(key.1, withNodes))
        invariant forall key :: key in hashes ==> hashes[key] == old(hashes)[key]
      {
        var kind := CLEAR_ORDER[i];
        assert CLEAR_ORDER[..i + 1] == CLEAR_ORDER[..i] + [kind];
        if kind.NodeKind? && !withNodes {
          continue;
        }
        hashes := hashes - {(cluster, kind)};
      }
      assert CLEAR_ORDER[..5] == CLEAR_ORDER;
      forall k: Kind ensures k in CLEAR_ORDER {
        assert k == CLEAR_ORDER[0] || k == CLEAR_ORDER[1] || k == CLEAR_ORDER[2] || k == CLEAR_ORDER[3]
            || k == CLEAR_ORDER[4];
      }
      assert hashes == Cleared(old(hashes), cluster, withNodes);
    }

    method SetClusterResources(cluster: string, r: Resources)
      modifies this
      ensures hashes == Apply(old(hashes), SetResources(cluster, r))
    {
      ClearClusterResources(cluster, false);
      ghost var cleared := hashes;
      for i := 0 to |WRITE_ORDER|
        invariant WriteKinds(hashes, cluster, r, WRITE_ORDER[i..]) == WriteKinds(cleared, cluster, r, WRITE_ORDER)
      {
        var kind := WRITE_ORDER[i];
        assert WRITE_ORDER[i..][1..] == WRITE_ORDER[i + 1..];
        if r.Of(kind) != [] {
          var fields := BuildFields(r.Of(kind));
          hashes := HSet(hashes, (cluster, kind), fields);
        }
      }
    }

    static method BuildFields(items: seq<Item>) returns (fields: Hash)
      ensures fields == ToHash(items)
    {
      fields := map[];
      for i := 0 to |items|
        invariant fields == ToHash(items[..i])
      {
        assert items[..i + 1][..i] == items[..i];
        fields := fields[Field(items[i].namespace, items[i].name) := items[i].body];
      }
      assert items[..|items|] == items;
    }

    method UpdateResource(cluster: string, kind: Kind, e: Event)
      modifies this
      ensures hashes == Apply(old(hashes), Update(cluster, kind, e))
    {
      var field := Field(e.item.namespace, e.item.name);
      if e.Gone? {
        hashes := HDel(hashes, (cluster, kind), field);
      } else {
        hashes := HSet(hashes, (cluster, kind), map[field := e.item.body]);
      }
    }

    // One type of one cluster; the wildcard query is the union of these.
    method GetResources(cluster: string, kind: Kind, name: Option<string>, namespace: Option<string>)
      returns (found: Hash)
      requires forall f :: f in Read(hashes, (cluster, kind)) ==> |Split(f)| >= 2
      ensures found == Filter(Read(hashes, (cluster, kind)), name, namespace)
    {
      var h := Read(hashes, (cluster, kind));
      var left := h.Keys;
      found := map[];
      while left != {}
        invariant left <= h.Keys
        invariant found == Filter(h - left, name, namespace)
        decreases left
      {
        var f :| f in left;
        FilterOneMore(h, left, f, name, namespace);
        left := left - {f};
        var parts := Split(f);
        var skip := (Asks(name) && parts[1] != name.value) || (Asks(namespace) && parts[0] != namespace.value);
        if !skip {
          found := found[f := h[f]];
        }
      }
      assert h - {} == h;
    }
  }

  // Looking at one more field.
  lemma FilterOneMore(h: Hash, left: set<string>, f: string, name: Option<string>, namespace: Option<string>)
    requires f in left && f in h
    ensures Filter(h - (left - {f}), name, namespace)
         == if Wanted(f, name, namespace) then Filter(h - left, name, namespace)[f := h[f]]
            else Filter(h - left, name, namespace)
  {
  }

  // ---- Refinement over whole runs ----

  ghost predicate PlainOp(op: Op) {
    match op
    case SetResources(_, r) => forall k: Kind :: PlainItems(r.Of(k))
    case Update(_, _, e) => Plain(IdOf(e.item))
    case Clear(_, _) => true
  }

  lemma {:induction false} WriteKindsReads(s: Store, cluster: string, r: Resources, kinds: seq<Kind>,
                                           key: (string, Kind))
    requires forall i, j :: 0 <= i < j < |kinds| ==> kinds[i] != kinds[j]
    ensures Read(WriteKinds(s, cluster, r, kinds), key) ==
              if key.0 == cluster && key.1 in kinds then Read(s, key) + ToHash(r.Of(key.1)) else Read(s, key)
    decreases |kinds|
  {
    if kinds != [] {
      var t := if r.Of(kinds[0]) == [] then s else HSet(s, (cluster, kinds[0]), ToHash(r.Of(kinds[0])));
      WriteKindsReads(t, cluster, r, kinds[1..], key);
      assert kinds == [kinds[0]] + kinds[1..];
      assert r.Of(kinds[0]) == [] ==> Read(s, key) + ToHash(r.Of(kinds[0])) == Read(s, key);
    }
  }

  lemma WritesEveryKind(kind: Kind)
    ensures kind in WRITE_ORDER
  {
    assert kind == WRITE_ORDER[0] || kind == WRITE_ORDER[1] || kind == WRITE_ORDER[2] || kind == WRITE_ORDER[3]
        || kind == WRITE_ORDER[4];
  }

  // After a snapshot a hash is what the clearing left of it, with the snapshot's objects of its type added.
  lemma SnapshotReads(s: Store, cluster: string, r: Resources, kind: Kind)
    ensures Read(Apply(s, SetResources(cluster, r)), (cluster, kind))
         == Read(Cleared(s, cluster, false), (cluster, kind)) + ToHash(r.Of(kind))
  {
    WritesEveryKind(kind);
    WriteKindsReads(Cleared(s, cluster, false), cluster, r, WRITE_ORDER, (cluster, kind));
  }

  lemma SnapshotRefines(s: Store, v: View, cluster: string, r: Resources, kind: Kind)
    requires PlainItems(r.Of(kind)) && Holds(Read(s, (cluster, kind)), v)
    ensures Holds(Read(Apply(s, SetResources(cluster, r)), (cluster, kind)),
                  (if Clears(kind, false) then map[] else v) + Latest(r.Of(kind)))
  {
    var h := Read(Cleared(s, cluster, false), (cluster, kind));
    SnapshotReads(s, cluster, r, kind);
    HoldsItems(h, if Clears(kind, false) then map[] else v, r.Of(kind));
  }

  lemma GoneRefines(s: Store, v: View, key: (string, Kind), item: Item)
    requires Plain(IdOf(item)) && Holds(Read(s, key), v)
    ensures Holds(Read(Apply(s, Update(key.0, key.1, Gone(item))), key), After(v, Gone(item)))
  {
    HoldsDelete(Read(s, key), v, IdOf(item));
  }

  lemma StoredRefines(s: Store, v: View, key: (string, Kind), item: Item)
    requires Plain(IdOf(item)) && Holds(Read(s, key), v)
    ensures Holds(Read(Apply(s, Update(key.0, key.1, Stored(item))), key), After(v, Stored(item)))
  {
    HSetReads(s, key, Field(item.namespace, item.name), item.body);
    HoldsStore(Read(s, key), v, IdOf(item), item.body);
  }

  lemma HSetReads(s: Store, key: (string, Kind), field: string, body: string)
    ensures Read(HSet(s, key, map[field := body]), key) == Read(s, key)[field := body]
  {
    assert Read(s, key) + map[field := body] == Read(s, key)[field := body];
  }

  lemma SetRefines(s: Store, vs: Views, cluster: string, r: Resources, kind: Kind)
    requires PlainItems(r.Of(kind)) && Holds(Read(s, (cluster, kind)), Shown(vs, (cluster, kind)))
    ensures Holds(Read(Apply(s, SetResources(cluster, r)), (cluster, kind)),
                  Expected(vs, SetResources(cluster, r), (cluster, kind)))
  {
    var v := Shown(vs, (cluster, kind));
    SnapshotRefines(s, v, cluster, r, kind);
    SnapshotExpected(v, r, kind);
    assert Expected(vs, SetResources(cluster, r), (cluster, kind))
        == (if Clears(kind, false) then map[] else v) + Latest(r.Of(kind));
  }

  lemma SnapshotExpected(v: View, r: Resources, kind: Kind)
    ensures (if Clears(kind, false) then map[] else v) + Latest(r.Of(kind))
         == match kind
            case NodeKind => v + Latest(r.nodes)
            case DeploymentKind => Latest(r.deployments)
            case ServiceKind => Latest(r.services)
            case PodKind => Latest(r.pods)
            case JobKind => Latest(r.jobs)
  {
    EmptyPlus(Latest(r.Of(kind)));
  }

  lemma EmptyPlus(v: View)
    ensures map[] + v == v
  {
  }

  lemma UpdateRefines(s: Store, vs: Views, kind: Kind, e: Event, key: (string, Kind))
    requires Plain(IdOf(e.item)) && Holds(Read(s, key), Shown(vs, key))
    ensures Holds(Read(Apply(s, Update(key.0, kind, e)), key), Expected(vs, Update(key.0, kind, e), key))
  {
    if kind == key.1 {
      if e.Gone? {
        GoneRefines(s, Shown(vs, key), key, e.item);
      } else {
        StoredRefines(s, Shown(vs, key), key, e.item);
      }
    }
  }

  lemma ClearRefines(s: Store, vs: Views, cluster: string, withNodes: bool, key: (string, Kind))
    requires Holds(Read(s, key), Shown(vs, key))
    ensures Holds(Read(Apply(s, Clear(cluster, withNodes)), key), Expected(vs, Clear(cluster, withNodes), key))
  {
  }

  // One operation moves the hash of every key as the simple model says.
  lemma StepRefines(s: Store, vs: Views, op: Op, key: (string, Kind))
    requires PlainOp(op) && Holds(Read(s, key), Shown(vs, key))
    ensures Holds(Read(Apply(s, op), key), Expected(vs, op, key))
  {
    if op.cluster != key.0 {
      OtherClustersUntouched(s, op, key);
    } else {
      match op
      case SetResources(cluster, r) => SetRefines(s, vs, cluster, r, key.1);
      case Update(cluster, kind, e) => UpdateRefines(s, vs, kind, e, key);
      case Clear(cluster, withNodes) => ClearRefines(s, vs, cluster, withNodes, key);
    }
  }

  function ApplyAll(s: Store, ops: seq<Op>): Store {
    if ops == [] then s else Apply(ApplyAll(s, ops[..|ops| - 1]), ops[|ops| - 1])
  }

  // The simple model's view of one key after the same operations, starting from an empty cache.
  function ViewAfter(ops: seq<Op>, key: (string, Kind)): View {
    if ops == [] then map[]
    else
      var n := |ops| - 1;
      Expected(map[key := ViewAfter(ops[..n], key)], ops[n], key)
  }

  /** After any run, a query by name and namespace returns exactly the matching objects of the simple model. */
  lemma {:induction false} CacheRefinesViews(ops: seq<Op>, key: (string, Kind), name: Option<string>,
                                            namespace: Option<string>)
    requires forall op :: op in ops ==> PlainOp(op)
    ensures Holds(Read(ApplyAll(map[], ops), key), ViewAfter(ops, key))
    ensures Holds(Filter(Read(ApplyAll(map[], ops), key), name, namespace),
                  Matching(ViewAfter(ops, key), name, namespace))
  {
    if ops != [] {
      var n := |ops| - 1;
      CacheRefinesViews(ops[..n], key, name, namespace);
      assert ops[n] in ops;
      StepRefines(ApplyAll(map[], ops[..n]), map[key := ViewAfter(ops[..n], key)], ops[n], key);
    }
    FilterMeansMatching(Read(ApplyAll(map[], ops), key), ViewAfter(ops, key), name, namespace);
  }

  /** No operation on one cluster changes what is stored for another. */
  lemma OtherClustersUntouched(s: Store, op: Op, key: (string, Kind))
    requires key.0 != op.cluster
    ensures Read(Apply(s, op), key) == Read(s, key)
  {
    if op.SetResources? {
      WriteKindsReads(Cleared(s, op.cluster, false), op.cluster, op.resources, WRITE_ORDER, key);
    }
  }

  // ---- Replaying a watch stream ----

  // A stream's deletion is passed on as such only once the object is really gone.
  datatype Notice = Deleted(item: Item) | Changed(item: Item)

  // What became of handling one notice: `Lost` when sending it failed, which the agent logs and skips.
  datatype Handling = ReallyGone | StillThere | Lost

  function Deliver(n: Notice, h: Handling): Option<Event> {
    if h.Lost? then None
    else if n.Deleted? && h.ReallyGone? then Some(Gone(n.item))
    else Some(Stored(n.item))
  }

  function Key(n: Notice): string {
    Field(n.item.namespace, n.item.name)
  }

  function AfterNotice(h: Hash, n: Notice, how: Handling): Hash {
    match Deliver(n, how)
    case None => h
    case Some(Gone(_)) => h - {Key(n)}
    case Some(Stored(_)) => h[Key(n) := n.item.body]
  }

  /** A notice removes its object only when it is a deletion and the object is really gone; otherwise it stores it, and
      a lost one does nothing. */
  lemma NoticeFacts(h: Hash, n: Notice, how: Handling)
    ensures AfterNotice(h, n, how)
         == if how == Lost then h
            else if n.Deleted? && how == ReallyGone then h - {Field(n.item.namespace, n.item.name)}
            else h[Field(n.item.namespace, n.item.name) := n.item.body]
  {
  }

  // Handling the first `k` notices of a stream; `how` says what happened to each.
  function Handle(h: Hash, stream: seq<Notice>, how: seq<Handling>, k: nat): Hash
    requires k <= |stream| && |stream| == |how|
  {
    if k == 0 then h else AfterNotice(Handle(h, stream, how, k - 1), stream[k - 1], how[k - 1])
  }

  // Attempts that broke off, each from the same resource version, one after the other.
  datatype Attempt = Attempt(how: seq<Handling>, reached: nat)

  predicate Fits(stream: seq<Notice>, a: Attempt) {
    |a.how| == |stream| && a.reached <= |stream|
  }

  function HandleAll(h: Hash, stream: seq<Notice>, attempts: seq<Attempt>): Hash
    requires forall a :: a in attempts ==> Fits(stream, a)
  {
    if attempts == [] then h
    else
      var n := |attempts| - 1;
      assert attempts[n] in attempts && Fits(stream, attempts[n]);
      Handle(HandleAll(h, stream, attempts[..n]), stream, attempts[n].how, attempts[n].reached)
  }

  // Two hashes agree away from the stream's fields.
  ghost predicate AgreeOff(g: Hash, h: Hash, stream: seq<Notice>) {
    forall f | (forall i :: 0 <= i < |stream| ==> Key(stream[i]) != f) ::
      (f in g <==> f in h) && (f in g ==> g[f] == h[f])
  }

  lemma {:induction false} HandleAgreesOff(h: Hash, stream: seq<Notice>, how: seq<Handling>, k: nat)
    requires k <= |stream| && |stream| == |how|
    ensures AgreeOff(Handle(h, stream, how, k), h, stream)
  {
    if k > 0 {
      HandleAgreesOff(h, stream, how, k - 1);
    }
  }

  lemma {:induction false} HandleAllAgreesOff(h: Hash, stream: seq<Notice>, attempts: seq<Attempt>)
    requires forall a :: a in attempts ==> Fits(stream, a)
    ensures AgreeOff(HandleAll(h, stream, attempts), h, stream)
  {
    if attempts != [] {
      var n := |attempts| - 1;
      HandleAllAgreesOff(h, stream, attempts[..n]);
      assert attempts[n] in attempts;
      HandleAgreesOff(HandleAll(h, stream, attempts[..n]), stream, attempts[n].how, attempts[n].reached);
    }
  }

  // Handled fields no longer depend on where the handling started.
  lemma {:induction false} HandledFieldsAgree(g: Hash, h: Hash, stream: seq<Notice>, how: seq<Handling>, k: nat)
    requires k <= |stream| && |stream| == |how| && Lost !in how
    ensures forall i :: 0 <= i < k ==>
              var f := Key(stream[i]);
              var a, b := Handle(g, stream, how, k), Handle(h, stream, how, k);
              (f in a <==> f in b) && (f in a ==> a[f] == b[f])
  {
    if k > 0 {
      HandledFieldsAgree(g, h, stream, how, k - 1);
      assert how[k - 1] in how;
    }
  }

  // A field outside the stream keeps the value it started with.
  lemma {:induction false} UnhandledFieldsKept(h: Hash, stream: seq<Notice>, how: seq<Handling>, k: nat, f: string)
    requires k <= |stream| && |stream| == |how|
    requires forall i :: 0 <= i < |stream| ==> Key(stream[i]) != f
    ensures f in Handle(h, stream, how, k) <==> f in h
    ensures f in h ==> Handle(h, stream, how, k)[f] == h[f]
  {
    if k > 0 {
      UnhandledFieldsKept(h, stream, how, k - 1, f);
    }
  }

  // Wherever the stream's own fields start from.
  lemma ReplayFrom(g: Hash, h: Hash, stream: seq<Notice>, how: seq<Handling>)
    requires AgreeOff(g, h, stream) && |how| == |stream| && Lost !in how
    ensures Handle(g, stream, how, |stream|) == Handle(h, stream, how, |stream|)
  {
    var a, b := Handle(g, stream, how, |stream|), Handle(h, stream, how, |stream|);
    HandledFieldsAgree(g, h, stream, how, |stream|);
    forall f ensures (f in a <==> f in b) && (f in a ==> a[f] == b[f]) {
      if forall i :: 0 <= i < |stream| ==> Key(stream[i]) != f {
        UnhandledFieldsKept(g, stream, how, |stream|, f);
        UnhandledFieldsKept(h, stream, how, |stream|, f);
      }
    }
    assert a == b;
  }

  /** Replaying is harmless: after any number of broken-off attempts, whatever they lost or found still there,
      a replay that loses nothing leaves the cache as if it had been the only one. */
  lemma ReplayHarmless(h: Hash, stream: seq<Notice>, attempts: seq<Attempt>, how: seq<Handling>)
    requires forall a :: a in attempts ==> Fits(stream, a)
    requires |how| == |stream| && Lost !in how
    ensures Handle(HandleAll(h, stream, attempts), stream, how, |stream|) == Handle(h, stream, how, |stream|)
  {
    HandleAllAgreesOff(h, stream, attempts);
    ReplayFrom(HandleAll(h, stream, attempts), h, stream, how);
  }

  // ---- Deletions reported in the background ----

  // What reaches the cache, in order: handled notices, and the deletions that a background task reports once an object
  // found still there is gone.
  datatype Send = Sent(n: Notice, how: Handling) | Reaped(field: string)

  function FieldOf(s: Send): string {
    match s
    case Sent(n, _) => Key(n)
    case Reaped(f) => f
  }

  function AfterSend(h: Hash, s: Send): Hash {
    match s
    case Sent(n, how) => AfterNotice(h, n, how)
    case Reaped(f) => h - {f}
  }

  function Play(h: Hash, log: seq<Send>): Hash
    decreases |log|
  {
    if log == [] then h else AfterSend(Play(h, log[..|log| - 1]), log[|log| - 1])
  }

  function Notices(log: seq<Send>): seq<Send>
    decreases |log|
  {
    if log == [] then []
    else Notices(log[..|log| - 1]) + if log[|log| - 1].Sent? then [log[|log| - 1]] else []
  }

  // The fields whose last word was a background deletion.
  function Late(log: seq<Send>): set<string>
    decreases |log|
  {
    if log == [] then {}
    else
      var before := Late(log[..|log| - 1]);
      match log[|log| - 1]
      case Sent(n, how) => if how.Lost? then before else before - {Key(n)}
      case Reaped(f) => before + {f}
  }

  lemma SendLess(h: Hash, late: set<string>, n: Notice, how: Handling)
    ensures AfterNotice(h - late, n, how) == AfterNotice(h, n, how) - if how.Lost? then late else late - {Key(n)}
  {
  }

  lemma {:induction false} PlayLessLate(h: Hash, log: seq<Send>)
    ensures Play(h, log) == Play(h, Notices(log)) - Late(log)
    decreases |log|
  {
    if log != [] {
      var init, s := log[..|log| - 1], log[|log| - 1];
      PlayLessLate(h, init);
      match s
      case Sent(n, how) =>
        SendLess(Play(h, Notices(init)), Late(init), n, how);
        assert (Notices(init) + [s])[..|Notices(init)|] == Notices(init);
      case Reaped(f) =>
        assert Notices(log) == Notices(init);
    }
  }

  // A stream handled to its end, as a log.
  function AsLog(stream: seq<Notice>, how: seq<Handling>, k: nat): seq<Send>
    requires k <= |stream| == |how|
  {
    seq(k, i requires 0 <= i < k => Sent(stream[i], how[i]))
  }

  lemma {:induction false} PlayIsHandle(h: Hash, stream: seq<Notice>, how: seq<Handling>, k: nat)
    requires k <= |stream| == |how|
    ensures Play(h, AsLog(stream, how, k)) == Handle(h, stream, how, k)
  {
    if k > 0 {
      PlayIsHandle(h, stream, how, k - 1);
      assert AsLog(stream, how, k)[..k - 1] == AsLog(stream, how, k - 1);
    }
  }

  lemma {:induction false} PlayAgreesOff(h: Hash, log: seq<Send>, stream: seq<Notice>)
    requires forall s :: s in log ==> exists i :: 0 <= i < |stream| && Key(stream[i]) == FieldOf(s)
    ensures AgreeOff(Play(h, log), h, stream)
    decreases |log|
  {
    if log != [] {
      assert log[|log| - 1] in log;
      PlayAgreesOff(h, log[..|log| - 1], stream);
    }
  }

  /** With background deletions anywhere, before the replay and during it, the replay leaves what the stream handled
      once leaves, less the fields whose last word was such a deletion: the same cache exactly when none of those
      holds an object that the stream's last notice of it stored. */
  lemma ReplayWithDeletionsIff(h: Hash, earlier: seq<Send>, log: seq<Send>, stream: seq<Notice>, how: seq<Handling>)
    requires forall s :: s in earlier ==> exists i :: 0 <= i < |stream| && Key(stream[i]) == FieldOf(s)
    requires |how| == |stream| && Lost !in how && Notices(log) == AsLog(stream, how, |stream|)
    ensures
      var once := Handle(h, stream, how, |stream|);
      && Play(Play(h, earlier), log) == once - Late(log)
      && (Play(Play(h, earlier), log) == once <==> Late(log) !! once.Keys)
  {
    var g := Play(h, earlier);
    PlayAgreesOff(h, earlier, stream);
    PlayLessLate(g, log);
    PlayIsHandle(g, stream, how, |stream|);
    ReplayFrom(g, h, stream, how);
    NothingTaken(Handle(h, stream, how, |stream|), Late(log));
  }

  lemma NothingTaken(h: Hash, fields: set<string>)
    ensures h - fields == h <==> fields !! h.Keys
  {
    assert h - fields == h ==> fields !! (h - fields).Keys;
  }

  /** The race between the background task's last look and its report: an object that was found still there, then gone,
      and meanwhile created anew, is in the cache after one processing and missing after the replay. */
  lemma LateDeletionDrops(x: Item, h: Hash)
    ensures
      var stream, how := [Deleted(x), Changed(x)], [StillThere, StillThere];
      var log := [Sent(Deleted(x), StillThere), Sent(Changed(x), StillThere), Reaped(Field(x.namespace, x.name))];
      && Notices(log) == AsLog(stream, how, 2)
      && Field(x.namespace, x.name) in Handle(h, stream, how, 2)
      && Field(x.namespace, x.name) !in Play(h, log)
  {
    var stream, how := [Deleted(x), Changed(x)], [StillThere, StillThere];
    var first, second := Sent(Deleted(x), StillThere), Sent(Changed(x), StillThere);
    var sent := [first, second];
    var log := sent + [Reaped(Field(x.namespace, x.name))];
    assert log == [first, second, Reaped(Field(x.namespace, x.name))];
    assert log[..2] == sent && sent[..1] == [first] && [first][..0] == [];
    assert Notices([first]) == [first];
    assert Notices(sent) == [first] + [second];
    assert AsLog(stream, how, 2) == sent;
    assert Handle(h, stream, how, 2) == AfterNotice(Handle(h, stream, how, 1), Changed(x), StillThere);
  }
}
