/** The multi-cluster kubeconfig: three lists of named entries that refer to each other by name, merged
    replace-to-end, with removal that collects orphans, a current context, and a printer and parser. */
module KubeConfigs {
  import opened Options

  // What a YAML document holds.
  datatype Value =
    | Null
    | Flag(on: bool)
    | Text(text: string)
    | Items(items: seq<Value>)
    | Table(entries: map<string, Value>)

  datatype Named<+T> = Named(name: string, body: T)

  datatype ClusterBody = ClusterBody(server: Value, authority: Value, insecure: Value)
  datatype UserBody = UserBody(token: Value, certificate: Value, key: Value, username: Value, password: Value)
  // A context carries the cluster and user objects themselves, which may be older than the listed ones.
  datatype ContextBody = ContextBody(cluster: Named<ClusterBody>, user: Named<UserBody>, namespace: Value)

  type Cluster = Named<ClusterBody>
  type User = Named<UserBody>
  type Context = Named<ContextBody>

  datatype Config = Config(
    apiVersion: Value, kind: Value, current: Option<string>, preferences: Value,
    clusters: seq<Cluster>, contexts: seq<Context>, users: seq<User>)

  const EMPTY := Config(Text("v1"), Text("Config"), None, Table(map[]), [], [], [])

  // ---- Lists of named entries ----

  predicate Has<T>(xs: seq<Named<T>>, name: string) {
    exists i :: 0 <= i < |xs| && xs[i].name == name
  }

  predicate Unique<T>(xs: seq<Named<T>>) {
    forall i, j :: 0 <= i < j < |xs| ==> xs[i].name != xs[j].name
  }

  // `next((x for x in xs if x.name == name), None)`
  function First<T>(xs: seq<Named<T>>, name: string): Option<Named<T>> {
    if xs == [] then None else if xs[0].name == name then Some(xs[0]) else First(xs[1..], name)
  }

  // What `{x.name: x for x in xs}` holds under a name.
  function Last<T>(xs: seq<Named<T>>, name: string): Option<Named<T>> {
    if xs == [] then None else if xs[|xs| - 1].name == name then Some(xs[|xs| - 1]) else Last(xs[..|xs| - 1], name)
  }

  function Without<T>(xs: seq<Named<T>>, names: set<string>): seq<Named<T>> {
    if xs == [] then []
    else if xs[0].name in names then Without(xs[1..], names)
    else [xs[0]] + Without(xs[1..], names)
  }

  // Replace-to-end.
  function Put<T>(xs: seq<Named<T>>, x: Named<T>): seq<Named<T>> {
    Without(xs, {x.name}) + [x]
  }

  function PutAll<T>(xs: seq<Named<T>>, ys: seq<Named<T>>): seq<Named<T>>
    decreases |ys|
  {
    if ys == [] then xs else Put(PutAll(xs, ys[..|ys| - 1]), ys[|ys| - 1])
  }

  function Names<T>(xs: seq<Named<T>>): set<string> {
    set i | 0 <= i < |xs| :: xs[i].name
  }

  lemma {:induction false} WithoutAppend<T>(xs: seq<Named<T>>, ys: seq<Named<T>>, names: set<string>)
    ensures Without(xs + ys, names) == Without(xs, names) + Without(ys, names)
  {
    if xs == [] {
      assert xs + ys == ys;
    } else {
      WithoutAppend(xs[1..], ys, names);
      assert (xs + ys)[0] == xs[0] && (xs + ys)[1..] == xs[1..] + ys;
      var rest, more := Without(xs[1..], names), Without(ys, names);
      assert [xs[0]] + (rest + more) == [xs[0]] + rest + more;
    }
  }

  lemma {:induction false} WithoutTwice<T>(xs: seq<Named<T>>, a: set<string>, b: set<string>)
    ensures Without(Without(xs, a), b) == Without(xs, a + b)
  {
    if xs != [] {
      WithoutTwice(xs[1..], a, b);
      var rest := Without(xs[1..], a);
      assert ([xs[0]] + rest)[1..] == rest;
    }
  }

  // Nothing goes when no name is listed; everything goes when all are.
  lemma {:induction false} WithoutExtremes<T>(xs: seq<Named<T>>, names: set<string>)
    ensures Names(xs) !! names ==> Without(xs, names) == xs
    ensures Names(xs) <= names ==> Without(xs, names) == []
  {
    if xs != [] {
      assert xs[0].name in Names(xs);
      assert Names(xs[1..]) <= Names(xs) by {
        assert forall i :: 0 <= i < |xs| - 1 ==> xs[1..][i] == xs[i + 1];
      }
      WithoutExtremes(xs[1..], names);
    }
  }

  lemma {:induction false} WithoutShorter<T>(xs: seq<Named<T>>, names: set<string>)
    ensures |Without(xs, names)| <= |xs|
    ensures Without(xs, names) == xs ==> Names(xs) !! names
    ensures forall i :: 0 <= i < |Without(xs, names)| ==> Without(xs, names)[i] in xs
    ensures forall i :: 0 <= i < |Without(xs, names)| ==> Without(xs, names)[i].name !in names
    ensures forall x :: x in xs && x.name !in names ==> x in Without(xs, names)
  {
    if xs != [] {
      WithoutShorter(xs[1..], names);
      assert xs == [xs[0]] + xs[1..];
      if Without(xs, names) == xs {
        assert Without(xs, names)[1..] == xs[1..];
        assert forall i :: 0 < i < |xs| ==> xs[i] == xs[1..][i - 1];
        assert forall i :: 0 < i < |xs| ==> xs[i].name in Names(xs[1..]);
      }
    }
  }

  lemma {:induction false} WithoutUnique<T>(xs: seq<Named<T>>, names: set<string>)
    requires Unique(xs)
    ensures Unique(Without(xs, names))
  {
    if xs != [] {
      WithoutUnique(xs[1..], names);
      WithoutShorter(xs[1..], names);
      var rest := Without(xs[1..], names);
      forall j | 0 <= j < |rest| ensures rest[j].name != xs[0].name {
        assert rest[j] in xs[1..];
      }
    }
  }

  lemma PutUnique<T>(xs: seq<Named<T>>, x: Named<T>)
    requires Unique(xs)
    ensures Unique(Put(xs, x))
  {
    WithoutUnique(xs, {x.name});
    WithoutShorter(xs, {x.name});
    assert forall j :: 0 <= j < |Without(xs, {x.name})| ==> Without(xs, {x.name})[j].name !in {x.name};
  }

  lemma PutNames<T>(xs: seq<Named<T>>, x: Named<T>)
    ensures forall n :: Has(Put(xs, x), n) <==> Has(xs, n) || n == x.name
  {
    WithoutShorter(xs, {x.name});
    var ys := Put(xs, x);
    assert ys[|ys| - 1] == x;
    forall n | Has(xs, n) ensures Has(ys, n) {
      var i :| 0 <= i < |xs| && xs[i].name == n;
      if n != x.name {
        assert xs[i] in Without(xs, {x.name});
        assert xs[i] in ys;
      }
    }
    forall n | Has(ys, n) ensures Has(xs, n) || n == x.name {
      var i :| 0 <= i < |ys| && ys[i].name == n;
      if i < |ys| - 1 {
        assert ys[i] in Without(xs, {x.name});
      }
    }
  }

  lemma {:induction false} PutAllUnique<T>(xs: seq<Named<T>>, ys: seq<Named<T>>)
    requires Unique(xs)
    ensures Unique(PutAll(xs, ys))
    decreases |ys|
  {
    if ys != [] {
      PutAllUnique(xs, ys[..|ys| - 1]);
      PutUnique(PutAll(xs, ys[..|ys| - 1]), ys[|ys| - 1]);
    }
  }

  lemma NamesSnoc<T>(xs: seq<Named<T>>, x: Named<T>)
    ensures Names(xs + [x]) == Names(xs) + {x.name}
  {
    var ys := xs + [x];
    assert forall i :: 0 <= i < |xs| ==> ys[i] == xs[i];
    assert ys[|xs|] == x;
    assert forall i :: 0 <= i < |xs| ==> ys[i].name in Names(ys);
    assert forall i :: 0 <= i < |ys| ==> ys[i].name in Names(xs) + {x.name};
  }

  // What was there and is not renewed keeps its place in front; the renewed entries follow in their own order.
  lemma {:induction false} PutAllShape<T>(xs: seq<Named<T>>, ys: seq<Named<T>>)
    ensures PutAll(xs, ys) == Without(xs, Names(ys)) + PutAll([], ys)
    decreases |ys|
  {
    if ys == [] {
      WithoutExtremes(xs, Names(ys));
    } else {
      var front, y := ys[..|ys| - 1], ys[|ys| - 1];
      PutAllShape(xs, front);
      NamesSnoc(front, y);
      assert front + [y] == ys;
      WithoutAppend(Without(xs, Names(front)), PutAll([], front), {y.name});
      WithoutTwice(xs, Names(front), {y.name});
    }
  }

  lemma {:induction false} PutAllNames<T>(ys: seq<Named<T>>)
    ensures Names(PutAll([], ys)) <= Names(ys)
    decreases |ys|
  {
    if ys != [] {
      var front, y := ys[..|ys| - 1], ys[|ys| - 1];
      PutAllNames(front);
      NamesSnoc(front, y);
      assert front + [y] == ys;
      var tail := PutAll([], front);
      var kept := Without(tail, {y.name});
      NamesSnoc(kept, y);
      WithoutShorter(tail, {y.name});
      forall n | n in Names(kept) ensures n in Names(tail) {
        var i :| 0 <= i < |kept| && kept[i].name == n;
        assert kept[i] in tail;
      }
    }
  }

  lemma PutAllTwice<T>(xs: seq<Named<T>>, ys: seq<Named<T>>)
    ensures PutAll(PutAll(xs, ys), ys) == PutAll(xs, ys)
  {
    var kept, names := Without(xs, Names(ys)), Names(ys);
    PutAllShape(xs, ys);
    PutAllShape(PutAll(xs, ys), ys);
    WithoutAppend(kept, PutAll([], ys), names);
    WithoutTwice(xs, names, names);
    assert names + names == names;
    PutAllNames(ys);
    WithoutExtremes(PutAll([], ys), names);
  }

  lemma {:induction false} PutAllAppend<T>(xs: seq<Named<T>>, ys: seq<Named<T>>, zs: seq<Named<T>>)
    ensures PutAll(PutAll(xs, ys), zs) == PutAll(xs, ys + zs)
    decreases |zs|
  {
    if zs == [] {
      assert ys + zs == ys;
    } else {
      PutAllAppend(xs, ys, zs[..|zs| - 1]);
      assert (ys + zs)[..|ys + zs| - 1] == ys + zs[..|zs| - 1];
    }
  }

  // ---- Configs ----

  predicate Truthy(name: Option<string>) {
    name.Some? && name.value != ""
  }

  function ClustersOf(xs: seq<Context>): seq<Cluster> {
    seq(|xs|, i requires 0 <= i < |xs| => xs[i].body.cluster)
  }

  function UsersOf(xs: seq<Context>): seq<User> {
    seq(|xs|, i requires 0 <= i < |xs| => xs[i].body.user)
  }

  function FirstName(xs: seq<Context>): Option<string> {
    if xs == [] then None else Some(xs[0].name)
  }

  function AddContext(c: Config, x: Context): Config {
    c.(contexts := Put(c.contexts, x),
       clusters := Put(c.clusters, x.body.cluster),
       users := Put(c.users, x.body.user),
       current := if Truthy(c.current) then c.current else Some(x.name))
  }

  function AddContexts(c: Config, xs: seq<Context>): Config
    decreases |xs|
  {
    if xs == [] then c else AddContext(AddContexts(c, xs[..|xs| - 1]), xs[|xs| - 1])
  }

  function Merged(c: Config, o: Config): Config {
    AddContexts(c.(clusters := PutAll(c.clusters, o.clusters), users := PutAll(c.users, o.users)), o.contexts)
  }

  function Removed(c: Config, name: string): Config {
    match First(c.contexts, name)
    case None => c
    case Some(x) =>
      var rest := Without(c.contexts, {name});
      var cluster, user := x.body.cluster.name, x.body.user.name;
      c.(contexts := rest,
         current := if c.current == Some(name) then FirstName(rest) else c.current,
         clusters := if Has(ClustersOf(rest), cluster) then c.clusters else Without(c.clusters, {cluster}),
         users := if Has(UsersOf(rest), user) then c.users else Without(c.users, {user}))
  }

  function Selected(c: Config, name: string): Config {
    if Has(c.contexts, name) then c.(current := Some(name)) else c
  }

  /** The config as the source changes it. */
  class KubeConfig {
    var apiVersion: Value
    var kind: Value
    var current: Option<string>
    var preferences: Value
    var clusters: seq<Cluster>
    var contexts: seq<Context>
    var users: seq<User>

    function Contents(): Config
      reads this
    {
      Config(apiVersion, kind, current, preferences, clusters, contexts, users)
    }

    constructor (c: Config)
      ensures Contents() == c
    {
      apiVersion, kind, current, preferences := c.apiVersion, c.kind, c.current, c.preferences;
      clusters, contexts, users := c.clusters, c.contexts, c.users;
    }

    method AddClusterEntry(x: Cluster)
      modifies `clusters
      ensures clusters == Put(old(clusters), x)
    {
      clusters := Without(clusters, {x.name});
      clusters := clusters + [x];
    }

    method AddUserEntry(x: User)
      modifies `users
      ensures users == Put(old(users), x)
    {
      users := Without(users, {x.name});
      users := users + [x];
    }

    method AddContextEntry(x: Context)
      modifies this
      ensures Contents() == AddContext(old(Contents()), x)
    {
      contexts := Without(contexts, {x.name});
      contexts := contexts + [x];
      AddClusterEntry(x.body.cluster);
      AddUserEntry(x.body.user);
      if !Truthy(current) {
        current := Some(x.name);
      }
    }

    method RemoveContext(name: string) returns (found: bool)
      modifies this
      ensures found <==> Has(old(contexts), name)
      ensures Contents() == Removed(old(Contents()), name)
    {
      var context := First(contexts, name);
      FirstFinds(contexts, name);
      if context.None? {
        return false;
      }
      var x := context.value;
      contexts := Without(contexts, {name});
      if current == Some(name) {
        current := FirstName(contexts);
      }
      if !Has(ClustersOf(contexts), x.body.cluster.name) {
        clusters := Without(clusters, {x.body.cluster.name});
      }
      if !Has(UsersOf(contexts), x.body.user.name) {
        users := Without(users, {x.body.user.name});
      }
      return true;
    }

    /** `other` may be the config itself. */
    method Merge(other: KubeConfig)
      modifies this
      ensures Contents() == Merged(old(Contents()), old(other.Contents()))
    {
      var theirs := other.clusters;
      for i := 0 to |theirs|
        invariant clusters == PutAll(old(clusters), theirs[..i])
        modifies `clusters
      {
        PutAllNext(old(clusters), theirs, i);
        AddClusterEntry(theirs[i]);
      }
      assert theirs[..|theirs|] == theirs;
      MergeUsers(other);
      MergeContexts(other.contexts);
    }

    method MergeUsers(other: KubeConfig)
      modifies `users
      ensures users == PutAll(old(users), old(other.users))
    {
      var theirs := other.users;
      for i := 0 to |theirs|
        invariant users == PutAll(old(users), theirs[..i])
      {
        PutAllNext(old(users), theirs, i);
        AddUserEntry(theirs[i]);
      }
      assert theirs[..|theirs|] == theirs;
    }

    method MergeContexts(theirs: seq<Context>)
      modifies this
      ensures Contents() == AddContexts(old(Contents()), theirs)
    {
      for i := 0 to |theirs|
        invariant Contents() == AddContexts(old(Contents()), theirs[..i])
      {
        AddContextEntry(theirs[i]);
        assert theirs[..i + 1][..i] == theirs[..i];
      }
      assert theirs[..|theirs|] == theirs;
    }
  }

  lemma PutAllNext<T>(xs: seq<Named<T>>, ys: seq<Named<T>>, i: nat)
    requires i < |ys|
    ensures PutAll(xs, ys[..i + 1]) == Put(PutAll(xs, ys[..i]), ys[i])
  {
    assert ys[..i + 1][..i] == ys[..i];
  }

  lemma {:induction false} FirstFinds<T>(xs: seq<Named<T>>, name: string)
    ensures First(xs, name).Some? <==> Has(xs, name)
    ensures First(xs, name).Some? ==> First(xs, name).value in xs && First(xs, name).value.name == name
  {
    if xs != [] {
      FirstFinds(xs[1..], name);
      assert forall i :: 0 < i < |xs| ==> xs[i] == xs[1..][i - 1];
    }
  }

  // ---- Merging ----

  function CurrentAfter(current: Option<string>, xs: seq<Context>): Option<string>
    decreases |xs|
  {
    if xs == [] then current
    else
      var before := CurrentAfter(current, xs[..|xs| - 1]);
      if Truthy(before) then before else Some(xs[|xs| - 1].name)
  }

  lemma {:induction false} AddContextsShape(c: Config, xs: seq<Context>)
    ensures AddContexts(c, xs)
         == c.(contexts := PutAll(c.contexts, xs), clusters := PutAll(c.clusters, ClustersOf(xs)),
               users := PutAll(c.users, UsersOf(xs)), current := CurrentAfter(c.current, xs))
    decreases |xs|
  {
    if xs != [] {
      var front := xs[..|xs| - 1];
      AddContextsShape(c, front);
      assert ClustersOf(xs)[..|xs| - 1] == ClustersOf(front);
      assert UsersOf(xs)[..|xs| - 1] == UsersOf(front);
    }
  }

  /** Each list is written once, in the order the other config and then its contexts mention the entries. */
  lemma MergedShape(c: Config, o: Config)
    ensures Merged(c, o)
         == c.(contexts := PutAll(c.contexts, o.contexts),
               clusters := PutAll(c.clusters, o.clusters + ClustersOf(o.contexts)),
               users := PutAll(c.users, o.users + UsersOf(o.contexts)),
               current := CurrentAfter(c.current, o.contexts))
  {
    AddContextsShape(c.(clusters := PutAll(c.clusters, o.clusters), users := PutAll(c.users, o.users)), o.contexts);
    PutAllAppend(c.clusters, o.clusters, ClustersOf(o.contexts));
    PutAllAppend(c.users, o.users, UsersOf(o.contexts));
  }

  // The first usable name wins; without one, the last name.
  lemma {:induction false} CurrentSettles(current: Option<string>, xs: seq<Context>)
    ensures Truthy(current) ==> CurrentAfter(current, xs) == current
    ensures xs != [] && !Truthy(CurrentAfter(current, xs)) ==>
              forall other :: !Truthy(other) ==> CurrentAfter(other, xs) == CurrentAfter(current, xs)
    decreases |xs|
  {
    if xs != [] {
      var front := xs[..|xs| - 1];
      CurrentSettles(current, front);
      forall other | !Truthy(CurrentAfter(current, xs)) && !Truthy(other)
        ensures CurrentAfter(other, xs) == CurrentAfter(current, xs)
      {
        assert front != [] ==> CurrentAfter(other, front) == CurrentAfter(current, front);
      }
    }
  }

  /** Merging the same config again changes nothing: same entries, same order, same current context. */
  lemma MergeIdempotent(c: Config, o: Config)
    ensures Merged(Merged(c, o), o) == Merged(c, o)
  {
    MergedShape(c, o);
    MergedShape(Merged(c, o), o);
    PutAllTwice(c.contexts, o.contexts);
    PutAllTwice(c.clusters, o.clusters + ClustersOf(o.contexts));
    PutAllTwice(c.users, o.users + UsersOf(o.contexts));
    CurrentSettles(c.current, o.contexts);
    CurrentSettles(CurrentAfter(c.current, o.contexts), o.contexts);
  }

  lemma {:induction false} FirstOfAppend<T>(xs: seq<Named<T>>, ys: seq<Named<T>>, name: string)
    ensures First(xs + ys, name) == if Has(xs, name) then First(xs, name) else First(ys, name)
  {
    if xs == [] {
      assert xs + ys == ys;
    } else {
      FirstOfAppend(xs[1..], ys, name);
      FirstFinds(xs, name);
      FirstFinds(xs[1..], name);
      assert (xs + ys)[1..] == xs[1..] + ys;
    }
  }

  lemma {:induction false} FirstWithout<T>(xs: seq<Named<T>>, names: set<string>, name: string)
    requires name !in names
    ensures First(Without(xs, names), name) == First(xs, name)
  {
    if xs != [] {
      FirstWithout(xs[1..], names, name);
      if xs[0].name in names {
        assert Without(xs, names) == Without(xs[1..], names);
      } else {
        assert Without(xs, names)[1..] == Without(xs[1..], names);
      }
    }
  }

  lemma {:induction false} PutAllFinds<T>(xs: seq<Named<T>>, ys: seq<Named<T>>, name: string)
    ensures First(PutAll(xs, ys), name) == if Last(ys, name).Some? then Last(ys, name) else First(xs, name)
    decreases |ys|
  {
    if ys != [] {
      var before, y := PutAll(xs, ys[..|ys| - 1]), ys[|ys| - 1];
      PutAllFinds(xs, ys[..|ys| - 1], name);
      if name == y.name {
        FirstOfPut(before, y);
      } else {
        FirstWithout(before, {y.name}, name);
        FirstFinds(before, name);
        FirstFinds(Without(before, {y.name}), name);
        FirstOfAppend(Without(before, {y.name}), [y], name);
      }
    }
  }

  function Either<T>(a: Option<T>, b: Option<T>): Option<T> {
    if a.Some? then a else b
  }

  /** What a name stands for after a merge: the other config's last word on it, where a context's own cluster and
      user come after the listed ones; otherwise what it stood for before. */
  lemma MergedFinds(c: Config, o: Config, name: string)
    ensures
      var m := Merged(c, o);
      var clusters, users := o.clusters + ClustersOf(o.contexts), o.users + UsersOf(o.contexts);
      && First(m.contexts, name) == Either(Last(o.contexts, name), First(c.contexts, name))
      && First(m.clusters, name) == Either(Last(clusters, name), First(c.clusters, name))
      && First(m.users, name) == Either(Last(users, name), First(c.users, name))
  {
    MergedShape(c, o);
    PutAllFinds(c.contexts, o.contexts, name);
    PutAllFinds(c.clusters, o.clusters + ClustersOf(o.contexts), name);
    PutAllFinds(c.users, o.users + UsersOf(o.contexts), name);
  }

  // Whether a context other than the named one refers to the cluster.
  ghost predicate OthersUseCluster(c: Config, name: string, cluster: string) {
    exists i :: 0 <= i < |c.contexts| && c.contexts[i].name != name && c.contexts[i].body.cluster.name == cluster
  }

  ghost predicate OthersUseUser(c: Config, name: string, user: string) {
    exists i :: 0 <= i < |c.contexts| && c.contexts[i].name != name && c.contexts[i].body.user.name == user
  }

  lemma RestUsesCluster(c: Config, name: string, other: string)
    ensures Has(ClustersOf(Without(c.contexts, {name})), other) <==> OthersUseCluster(c, name, other)
  {
    var rest := Without(c.contexts, {name});
    WithoutShorter(c.contexts, {name});
    if OthersUseCluster(c, name, other) {
      var i :| 0 <= i < |c.contexts| && c.contexts[i].name != name && c.contexts[i].body.cluster.name == other;
      assert c.contexts[i] in rest;
      var k :| 0 <= k < |rest| && rest[k] == c.contexts[i];
      assert ClustersOf(rest)[k].name == other;
    } else {
      forall k | 0 <= k < |rest| ensures ClustersOf(rest)[k].name != other {
        var i :| 0 <= i < |c.contexts| && c.contexts[i] == rest[k];
      }
    }
  }

  lemma RestUsesUser(c: Config, name: string, other: string)
    ensures Has(UsersOf(Without(c.contexts, {name})), other) <==> OthersUseUser(c, name, other)
  {
    var rest := Without(c.contexts, {name});
    WithoutShorter(c.contexts, {name});
    if OthersUseUser(c, name, other) {
      var i :| 0 <= i < |c.contexts| && c.contexts[i].name != name && c.contexts[i].body.user.name == other;
      assert c.contexts[i] in rest;
      var k :| 0 <= k < |rest| && rest[k] == c.contexts[i];
      assert UsersOf(rest)[k].name == other;
    } else {
      forall k | 0 <= k < |rest| ensures UsersOf(rest)[k].name != other {
        var i :| 0 <= i < |c.contexts| && c.contexts[i] == rest[k];
      }
    }
  }

  lemma WithoutFinds<T>(xs: seq<Named<T>>, name: string, other: string)
    ensures First(Without(xs, {name}), other) == if other == name then None else First(xs, other)
  {
    if other == name {
      WithoutShorter(xs, {name});
      FirstFinds(Without(xs, {name}), other);
    } else {
      FirstWithout(xs, {name}, other);
    }
  }

  /** A removal takes the context, and its cluster and user unless another context still uses them; every other name
      stands for what it stood for. */
  lemma RemovedFinds(c: Config, name: string, other: string)
    ensures
      var r, x := Removed(c, name), First(c.contexts, name);
      && First(r.contexts, other) == (if other == name then None else First(c.contexts, other))
      && First(r.clusters, other)
         == (if x.Some? && other == x.value.body.cluster.name && !OthersUseCluster(c, name, other) then None
             else First(c.clusters, other))
      && First(r.users, other)
         == (if x.Some? && other == x.value.body.user.name && !OthersUseUser(c, name, other) then None
             else First(c.users, other))
  {
    WithoutFinds(c.contexts, name, other);
    var x := First(c.contexts, name);
    if x.Some? {
      RestUsesCluster(c, name, x.value.body.cluster.name);
      RestUsesUser(c, name, x.value.body.user.name);
      WithoutFinds(c.clusters, x.value.body.cluster.name, other);
      WithoutFinds(c.users, x.value.body.user.name, other);
    }
  }

  // ---- Every run of merges, removals and selections ----

  datatype Event = MergeOther(other: Config) | RemoveByName(name: string) | SelectByName(name: string)

  function Next(c: Config, e: Event): Config {
    match e
    case MergeOther(o) => Merged(c, o)
    case RemoveByName(name) => Removed(c, name)
    case SelectByName(name) => Selected(c, name)
  }

  function Run(c: Config, es: seq<Event>): Config
    decreases |es|
  {
    if es == [] then c else Next(Run(c, es[..|es| - 1]), es[|es| - 1])
  }

  ghost predicate Linked(c: Config) {
    forall i :: 0 <= i < |c.contexts| ==>
      && Has(c.clusters, c.contexts[i].body.cluster.name)
      && Has(c.users, c.contexts[i].body.user.name)
  }

  // Unique names, references that resolve, and a current context exactly when there is any.
  ghost predicate Consistent(c: Config) {
    && Unique(c.clusters) && Unique(c.users) && Unique(c.contexts)
    && Linked(c)
    && (c.current.None? <==> c.contexts == [])
    && (c.current.Some? ==> Has(c.contexts, c.current.value))
  }

  lemma AddContextLinks(c: Config, x: Context)
    requires Linked(c)
    ensures Linked(AddContext(c, x))
  {
    var d := AddContext(c, x);
    PutNames(c.clusters, x.body.cluster);
    PutNames(c.users, x.body.user);
    WithoutShorter(c.contexts, {x.name});
    forall i | 0 <= i < |d.contexts|
      ensures Has(d.clusters, d.contexts[i].body.cluster.name) && Has(d.users, d.contexts[i].body.user.name)
    {
      if i < |d.contexts| - 1 {
        assert d.contexts[i] in c.contexts;
        var k :| 0 <= k < |c.contexts| && c.contexts[k] == d.contexts[i];
      }
    }
  }

  lemma AddContextConsistent(c: Config, x: Context)
    requires Consistent(c)
    ensures Consistent(AddContext(c, x))
  {
    AddContextLinks(c, x);
    PutUnique(c.clusters, x.body.cluster);
    PutUnique(c.users, x.body.user);
    PutUnique(c.contexts, x);
    PutNames(c.contexts, x);
  }

  lemma {:induction false} AddContextsConsistent(c: Config, xs: seq<Context>)
    requires Consistent(c)
    ensures Consistent(AddContexts(c, xs))
    decreases |xs|
  {
    if xs != [] {
      AddContextsConsistent(c, xs[..|xs| - 1]);
      AddContextConsistent(AddContexts(c, xs[..|xs| - 1]), xs[|xs| - 1]);
    }
  }

  lemma {:induction false} PutAllHas<T>(xs: seq<Named<T>>, ys: seq<Named<T>>, name: string)
    requires Has(xs, name)
    ensures Has(PutAll(xs, ys), name)
    decreases |ys|
  {
    if ys != [] {
      PutAllHas(xs, ys[..|ys| - 1], name);
      PutNames(PutAll(xs, ys[..|ys| - 1]), ys[|ys| - 1]);
    }
  }

  lemma MergedConsistent(c: Config, o: Config)
    requires Consistent(c)
    ensures Consistent(Merged(c, o))
  {
    var d := c.(clusters := PutAll(c.clusters, o.clusters), users := PutAll(c.users, o.users));
    PutAllUnique(c.clusters, o.clusters);
    PutAllUnique(c.users, o.users);
    forall i | 0 <= i < |c.contexts|
      ensures Has(d.clusters, c.contexts[i].body.cluster.name) && Has(d.users, c.contexts[i].body.user.name)
    {
      PutAllHas(c.clusters, o.clusters, c.contexts[i].body.cluster.name);
      PutAllHas(c.users, o.users, c.contexts[i].body.user.name);
    }
    AddContextsConsistent(d, o.contexts);
  }

  // Dropping an entry nobody refers to leaves the references intact.
  lemma DropUnreferenced<T>(xs: seq<Named<T>>, name: string, wanted: string)
    requires Has(xs, wanted) && wanted != name
    ensures Has(Without(xs, {name}), wanted)
  {
    WithoutShorter(xs, {name});
    var i :| 0 <= i < |xs| && xs[i].name == wanted;
    assert xs[i] in Without(xs, {name});
  }

  lemma RemovedConsistent(c: Config, name: string)
    requires Consistent(c)
    ensures Consistent(Removed(c, name))
  {
    var found := First(c.contexts, name);
    FirstFinds(c.contexts, name);
    if found.Some? {
      var d, rest := Removed(c, name), Without(c.contexts, {name});
      var cluster, user := found.value.body.cluster.name, found.value.body.user.name;
      WithoutShorter(c.contexts, {name});
      WithoutUnique(c.contexts, {name});
      WithoutUnique(c.clusters, {cluster});
      WithoutUnique(c.users, {user});
      forall i | 0 <= i < |rest|
        ensures Has(d.clusters, rest[i].body.cluster.name) && Has(d.users, rest[i].body.user.name)
      {
        assert rest[i] in c.contexts;
        assert ClustersOf(rest)[i].name == rest[i].body.cluster.name;
        assert UsersOf(rest)[i].name == rest[i].body.user.name;
        if rest[i].body.cluster.name != cluster {
          DropUnreferenced(c.clusters, cluster, rest[i].body.cluster.name);
        }
        if rest[i].body.user.name != user {
          DropUnreferenced(c.users, user, rest[i].body.user.name);
        }
      }
      if c.current != Some(name) {
        DropUnreferenced(c.contexts, name, c.current.value);
      } else if rest != [] {
        assert rest[0].name == d.current.value;
      }
    }
  }

  /** From the empty config, every sequence of merges, removals and selections keeps the lists consistent. */
  lemma {:induction false} RunConsistent(es: seq<Event>)
    ensures Consistent(Run(EMPTY, es))
    decreases |es|
  {
    if es != [] {
      var c, e := Run(EMPTY, es[..|es| - 1]), es[|es| - 1];
      RunConsistent(es[..|es| - 1]);
      match e {
        case MergeOther(o) => MergedConsistent(c, o);
        case RemoveByName(name) => RemovedConsistent(c, name);
        case SelectByName(name) =>
      }
    }
  }

  // ---- Adding and removing again ----

  // What must hold of a list for an added entry to leave no trace.
  predicate Traceless<T(==)>(listed: seq<Named<T>>, x: Named<T>, referenced: bool) {
    if referenced then listed != [] && listed[|listed| - 1] == x && !Has(listed[..|listed| - 1], x.name)
    else !Has(listed, x.name)
  }

  lemma NamesHas<T>(xs: seq<Named<T>>, name: string)
    ensures name in Names(xs) <==> Has(xs, name)
  {
    if Has(xs, name) {
      var i :| 0 <= i < |xs| && xs[i].name == name;
      assert xs[i].name in Names(xs);
    }
  }

  lemma PutIsSame<T>(xs: seq<Named<T>>, x: Named<T>)
    ensures Put(xs, x) == xs <==> Traceless(xs, x, true)
  {
    var ys := Put(xs, x);
    assert ys[|ys| - 1] == x;
    if xs != [] && xs[|xs| - 1] == x {
      var front := xs[..|xs| - 1];
      assert front + [x] == xs;
      WithoutAppend(front, [x], {x.name});
      assert Without([x], {x.name}) == [];
      assert ys[..|ys| - 1] == Without(front, {x.name});
      NamesHas(front, x.name);
      WithoutShorter(front, {x.name});
      WithoutExtremes(front, {x.name});
      assert xs[..|xs| - 1] == front;
    }
  }

  // The list after the entry was put and, unless still referenced, dropped again.
  lemma PutThenDrop<T>(xs: seq<Named<T>>, x: Named<T>, referenced: bool)
    ensures (if referenced then Put(xs, x) else Without(Put(xs, x), {x.name})) == xs <==> Traceless(xs, x, referenced)
  {
    if referenced {
      PutIsSame(xs, x);
    } else {
      NamesHas(xs, x.name);
      WithoutShorter(xs, {x.name});
      WithoutExtremes(xs, {x.name});
      WithoutAppend(Without(xs, {x.name}), [x], {x.name});
      WithoutTwice(xs, {x.name}, {x.name});
      assert {x.name} + {x.name} == {x.name};
      assert Without([x], {x.name}) == [];
    }
  }

  lemma {:induction false} FirstOfPut<T>(xs: seq<Named<T>>, x: Named<T>)
    ensures First(Without(xs, {x.name}) + [x], x.name) == Some(x)
  {
    if xs != [] {
      FirstOfPut(xs[1..], x);
      if xs[0].name == x.name {
        assert Without(xs, {x.name}) == Without(xs[1..], {x.name});
      } else {
        assert (Without(xs, {x.name}) + [x])[1..] == Without(xs[1..], {x.name}) + [x];
      }
    }
  }

  /** Removing a context just added restores the config exactly when the context's name is new, its cluster and user
      leave no trace in their lists, and the current context was another usable one or the one the removal falls
      back on. */
  lemma AddThenRemoveIff(c: Config, x: Context)
    ensures Removed(AddContext(c, x), x.name) == c <==>
            && !Has(c.contexts, x.name)
            && Traceless(c.clusters, x.body.cluster, Has(ClustersOf(c.contexts), x.body.cluster.name))
            && Traceless(c.users, x.body.user, Has(UsersOf(c.contexts), x.body.user.name))
            && (if Truthy(c.current) then c.current != Some(x.name) else c.current == FirstName(c.contexts))
  {
    FirstOfPut(c.contexts, x);
    PutThenDrop(c.contexts, x, false);
    WithoutAppend(Without(c.contexts, {x.name}), [x], {x.name});
    WithoutTwice(c.contexts, {x.name}, {x.name});
    assert {x.name} + {x.name} == {x.name};
    PutThenDrop(c.clusters, x.body.cluster, Has(ClustersOf(c.contexts), x.body.cluster.name));
    PutThenDrop(c.users, x.body.user, Has(UsersOf(c.contexts), x.body.user.name));
    NamesHas(c.contexts, x.name);
    WithoutExtremes(c.contexts, {x.name});
    assert c.contexts != [] && FirstName(c.contexts) == Some(x.name) ==> Has(c.contexts, x.name);
  }

  // A context whose cluster and user bear its own name.
  function Plain(name: string): Context {
    var cluster := Named(name, ClusterBody(Text(name), Null, Null));
    var user := Named(name, UserBody(Null, Null, Null, Null, Null));
    Named(name, ContextBody(cluster, user, Text("default")))
  }

  /** A config that lists a context but selects none comes back with one selected. */
  lemma AddThenRemoveCanSelect()
    ensures
      Lone("b").current == None && Removed(AddContext(Lone("b"), Plain("x")), "x").current == Some("b")
  {
    SelectionFallsBack(Lone("b"), Plain("x"), Plain("b"));
  }

  /** On every config a run produces, a context under three fresh names comes and goes without a trace, unless the
      context selected has the empty name and is not the first. */
  lemma AddThenRemoveOnRuns(es: seq<Event>, x: Context)
    requires !Has(Run(EMPTY, es).contexts, x.name)
    requires !Has(Run(EMPTY, es).clusters, x.body.cluster.name) && !Has(Run(EMPTY, es).users, x.body.user.name)
    ensures
      var c := Run(EMPTY, es);
      Removed(AddContext(c, x), x.name) == c <==> (c.current == Some("") ==> FirstName(c.contexts) == Some(""))
  {
    var c := Run(EMPTY, es);
    RunConsistent(es);
    AddThenRemoveIff(c, x);
    forall i | 0 <= i < |c.contexts|
      ensures ClustersOf(c.contexts)[i].name != x.body.cluster.name && UsersOf(c.contexts)[i].name != x.body.user.name
    {
      assert Has(c.clusters, c.contexts[i].body.cluster.name);
    }
  }

  // One cluster's own config.
  function Lone(name: string): Config {
    EMPTY.(contexts := [Plain(name)], clusters := [Plain(name).body.cluster], users := [Plain(name).body.user])
  }

  /** Such a config is reached by two merges and a selection, and comes back with another context selected. */
  lemma EmptyNameDeselected()
    ensures
      var c := Run(EMPTY, [MergeOther(Lone("b")), MergeOther(Lone("")), SelectByName("")]);
      c.current == Some("") && Removed(AddContext(c, Plain("x")), "x").current == Some("b")
  {
    RunOfThree(MergeOther(Lone("b")), MergeOther(Lone("")), SelectByName(""));
    TwoMerged();
    DeselectedByThird(Merged(Merged(EMPTY, Lone("b")), Lone("")), Plain("x"), Plain("b"), Plain(""));
  }

  lemma RunOfThree(e1: Event, e2: Event, e3: Event)
    ensures Run(EMPTY, [e1, e2, e3]) == Next(Next(Next(EMPTY, e1), e2), e3)
  {
    RunSnoc([], e1);
    RunSnoc([e1], e2);
    RunSnoc([e1, e2], e3);
    assert [e1, e2] + [e3] == [e1, e2, e3] && [e1] + [e2] == [e1, e2] && [] + [e1] == [e1];
  }

  lemma RunSnoc(es: seq<Event>, e: Event)
    ensures Run(EMPTY, es + [e]) == Next(Run(EMPTY, es), e)
  {
  }

  lemma DeselectedByThird(c: Config, x: Context, b: Context, empty: Context)
    requires c.contexts == [b, empty] && empty.name == "" && x.name != "" && x.name != b.name
    ensures var d := Selected(c, "");
            d.current == Some("") && Removed(AddContext(d, x), x.name).current == Some(b.name)
  {
    assert c.contexts[1].name == "";
    SelectionFallsBack(Selected(c, ""), x, b);
  }

  lemma TwoMerged()
    ensures Merged(Merged(EMPTY, Lone("b")), Lone("")).contexts == [Plain("b"), Plain("")]
  {
    MergedLone(EMPTY, "b");
    MergedLone(Merged(EMPTY, Lone("b")), "");
    assert Without([Plain("b")], {""}) == [Plain("b")];
  }

  lemma MergedLone(c: Config, name: string)
    ensures Merged(c, Lone(name)).contexts == Put(c.contexts, Plain(name))
    ensures Merged(c, Lone(name)).current == if Truthy(c.current) then c.current else Some(name)
  {
    var d := c.(clusters := PutAll(c.clusters, Lone(name).clusters), users := PutAll(c.users, Lone(name).users));
    assert Lone(name).contexts[..0] == [];
    assert AddContexts(d, [Plain(name)]) == AddContext(d, Plain(name));
  }

  lemma SelectionFallsBack(c: Config, x: Context, y: Context)
    requires !Truthy(c.current) && !Has(c.contexts, x.name) && FirstName(c.contexts) == Some(y.name)
    ensures Removed(AddContext(c, x), x.name).current == Some(y.name)
  {
    FirstOfPut(c.contexts, x);
    PutThenDrop(c.contexts, x, false);
    WithoutAppend(Without(c.contexts, {x.name}), [x], {x.name});
  }
}
