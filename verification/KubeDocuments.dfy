/** Printing a kubeconfig to a YAML document and parsing it back, and the owner that loads one from every server. */
module KubeDocuments {
  import opened Options
  import opened KubeConfigs

  // The Python exceptions, and a name that is not text.
  datatype Failure = KeyError | TypeError | AttributeError | ValueError | NameNotText

  function Truth(v: Value): bool {
    match v
    case Null => false
    case Flag(on) => on
    case Text(text) => text != ""
    case Items(items) => items != []
    case Table(entries) => entries != map[]
  }

  // ---- Printing ----

  function WithKey(d: map<string, Value>, keep: bool, key: string, v: Value): map<string, Value> {
    if keep then d[key := v] else d
  }

  function ClusterTable(b: ClusterBody): map<string, Value> {
    var d := WithKey(map["server" := b.server], Truth(b.authority), "certificate-authority-data", b.authority);
    WithKey(d, b.insecure != Null, "insecure-skip-tls-verify", b.insecure)
  }

  function UserTable(b: UserBody): map<string, Value> {
    var d := WithKey(map[], Truth(b.token), "token", b.token);
    var d := WithKey(d, Truth(b.certificate), "client-certificate-data", b.certificate);
    var d := WithKey(d, Truth(b.key), "client-key-data", b.key);
    var d := WithKey(d, Truth(b.username), "username", b.username);
    WithKey(d, Truth(b.password), "password", b.password)
  }

  function ContextTable(b: ContextBody): map<string, Value> {
    map["cluster" := Text(b.cluster.name), "user" := Text(b.user.name), "namespace" := b.namespace]
  }

  function PrintCluster(x: Cluster): Value {
    Table(map["name" := Text(x.name), "cluster" := Table(ClusterTable(x.body))])
  }

  function PrintUser(x: User): Value {
    Table(map["name" := Text(x.name), "user" := Table(UserTable(x.body))])
  }

  function PrintContext(x: Context): Value {
    Table(map["name" := Text(x.name), "context" := Table(ContextTable(x.body))])
  }

  function Each<T, U>(xs: seq<T>, f: T -> U): seq<U> {
    seq(|xs|, i requires 0 <= i < |xs| => f(xs[i]))
  }

  function Print(c: Config): Value {
    var d := map["apiVersion" := c.apiVersion, "kind" := c.kind,
                 "clusters" := Items(Each(c.clusters, PrintCluster)),
                 "users" := Items(Each(c.users, PrintUser)),
                 "contexts" := Items(Each(c.contexts, PrintContext))];
    var d := WithKey(d, Truthy(c.current), "current-context", Text(c.current.GetOr("")));
    Table(WithKey(d, Truth(c.preferences), "preferences", c.preferences))
  }

  // ---- Parsing ----

  // `v[key]`
  function Index(v: Value, key: string): Result<Value, Failure> {
    if !v.Table? then Err(TypeError) else if key in v.entries then Ok(v.entries[key]) else Err(KeyError)
  }

  // `v.get(key, default)`
  function Get(v: Value, key: string, default: Value): Result<Value, Failure> {
    if !v.Table? then Err(AttributeError) else Ok(if key in v.entries then v.entries[key] else default)
  }

  function NameAt(v: Value, key: string): Result<string, Failure> {
    var name :- Index(v, key);
    if name.Text? then Ok(name.text) else Err(NameNotText)
  }

  // What a loop over `v` sees when every element is indexed by a key: characters and keys cannot be.
  function Elements(v: Value): Result<seq<Value>, Failure> {
    if v.Items? then Ok(v.items) else if v == Text("") || v == Table(map[]) then Ok([]) else Err(TypeError)
  }

  function ParseCluster(v: Value): Result<Cluster, Failure> {
    var name :- NameAt(v, "name");
    var d :- Index(v, "cluster");
    var server :- Index(d, "server");
    var authority :- Get(d, "certificate-authority-data", Null);
    var insecure :- Get(d, "insecure-skip-tls-verify", Null);
    Ok(Named(name, ClusterBody(server, authority, insecure)))
  }

  function ParseUser(v: Value): Result<User, Failure> {
    var name :- NameAt(v, "name");
    var d :- Index(v, "user");
    var token :- Get(d, "token", Null);
    var certificate :- Get(d, "client-certificate-data", Null);
    var key :- Get(d, "client-key-data", Null);
    var username :- Get(d, "username", Null);
    var password :- Get(d, "password", Null);
    Ok(Named(name, UserBody(token, certificate, key, username, password)))
  }

  function ParseContext(v: Value, clusters: seq<Cluster>, users: seq<User>): Result<Context, Failure> {
    var name :- NameAt(v, "name");
    var d :- Index(v, "context");
    var cluster :- NameAt(d, "cluster");
    var user :- NameAt(d, "user");
    if Last(clusters, cluster).None? || Last(users, user).None? then Err(ValueError)
    else
      var namespace :- Get(d, "namespace", Text("default"));
      Ok(Named(name, ContextBody(Last(clusters, cluster).value, Last(users, user).value, namespace)))
  }

  // The loops stop at the first failure.
  function ParseEach<T>(vs: seq<Value>, f: Value -> Result<T, Failure>): Result<seq<T>, Failure> {
    if vs == [] then Ok([])
    else
      var x :- f(vs[0]);
      var rest :- ParseEach(vs[1..], f);
      Ok([x] + rest)
  }

  function ParseList<T>(v: Value, key: string, f: Value -> Result<T, Failure>): Result<seq<T>, Failure> {
    var list :- Get(v, key, Items([]));
    var vs :- Elements(list);
    ParseEach(vs, f)
  }

  function ParseCurrent(v: Value): Result<Option<string>, Failure> {
    var current :- Get(v, "current-context", Null);
    match current
    case Null => Ok(None)
    case Text(name) => Ok(Some(name))
    case _ => Err(NameNotText)
  }

  function Parse(v: Value): Result<Config, Failure> {
    var clusters :- ParseList(v, "clusters", ParseCluster);
    var users :- ParseList(v, "users", ParseUser);
    var contexts :- ParseList(v, "contexts", x => ParseContext(x, clusters, users));
    var current :- ParseCurrent(v);
    var apiVersion :- Get(v, "apiVersion", Text("v1"));
    var kind :- Get(v, "kind", Text("Config"));
    var preferences :- Get(v, "preferences", Table(map[]));
    Ok(Config(apiVersion, kind, current, preferences, clusters, contexts, users))
  }

  // ---- What survives printing ----

  function Kept(v: Value): Value {
    if Truth(v) then v else Null
  }

  function SettleCluster(x: Cluster): Cluster {
    Named(x.name, x.body.(authority := Kept(x.body.authority)))
  }

  function SettleUser(x: User): User {
    Named(x.name, UserBody(Kept(x.body.token), Kept(x.body.certificate), Kept(x.body.key), Kept(x.body.username),
                           Kept(x.body.password)))
  }

  // A context gets the objects listed under its names in place of its own.
  function SettleContext(x: Context, clusters: seq<Cluster>, users: seq<User>): Context {
    Named(x.name, x.body.(cluster := Last(clusters, x.body.cluster.name).GetOr(x.body.cluster),
                          user := Last(users, x.body.user.name).GetOr(x.body.user)))
  }

  function Settled(c: Config): Config {
    var clusters, users := Each(c.clusters, SettleCluster), Each(c.users, SettleUser);
    Config(c.apiVersion, c.kind, if Truthy(c.current) then c.current else None,
           if Truth(c.preferences) then c.preferences else Table(map[]),
           clusters, Each(c.contexts, (x: Context) => SettleContext(x, clusters, users)), users)
  }

  lemma {:induction false} LastFinds<T>(xs: seq<Named<T>>, name: string)
    ensures Last(xs, name).Some? <==> Has(xs, name)
    ensures Last(xs, name).Some? ==> Last(xs, name).value.name == name
  {
    if xs != [] {
      LastFinds(xs[..|xs| - 1], name);
      assert forall i :: 0 <= i < |xs| - 1 ==> xs[i] == xs[..|xs| - 1][i];
    }
  }

  lemma {:induction false} ParseEachOk<T>(vs: seq<Value>, f: Value -> Result<T, Failure>, xs: seq<T>)
    requires |vs| == |xs| && forall i :: 0 <= i < |vs| ==> f(vs[i]) == Ok(xs[i])
    ensures ParseEach(vs, f) == Ok(xs)
  {
    if vs != [] {
      assert xs == [xs[0]] + xs[1..];
      ParseEachOk(vs[1..], f, xs[1..]);
    }
  }

  lemma {:induction false} ParseEachFails<T>(vs: seq<Value>, f: Value -> Result<T, Failure>, bad: nat, e: Failure)
    requires bad < |vs| && f(vs[bad]) == Err(e)
    requires forall i :: 0 <= i < |vs| ==> f(vs[i]).Ok? || f(vs[i]) == Err(e)
    ensures ParseEach(vs, f) == Err(e)
  {
    if f(vs[0]).Ok? {
      assert vs[1..][bad - 1] == vs[bad];
      ParseEachFails(vs[1..], f, bad - 1, e);
    }
  }

  lemma {:induction false} ParseEachMembers<T>(vs: seq<Value>, f: Value -> Result<T, Failure>)
    requires ParseEach(vs, f).Ok?
    ensures var xs := ParseEach(vs, f).value; |xs| == |vs| && forall i :: 0 <= i < |xs| ==> f(vs[i]) == Ok(xs[i])
  {
    if vs != [] {
      ParseEachMembers(vs[1..], f);
    }
  }

  // What Python takes for false.
  predicate Falsy(v: Value) {
    v == Null || v == Flag(false) || v == Text("") || v == Items([]) || v == Table(map[])
  }

  lemma TruthIff(v: Value)
    ensures Truth(v) <==> !Falsy(v)
  {
  }

  // A key is printed exactly for what is not falsy.
  ghost predicate PrintsTruth(d: map<string, Value>, key: string, v: Value) {
    if Falsy(v) then key !in d else key in d && d[key] == v
  }

  /** A document leaves out exactly what is falsy: a cluster's certificate, a user's credentials, the preferences and a
      missing or empty current context; a cluster's TLS flag only when there is none. */
  lemma PrintedKeys(c: Config, x: ClusterBody, y: UserBody)
    ensures ClusterTable(x).Keys <= {"server", "certificate-authority-data", "insecure-skip-tls-verify"}
    ensures "server" in ClusterTable(x) && ClusterTable(x)["server"] == x.server
    ensures PrintsTruth(ClusterTable(x), "certificate-authority-data", x.authority)
    ensures "insecure-skip-tls-verify" in ClusterTable(x) <==> x.insecure != Null
    ensures PrintsTruth(UserTable(y), "token", y.token)
    ensures PrintsTruth(UserTable(y), "client-certificate-data", y.certificate)
    ensures PrintsTruth(UserTable(y), "client-key-data", y.key)
    ensures PrintsTruth(UserTable(y), "username", y.username) && PrintsTruth(UserTable(y), "password", y.password)
    ensures Print(c).Table? && PrintsTruth(Print(c).entries, "preferences", c.preferences)
    ensures PrintsTruth(Print(c).entries, "current-context",
                        if c.current.Some? then Text(c.current.value) else Null)
  {
    ClusterKeys(x);
    UserKeys(y);
    ConfigKeys(c);
  }

  lemma ClusterKeys(x: ClusterBody)
    ensures ClusterTable(x).Keys <= {"server", "certificate-authority-data", "insecure-skip-tls-verify"}
    ensures "server" in ClusterTable(x) && ClusterTable(x)["server"] == x.server
    ensures PrintsTruth(ClusterTable(x), "certificate-authority-data", x.authority)
    ensures "insecure-skip-tls-verify" in ClusterTable(x) <==> x.insecure != Null
  {
    TruthIff(x.authority);
  }

  lemma UserKeys(y: UserBody)
    ensures PrintsTruth(UserTable(y), "token", y.token)
    ensures PrintsTruth(UserTable(y), "client-certificate-data", y.certificate)
    ensures PrintsTruth(UserTable(y), "client-key-data", y.key)
    ensures PrintsTruth(UserTable(y), "username", y.username) && PrintsTruth(UserTable(y), "password", y.password)
  {
    TruthIff(y.token);
    TruthIff(y.certificate);
    TruthIff(y.key);
    TruthIff(y.username);
    TruthIff(y.password);
  }

  lemma ConfigKeys(c: Config)
    ensures Print(c).Table? && PrintsTruth(Print(c).entries, "preferences", c.preferences)
    ensures PrintsTruth(Print(c).entries, "current-context",
                        if c.current.Some? then Text(c.current.value) else Null)
  {
    TruthIff(c.preferences);
  }

  lemma ClusterPrintParse(x: Cluster)
    ensures ParseCluster(PrintCluster(x)) == Ok(SettleCluster(x))
    ensures PrintCluster(SettleCluster(x)) == PrintCluster(x)
  {
    var v := PrintCluster(x);
    assert Index(v, "cluster") == Ok(Table(ClusterTable(x.body)));
  }

  // What the printed table holds for each optional field.
  lemma UserTableLookups(b: UserBody)
    ensures
      var d := Table(UserTable(b));
      && Get(d, "token", Null) == Ok(Kept(b.token))
      && Get(d, "client-certificate-data", Null) == Ok(Kept(b.certificate))
      && Get(d, "client-key-data", Null) == Ok(Kept(b.key))
      && Get(d, "username", Null) == Ok(Kept(b.username))
      && Get(d, "password", Null) == Ok(Kept(b.password))
  {
  }

  lemma UserPrintParse(x: User)
    ensures ParseUser(PrintUser(x)) == Ok(SettleUser(x))
  {
    var v := PrintUser(x);
    assert Index(v, "user") == Ok(Table(UserTable(x.body)));
    UserTableLookups(x.body);
  }

  lemma UserPrintSettled(x: User)
    ensures PrintUser(SettleUser(x)) == PrintUser(x)
  {
    assert UserTable(SettleUser(x).body) == UserTable(x.body);
  }

  lemma ContextPrintParse(x: Context, clusters: seq<Cluster>, users: seq<User>)
    ensures ParseContext(PrintContext(x), clusters, users)
         == if Has(clusters, x.body.cluster.name) && Has(users, x.body.user.name)
            then Ok(SettleContext(x, clusters, users)) else Err(ValueError)
    ensures PrintContext(SettleContext(x, clusters, users)) == PrintContext(x)
  {
    var v := PrintContext(x);
    assert Index(v, "context") == Ok(Table(ContextTable(x.body)));
    LastFinds(clusters, x.body.cluster.name);
    LastFinds(users, x.body.user.name);
  }

  lemma EachHas<T, U>(xs: seq<Named<T>>, f: Named<T> -> Named<U>, name: string)
    requires forall x :: f(x).name == x.name
    ensures Has(Each(xs, f), name) <==> Has(xs, name)
  {
    var ys := Each(xs, f);
    assert forall i :: 0 <= i < |xs| ==> ys[i].name == xs[i].name;
  }

  lemma PrintedClusters(c: Config)
    ensures ParseList(Print(c), "clusters", ParseCluster) == Ok(Settled(c).clusters)
  {
    var vs, xs := Each(c.clusters, PrintCluster), Each(c.clusters, SettleCluster);
    assert Get(Print(c), "clusters", Items([])) == Ok(Items(vs));
    forall i | 0 <= i < |vs| ensures ParseCluster(vs[i]) == Ok(xs[i]) {
      ClusterPrintParse(c.clusters[i]);
    }
    ParseEachOk(vs, ParseCluster, xs);
  }

  lemma PrintedUsers(c: Config)
    ensures ParseList(Print(c), "users", ParseUser) == Ok(Settled(c).users)
  {
    var vs, xs := Each(c.users, PrintUser), Each(c.users, SettleUser);
    assert Get(Print(c), "users", Items([])) == Ok(Items(vs));
    forall i | 0 <= i < |vs| ensures ParseUser(vs[i]) == Ok(xs[i]) {
      UserPrintParse(c.users[i]);
    }
    ParseEachOk(vs, ParseUser, xs);
  }

  predicate Resolves(x: Context, clusters: seq<Cluster>, users: seq<User>) {
    Has(clusters, x.body.cluster.name) && Has(users, x.body.user.name)
  }

  lemma PrintedContexts(xs: seq<Context>, clusters: seq<Cluster>, users: seq<User>)
    ensures
      var parse := (v: Value) => ParseContext(v, clusters, users);
      ParseEach(Each(xs, PrintContext), parse)
      == if forall i :: 0 <= i < |xs| ==> Resolves(xs[i], clusters, users)
         then Ok(Each(xs, (x: Context) => SettleContext(x, clusters, users))) else Err(ValueError)
  {
    var parse := (v: Value) => ParseContext(v, clusters, users);
    var vs := Each(xs, PrintContext);
    forall i | 0 <= i < |xs|
      ensures parse(vs[i])
           == if Resolves(xs[i], clusters, users) then Ok(SettleContext(xs[i], clusters, users)) else Err(ValueError)
    {
      ContextPrintParse(xs[i], clusters, users);
    }
    if forall i :: 0 <= i < |xs| ==> Resolves(xs[i], clusters, users) {
      ParseEachOk(vs, parse, Each(xs, (x: Context) => SettleContext(x, clusters, users)));
    } else {
      var bad :| 0 <= bad < |xs| && !Resolves(xs[bad], clusters, users);
      ParseEachFails(vs, parse, bad, ValueError);
    }
  }

  lemma PrintedContextList(c: Config, clusters: seq<Cluster>, users: seq<User>)
    ensures
      var parse := (v: Value) => ParseContext(v, clusters, users);
      ParseList(Print(c), "contexts", parse) == ParseEach(Each(c.contexts, PrintContext), parse)
  {
    assert Get(Print(c), "contexts", Items([])) == Ok(Items(Each(c.contexts, PrintContext)));
  }

  lemma PrintedScalars(c: Config)
    ensures
      var v := Print(c);
      && ParseCurrent(v) == Ok(Settled(c).current)
      && Get(v, "apiVersion", Text("v1")) == Ok(c.apiVersion)
      && Get(v, "kind", Text("Config")) == Ok(c.kind)
      && Get(v, "preferences", Table(map[])) == Ok(Settled(c).preferences)
  {
  }

  lemma SettledLinks(c: Config)
    ensures Linked(c) <==> forall i :: 0 <= i < |c.contexts| ==>
        Resolves(c.contexts[i], Settled(c).clusters, Settled(c).users)
  {
    forall i | 0 <= i < |c.contexts|
      ensures Resolves(c.contexts[i], Settled(c).clusters, Settled(c).users)
           == Resolves(c.contexts[i], c.clusters, c.users)
    {
      EachHas(c.clusters, SettleCluster, c.contexts[i].body.cluster.name);
      EachHas(c.users, SettleUser, c.contexts[i].body.user.name);
    }
  }

  /** A printed config is accepted exactly when its contexts' cluster and user names are listed, and it comes back
      with every context pointing at the listed objects. */
  lemma PrintParse(c: Config)
    ensures Parse(Print(c)) == if Linked(c) then Ok(Settled(c)) else Err(ValueError)
  {
    PrintedClusters(c);
    PrintedUsers(c);
    PrintedContexts(c.contexts, Settled(c).clusters, Settled(c).users);
    PrintedContextList(c, Settled(c).clusters, Settled(c).users);
    PrintedScalars(c);
    SettledLinks(c);
  }

  lemma SettledClustersPrint(c: Config)
    ensures Each(Settled(c).clusters, PrintCluster) == Each(c.clusters, PrintCluster)
  {
    forall i | 0 <= i < |c.clusters| ensures PrintCluster(SettleCluster(c.clusters[i])) == PrintCluster(c.clusters[i]) {
      ClusterPrintParse(c.clusters[i]);
    }
  }

  lemma SettledUsersPrint(c: Config)
    ensures Each(Settled(c).users, PrintUser) == Each(c.users, PrintUser)
  {
    forall i | 0 <= i < |c.users| ensures PrintUser(SettleUser(c.users[i])) == PrintUser(c.users[i]) {
      UserPrintSettled(c.users[i]);
    }
  }

  lemma SettledContextsPrint(c: Config)
    ensures Each(Settled(c).contexts, PrintContext) == Each(c.contexts, PrintContext)
  {
    var s := Settled(c);
    forall i | 0 <= i < |c.contexts| ensures PrintContext(s.contexts[i]) == PrintContext(c.contexts[i]) {
      ContextPrintParse(c.contexts[i], s.clusters, s.users);
    }
  }

  lemma SettledPrints(c: Config)
    ensures Print(Settled(c)) == Print(c)
  {
    SettledClustersPrint(c);
    SettledUsersPrint(c);
    SettledContextsPrint(c);
  }

  /** Printing is stable, even when a context carries an object older than the listed one. */
  lemma PrintParsePrint(c: Config)
    requires Linked(c)
    ensures Parse(Print(c)).Ok? && Print(Parse(Print(c)).value) == Print(c)
  {
    PrintParse(c);
    SettledPrints(c);
  }

  lemma ParsedParts(v: Value)
    requires Parse(v).Ok?
    ensures
      var c := Parse(v).value;
      var parse := (x: Value) => ParseContext(x, c.clusters, c.users);
      ParseList(v, "contexts", parse) == Ok(c.contexts)
  {
  }

  /** In a parsed config every context carries the very objects its names stand for. */
  lemma ParsedResolves(v: Value)
    requires Parse(v).Ok?
    ensures
      var c := Parse(v).value;
      && Linked(c)
      && forall i :: 0 <= i < |c.contexts| ==>
           && Last(c.clusters, c.contexts[i].body.cluster.name) == Some(c.contexts[i].body.cluster)
           && Last(c.users, c.contexts[i].body.user.name) == Some(c.contexts[i].body.user)
  {
    var c := Parse(v).value;
    var parse := (x: Value) => ParseContext(x, c.clusters, c.users);
    ParsedParts(v);
    var vs := Elements(Get(v, "contexts", Items([])).value).value;
    ParseEachMembers(vs, parse);
    forall i | 0 <= i < |c.contexts|
      ensures Last(c.clusters, c.contexts[i].body.cluster.name) == Some(c.contexts[i].body.cluster)
      ensures Last(c.users, c.contexts[i].body.user.name) == Some(c.contexts[i].body.user)
      ensures Resolves(c.contexts[i], c.clusters, c.users)
    {
      var d := Index(vs[i], "context").value;
      ContextObjects(vs[i], c.clusters, c.users);
    }
  }

  lemma ContextObjects(v: Value, clusters: seq<Cluster>, users: seq<User>)
    requires ParseContext(v, clusters, users).Ok?
    ensures
      var x := ParseContext(v, clusters, users).value;
      && Last(clusters, x.body.cluster.name) == Some(x.body.cluster)
      && Last(users, x.body.user.name) == Some(x.body.user)
      && Resolves(x, clusters, users)
  {
    var d := Index(v, "context").value;
    LastFinds(clusters, NameAt(d, "cluster").value);
    LastFinds(users, NameAt(d, "user").value);
  }

  // ---- What a document must have, and what it may leave out ----

  // The text under a key of a mapping.
  ghost predicate TextAt(v: Value, key: string, text: string) {
    v.Table? && key in v.entries && v.entries[key] == Text(text)
  }

  // What a mapping has under a key, or the default when the key is missing.
  ghost predicate HasOr(v: Value, key: string, default: Value, found: Value) {
    v.Table? && found == if key in v.entries then v.entries[key] else default
  }

  ghost predicate TableAt(v: Value, key: string) {
    v.Table? && key in v.entries && v.entries[key].Table?
  }

  /** A cluster needs a name and a server; certificate and TLS flag may be missing. */
  lemma ClusterParseIff(v: Value, x: Cluster)
    ensures ParseCluster(v) == Ok(x) <==>
              && TextAt(v, "name", x.name) && TableAt(v, "cluster")
              && var d := v.entries["cluster"];
                 && "server" in d.entries && x.body.server == d.entries["server"]
                 && HasOr(d, "certificate-authority-data", Null, x.body.authority)
                 && HasOr(d, "insecure-skip-tls-verify", Null, x.body.insecure)
  {
  }

  /** A user needs a name; every credential may be missing. */
  lemma UserParseIff(v: Value, x: User)
    ensures ParseUser(v) == Ok(x) <==>
              && TextAt(v, "name", x.name) && TableAt(v, "user")
              && var d := v.entries["user"];
                 && HasOr(d, "token", Null, x.body.token)
                 && HasOr(d, "client-certificate-data", Null, x.body.certificate)
                 && HasOr(d, "client-key-data", Null, x.body.key)
                 && HasOr(d, "username", Null, x.body.username)
                 && HasOr(d, "password", Null, x.body.password)
  {
  }

  /** A context needs a name and the names of a listed cluster and user, and gets the objects last listed under those;
      without a namespace it is in "default". */
  lemma ContextParseIff(v: Value, clusters: seq<Cluster>, users: seq<User>, x: Context)
    ensures ParseContext(v, clusters, users) == Ok(x) <==>
              && TextAt(v, "name", x.name) && TableAt(v, "context")
              && var d := v.entries["context"];
                 && TextAt(d, "cluster", x.body.cluster.name) && TextAt(d, "user", x.body.user.name)
                 && IsLast(clusters, x.body.cluster) && IsLast(users, x.body.user)
                 && HasOr(d, "namespace", Text("default"), x.body.namespace)
  {
    LastIff(clusters, x.body.cluster);
    LastIff(users, x.body.user);
    if TableAt(v, "context") {
      var d := v.entries["context"];
      if NameAt(d, "cluster").Ok? && NameAt(d, "user").Ok? {
        LastFinds(clusters, NameAt(d, "cluster").value);
        LastFinds(users, NameAt(d, "user").value);
      }
    }
  }

  // The entry is in the list, and none after it bears its name.
  ghost predicate IsLast<T>(xs: seq<Named<T>>, x: Named<T>) {
    exists i :: 0 <= i < |xs| && xs[i] == x && forall j :: i < j < |xs| ==> xs[j].name != x.name
  }

  lemma {:induction false} LastIff<T>(xs: seq<Named<T>>, x: Named<T>)
    ensures Last(xs, x.name) == Some(x) <==> IsLast(xs, x)
  {
    if xs != [] {
      var n := |xs| - 1;
      LastIff(xs[..n], x);
      if xs[n].name != x.name {
        if IsLast(xs, x) {
          var i :| 0 <= i < |xs| && xs[i] == x && forall j :: i < j < |xs| ==> xs[j].name != x.name;
          assert xs[..n][i] == x;
        }
        if IsLast(xs[..n], x) {
          var i :| 0 <= i < n && xs[..n][i] == x && forall j :: i < j < n ==> xs[..n][j].name != x.name;
          assert forall j :: i < j < n ==> xs[j] == xs[..n][j];
        }
      }
    }
  }

  // What the entries of a list under a key were parsed from; a missing list is empty.
  ghost predicate ListParses<T>(v: Value, key: string, f: Value -> Result<T, Failure>, xs: seq<T>) {
    v.Table? &&
    var list := if key in v.entries then v.entries[key] else Items([]);
    var vs := if list.Items? then list.items else [];
    && (list.Items? || list == Text("") || list == Table(map[]))
    && |xs| == |vs| && forall i :: 0 <= i < |xs| ==> f(vs[i]) == Ok(xs[i])
  }

  lemma ListParsesIff<T>(v: Value, key: string, f: Value -> Result<T, Failure>, xs: seq<T>)
    ensures ParseList(v, key, f) == Ok(xs) <==> ListParses(v, key, f, xs)
  {
    if v.Table? {
      var list := if key in v.entries then v.entries[key] else Items([]);
      if Elements(list).Ok? {
        var vs := Elements(list).value;
        if ParseEach(vs, f) == Ok(xs) {
          ParseEachMembers(vs, f);
        }
        if |xs| == |vs| && forall i :: 0 <= i < |xs| ==> f(vs[i]) == Ok(xs[i]) {
          ParseEachOk(vs, f, xs);
        }
      }
    }
  }

  lemma ParsesInParts(v: Value, c: Config)
    ensures Parse(v) == Ok(c) <==>
              && ParseList(v, "clusters", ParseCluster) == Ok(c.clusters)
              && ParseList(v, "users", ParseUser) == Ok(c.users)
              && ParseList(v, "contexts", x => ParseContext(x, c.clusters, c.users)) == Ok(c.contexts)
              && ParseCurrent(v) == Ok(c.current)
              && Get(v, "apiVersion", Text("v1")) == Ok(c.apiVersion)
              && Get(v, "kind", Text("Config")) == Ok(c.kind)
              && Get(v, "preferences", Table(map[])) == Ok(c.preferences)
  {
  }

  lemma ScalarsIff(v: Value, c: Config)
    ensures ParseCurrent(v) == Ok(c.current) <==>
              match c.current
              case Some(name) => TextAt(v, "current-context", name)
              case None => HasOr(v, "current-context", Null, Null)
    ensures Get(v, "apiVersion", Text("v1")) == Ok(c.apiVersion) <==> HasOr(v, "apiVersion", Text("v1"), c.apiVersion)
    ensures Get(v, "kind", Text("Config")) == Ok(c.kind) <==> HasOr(v, "kind", Text("Config"), c.kind)
    ensures Get(v, "preferences", Table(map[])) == Ok(c.preferences) <==>
              HasOr(v, "preferences", Table(map[]), c.preferences)
  {
  }

  /** A config is read from the three lists, in which every entry must parse, and from four optional fields with their
      defaults. */
  lemma ParseIff(v: Value, c: Config)
    ensures Parse(v) == Ok(c) <==>
              && ListParses(v, "clusters", ParseCluster, c.clusters)
              && ListParses(v, "users", ParseUser, c.users)
              && ListParses(v, "contexts", x => ParseContext(x, c.clusters, c.users), c.contexts)
              && (match c.current
                  case Some(name) => TextAt(v, "current-context", name)
                  case None => HasOr(v, "current-context", Null, Null))
              && HasOr(v, "apiVersion", Text("v1"), c.apiVersion)
              && HasOr(v, "kind", Text("Config"), c.kind)
              && HasOr(v, "preferences", Table(map[]), c.preferences)
  {
    ParsesInParts(v, c);
    ListParsesIff(v, "clusters", ParseCluster, c.clusters);
    ListParsesIff(v, "users", ParseUser, c.users);
    ListParsesIff(v, "contexts", x => ParseContext(x, c.clusters, c.users), c.contexts);
    ScalarsIff(v, c);
  }

  // ---- The owner ----

  // The configs of the servers up to the first one that does not parse.
  function Usable(docs: seq<Value>): seq<Config> {
    if docs == [] || Parse(docs[0]).Err? then [] else [Parse(docs[0]).value] + Usable(docs[1..])
  }

  function Merges(cs: seq<Config>): seq<Event> {
    Each(cs, (c: Config) => MergeOther(c))
  }

  lemma {:induction false} UsableStops(docs: seq<Value>, i: nat)
    requires i < |docs| && Parse(docs[i]).Err?
    ensures Usable(docs) == Usable(docs[..i])
  {
    if i > 0 && Parse(docs[0]).Ok? {
      UsableStops(docs[1..], i - 1);
      assert docs[1..][..i - 1] == docs[..i][1..];
    }
  }

  lemma UsableCons(docs: seq<Value>, i: nat)
    requires 0 < i <= |docs| && Parse(docs[0]).Ok?
    ensures Usable(docs[..i]) == [Parse(docs[0]).value] + Usable(docs[1..][..i - 1])
  {
    assert docs[..i][1..] == docs[1..][..i - 1];
  }

  lemma {:induction false} UsableSnoc(docs: seq<Value>, i: nat)
    requires i < |docs| && forall k :: 0 <= k <= i ==> Parse(docs[k]).Ok?
    ensures Usable(docs[..i + 1]) == Usable(docs[..i]) + [Parse(docs[i]).value]
  {
    UsableCons(docs, i + 1);
    if i > 0 {
      UsableCons(docs, i);
      UsableSnoc(docs[1..], i - 1);
    }
  }

  // One more usable document is one more merge.
  lemma UsableGrows(docs: seq<Value>, i: nat)
    requires i < |docs| && forall k :: 0 <= k <= i ==> Parse(docs[k]).Ok?
    ensures Run(EMPTY, Merges(Usable(docs[..i + 1])))
        == Merged(Run(EMPTY, Merges(Usable(docs[..i]))), Parse(docs[i]).value)
  {
    UsableSnoc(docs, i);
    var cs, c := Usable(docs[..i]), Parse(docs[i]).value;
    var es := Merges(cs + [c]);
    assert es[..|es| - 1] == Merges(cs);
    assert es[|es| - 1] == MergeOther(c);
  }

  /** The process-wide owner of the merged config. */
  class MultiClusterKubeConfig {
    const kubeconfig: KubeConfig

    constructor ()
      ensures fresh(kubeconfig) && kubeconfig.Contents() == EMPTY
    {
      kubeconfig := new KubeConfig(EMPTY);
    }

    // False stands for the raised error; the configs merged so far stay.
    method Load(docs: seq<Value>) returns (ok: bool)
      requires kubeconfig.Contents() == EMPTY
      modifies kubeconfig
      ensures ok <==> forall i :: 0 <= i < |docs| ==> Parse(docs[i]).Ok?
      ensures kubeconfig.Contents() == Run(EMPTY, Merges(Usable(docs)))
    {
      for i := 0 to |docs|
        invariant forall k :: 0 <= k < i ==> Parse(docs[k]).Ok?
        invariant kubeconfig.Contents() == Run(EMPTY, Merges(Usable(docs[..i])))
      {
        var parsed := Parse(docs[i]);
        if parsed.Err? {
          UsableStops(docs, i);
          return false;
        }
        var other := new KubeConfig(parsed.value);
        kubeconfig.Merge(other);
        UsableGrows(docs, i);
      }
      assert docs[..|docs|] == docs;
      return true;
    }

    method AddConfig(other: KubeConfig)
      modifies kubeconfig
      ensures kubeconfig.Contents() == Next(old(kubeconfig.Contents()), MergeOther(old(other.Contents())))
    {
      kubeconfig.Merge(other);
    }

    method RemoveConfig(name: string)
      modifies kubeconfig
      ensures kubeconfig.Contents() == Next(old(kubeconfig.Contents()), RemoveByName(name))
    {
      var found := kubeconfig.RemoveContext(name);
    }

    method SetContext(name: string) returns (r: Result<(), Failure>)
      modifies kubeconfig
      ensures kubeconfig.Contents() == Next(old(kubeconfig.Contents()), SelectByName(name))
      ensures r == if Has(kubeconfig.contexts, name) then Ok(()) else Err(ValueError)
    {
      if !Has(kubeconfig.contexts, name) {
        return Err(ValueError);
      }
      kubeconfig.current := Some(name);
      return Ok(());
    }
  }

  /** Whatever the servers' documents say and wherever loading stops, the owner's config is consistent, prints to a
      document its own parser accepts, and prints the same again. */
  lemma LoadedPrints(docs: seq<Value>, es: seq<Event>)
    ensures
      var c := Run(EMPTY, Merges(Usable(docs)) + es);
      && Consistent(c)
      && Parse(Print(c)).Ok? && Print(Parse(Print(c)).value) == Print(c)
  {
    RunConsistent(Merges(Usable(docs)) + es);
    PrintParsePrint(Run(EMPTY, Merges(Usable(docs)) + es));
  }
}
