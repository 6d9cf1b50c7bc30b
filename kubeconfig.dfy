/** The kubeconfig records (cluster, user, context, config) and the merger
    that folds one kubeconfig per cluster into a single kubeconfig. */
module Kubeconfig {

  /** The nested `Cluster` struct of a cluster entry: server URL and CA data. */
  datatype ClusterInfo = ClusterInfo(server: string, cert: string)

  /** One cluster entry of a kubeconfig. */
  datatype Cluster = Cluster(name: string, cluster: ClusterInfo)

  datatype UserToken = UserToken(token: string)

  /** One user entry of a kubeconfig: a name and its bearer token. */
  datatype User = User(name: string, user: UserToken)

  datatype ClusterContext = ClusterContext(user: string, cluster: string)

  /** One context entry: a named pairing of a user and a cluster. */
  datatype Context = Context(name: string, context: ClusterContext)

  /** A whole kubeconfig document. */
  datatype Config = Config(
    apiVersion: string,
    kind: string,
    clusters: seq<Cluster>,
    users: seq<User>,
    contexts: seq<Context>,
    currentContext: string)

  /** The name the merged kubeconfig gives its single shared user. */
  const DefaultUserName: string := "myRancher2User"

  /** What the merger dereferences without a check: a first config, a first
      user of that config, and a first cluster of every config. When this
      fails the source stops with an index-out-of-range panic. */
  predicate Mergeable(configs: seq<Config>)
  {
    |configs| > 0 &&
    |configs[0].users| > 0 &&
    forall i :: 0 <= i < |configs| ==> |configs[i].clusters| > 0
  }

  /** The context the merger emits for one per-cluster config. */
  function ContextFor(c: Config, userName: string): Context
    requires |c.clusters| > 0
  {
    Context(c.clusters[0].name, ClusterContext(userName, c.clusters[0].name))
  }

  /** Every cluster entry of every config, config by config, in order. */
  function AllClusters(configs: seq<Config>): seq<Cluster>
    decreases |configs|
  {
    if configs == [] then []
    else AllClusters(configs[..|configs| - 1]) + configs[|configs| - 1].clusters
  }

  /** The number of cluster entries over all configs. */
  function ClusterCount(configs: seq<Config>): nat
    decreases |configs|
  {
    if configs == [] then 0
    else ClusterCount(configs[..|configs| - 1]) + |configs[|configs| - 1].clusters|
  }

  /** What the merged kubeconfig is, field by field, given the per-cluster
      configs and the name of the shared user. */
  predicate MergeOf(full: Config, configs: seq<Config>, userName: string)
    requires Mergeable(configs)
  {
    full.apiVersion == "v1" &&
    full.kind == "Config" &&
    full.users == [User(userName, UserToken(configs[0].users[0].user.token))] &&
    full.currentContext == configs[0].clusters[0].name &&
    |full.contexts| == |configs| &&
    (forall i :: 0 <= i < |configs| ==> full.contexts[i] == ContextFor(configs[i], userName)) &&
    full.clusters == AllClusters(configs)
  }

  /** The merge loop: builds the header of the merged kubeconfig from the first
      config, then appends one context and all cluster entries per config. */
  method Merge(configs: seq<Config>, userName: string) returns (full: Config)
    requires Mergeable(configs)
    ensures MergeOf(full, configs, userName)
  {
    full := Config(
      apiVersion := "v1",
      kind := "Config",
      clusters := [],
      users := [User(userName, UserToken(configs[0].users[0].user.token))],
      contexts := [],
      currentContext := configs[0].clusters[0].name);
    var i := 0;
    while i < |configs|
      invariant 0 <= i <= |configs|
      invariant full.apiVersion == "v1" && full.kind == "Config"
      invariant full.users == [User(userName, UserToken(configs[0].users[0].user.token))]
      invariant full.currentContext == configs[0].clusters[0].name
      invariant |full.contexts| == i
      invariant forall k :: 0 <= k < i ==> full.contexts[k] == ContextFor(configs[k], userName)
      invariant full.clusters == AllClusters(configs[..i])
    {
      var c := configs[i];
      full := full.(contexts := full.contexts + [Context(c.clusters[0].name, ClusterContext(userName, c.clusters[0].name))]);
      assert configs[..i + 1][..i] == configs[..i];
      full := full.(clusters := full.clusters + c.clusters);
      i := i + 1;
    }
    assert configs[..i] == configs;
  }

  /** The merged cluster list is as long as all the per-cluster lists together. */
  lemma {:induction false} AllClustersLength(configs: seq<Config>)
    ensures |AllClusters(configs)| == ClusterCount(configs)
    decreases |configs|
  {
    if configs != [] {
      AllClustersLength(configs[..|configs| - 1]);
    }
  }

  /** Concatenating config lists concatenates their cluster lists. */
  lemma {:induction false} AllClustersAppend(a: seq<Config>, b: seq<Config>)
    ensures AllClusters(a + b) == AllClusters(a) + AllClusters(b)
    decreases |b|
  {
    if b == [] {
      assert a + b == a;
    } else {
      var n := |b| - 1;
      assert (a + b)[..|a + b| - 1] == a + b[..n];
      AllClustersAppend(a, b[..n]);
    }
  }

  /** The j-th cluster of the i-th config sits in the merged list right after
      the clusters of the configs before it. */
  lemma {:induction false} AllClustersAt(configs: seq<Config>, i: nat, j: nat)
    requires i < |configs| && j < |configs[i].clusters|
    ensures ClusterCount(configs[..i]) + j < |AllClusters(configs)|
    ensures AllClusters(configs)[ClusterCount(configs[..i]) + j] == configs[i].clusters[j]
    decreases |configs|
  {
    var init := configs[..|configs| - 1];
    AllClustersLength(init);
    AllClustersLength(configs[..i]);
    if i == |configs| - 1 {
      assert configs[..i] == init;
    } else {
      AllClustersAt(init, i, j);
      assert init[..i] == configs[..i];
    }
  }

  /** A cluster entry is in the merged list exactly when some config has it. */
  lemma {:induction false} AllClustersMembership(configs: seq<Config>, x: Cluster)
    ensures x in AllClusters(configs) <==> exists i :: 0 <= i < |configs| && x in configs[i].clusters
    decreases |configs|
  {
    if configs != [] {
      var n := |configs| - 1;
      var init := configs[..n];
      AllClustersMembership(init, x);
      assert forall i :: 0 <= i < n ==> init[i] == configs[i];
      if x in configs[n].clusters {
        assert 0 <= n < |configs| && x in configs[n].clusters;
      }
    }
  }

  /** The sizes the merged kubeconfig promises: one user, one context per
      config, every cluster entry of every config; every context uses the
      shared user and names the cluster it is called after, and the current
      context is the first one. */
  lemma {:induction false} MergeShape(full: Config, configs: seq<Config>, userName: string)
    requires Mergeable(configs) && MergeOf(full, configs, userName)
    ensures |full.users| == 1 && full.users[0].name == userName
    ensures |full.contexts| == |configs|
    ensures |full.clusters| == ClusterCount(configs)
    ensures forall k :: 0 <= k < |full.contexts| ==>
      full.contexts[k].context.user == userName && full.contexts[k].context.cluster == full.contexts[k].name
    ensures full.currentContext == full.contexts[0].name
  {
    AllClustersLength(configs);
  }

  /** MergeOf pins the merged kubeconfig down completely. */
  lemma {:induction false} MergeUnique(a: Config, b: Config, configs: seq<Config>, userName: string)
    requires Mergeable(configs) && MergeOf(a, configs, userName) && MergeOf(b, configs, userName)
    ensures a == b
  {
  }

  /** Two clusters, "prod" and "dev", each with one cluster entry and one user:
      the merged kubeconfig keeps the first token, one context per cluster and
      both cluster entries in order. */
  lemma {:induction false} ProdDevScenario(prod: Config, dev: Config, full: Config)
    requires prod.clusters == [Cluster("prod-conn", ClusterInfo("https://prod", "CA1"))]
    requires prod.users == [User("prod-user", UserToken("T1"))]
    requires dev.clusters == [Cluster("dev-conn", ClusterInfo("https://dev", "CA2"))]
    requires dev.users == [User("dev-user", UserToken("T2"))]
    requires Mergeable([prod, dev]) && MergeOf(full, [prod, dev], DefaultUserName)
    ensures full.users == [User("myRancher2User", UserToken("T1"))]
    ensures full.currentContext == "prod-conn"
    ensures full.contexts == [
      Context("prod-conn", ClusterContext("myRancher2User", "prod-conn")),
      Context("dev-conn", ClusterContext("myRancher2User", "dev-conn"))]
    ensures full.clusters == prod.clusters + dev.clusters
  {
    assert [prod, dev][..1] == [prod];
    assert [prod][..0] == [];
    assert AllClusters([prod]) == prod.clusters;
  }
}
