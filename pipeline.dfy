/** The program's `main`: read the two environment variables, list the
    clusters, fetch and parse one kubeconfig per cluster (stopping at the first
    failure), then merge them. JSON and YAML decoding are library calls and
    enter as the functions of `Env`; writing the result file is not modelled. */
module Pipeline {
  import opened Wrappers
  import opened Fetcher
  import opened Kubeconfig

  /** One entry of the `data` list of the cluster-list response. */
  datatype ClusterSummary = ClusterSummary(name: string, actions: map<string, string>)

  /** The HTTP client and the decoders the program calls into. */
  datatype Env = Env(
    send: Request -> Response,
    decodeClusterList: Bytes -> Result<seq<ClusterSummary>>,
    decodeEnvelope: Bytes -> Result<string>,
    parseYaml: string -> Result<Config>)

  /** How a run ends: it returned early after a failure, it panicked on an
      index the merger dereferences, or it produced the merged kubeconfig. */
  datatype Outcome = Aborted | IndexPanic | Merged(full: Config)

  const ClustersPath: string := "/v3/clusters"
  const GenerateAction: string := "generateKubeconfig"

  /** The URL of a cluster's kubeconfig-generation action; a cluster without
      that action yields the empty URL (a missing map key reads as ""). */
  function ActionUrl(c: ClusterSummary): (url: string)
    ensures GenerateAction in c.actions ==> url == c.actions[GenerateAction]
    ensures GenerateAction !in c.actions ==> url == ""
  {
    if GenerateAction in c.actions then c.actions[GenerateAction] else ""
  }

  /** The request sent for one cluster. */
  function PostRequest(c: ClusterSummary, token: string): Request
  {
    BearerRequest(ActionUrl(c), "POST", token)
  }

  /** One iteration of the fetch loop: POST to the action URL, decode the JSON
      envelope, parse the YAML it carries. */
  function Resolve(env: Env, token: string, c: ClusterSummary): (r: Result<Config>)
    // a config only comes out of a 200 reply to the cluster's POST
    ensures r.Ok? ==> env.send(PostRequest(c, token)).Reply? && env.send(PostRequest(c, token)).statusCode == 200
  {
    match HttpRequestBody(env.send, ActionUrl(c), "POST", token).result
    case Err(e) => Err(e)
    case Ok(body) =>
      match env.decodeEnvelope(body)
      case Err(e) => Err(e)
      case Ok(text) => env.parseYaml(text)
  }

  /** What the fetch loop yields: the configs of all clusters in order, or the
      error of the first cluster that fails. */
  function ResolveAll(env: Env, token: string, clusters: seq<ClusterSummary>): (r: Result<seq<Config>>)
    // one config per cluster on success; an empty list cannot fail
    ensures r.Ok? ==> |r.value| == |clusters|
    ensures r.Err? ==> |clusters| > 0
    decreases |clusters|
  {
    if clusters == [] then Ok([])
    else
      match ResolveAll(env, token, clusters[..|clusters| - 1])
      case Err(e) => Err(e)
      case Ok(cs) =>
        match Resolve(env, token, clusters[|clusters| - 1])
        case Err(e) => Err(e)
        case Ok(c) => Ok(cs + [c])
  }

  /** The cluster list: GET the list endpoint, then decode it. */
  function ClusterList(env: Env, token: string, apiUrl: string): (r: Result<seq<ClusterSummary>>)
    // the list is only decoded from a 200 reply to the GET of the list endpoint
    ensures r.Ok? ==>
      var reply := env.send(BearerRequest(apiUrl + ClustersPath, "GET", token));
      reply.Reply? && reply.statusCode == 200 && r == env.decodeClusterList(reply.body)
  {
    match HttpRequestBody(env.send, apiUrl + ClustersPath, "GET", token).result
    case Err(e) => Err(e)
    case Ok(body) => env.decodeClusterList(body)
  }

  /** How the cluster-list stage ends, from the client's reply to the GET:
      a transport failure or a status other than 200 ends the run with that
      error, and a 200 reply yields whatever the decoder makes of its body. */
  lemma {:induction false} ClusterListClassification(env: Env, token: string, apiUrl: string)
    ensures var reply := env.send(BearerRequest(apiUrl + ClustersPath, "GET", token));
      && (reply.TransportError? ==> ClusterList(env, token, apiUrl) == Err(reply.cause))
      && (reply.Reply? && reply.statusCode != 200 ==> ClusterList(env, token, apiUrl) == Err(reply.status))
      && (reply.Reply? && reply.statusCode == 200 ==>
            ClusterList(env, token, apiUrl) == env.decodeClusterList(reply.body))
  {
  }

  /** A failure in a prefix of the clusters is the failure of the whole list. */
  lemma {:induction false} ResolveAllErrExtends(env: Env, token: string, a: seq<ClusterSummary>, b: seq<ClusterSummary>)
    requires ResolveAll(env, token, a).Err?
    ensures ResolveAll(env, token, a + b) == ResolveAll(env, token, a)
    decreases |b|
  {
    if b == [] {
      assert a + b == a;
    } else {
      var n := |b| - 1;
      assert (a + b)[..|a + b| - 1] == a + b[..n];
      ResolveAllErrExtends(env, token, a, b[..n]);
    }
  }

  /** All or nothing, in order: the loop succeeds exactly when every cluster
      resolves, and then yields one config per cluster, the i-th being that of
      the i-th cluster. */
  lemma {:induction false} ResolveAllOk(env: Env, token: string, clusters: seq<ClusterSummary>)
    ensures ResolveAll(env, token, clusters).Ok? <==>
      forall i :: 0 <= i < |clusters| ==> Resolve(env, token, clusters[i]).Ok?
    ensures ResolveAll(env, token, clusters).Ok? ==>
      |ResolveAll(env, token, clusters).value| == |clusters| &&
      forall i :: 0 <= i < |clusters| ==>
        ResolveAll(env, token, clusters).value[i] == Resolve(env, token, clusters[i]).value
    decreases |clusters|
  {
    if clusters != [] {
      var n := |clusters| - 1;
      var init := clusters[..n];
      ResolveAllOk(env, token, init);
      assert forall i :: 0 <= i < n ==> init[i] == clusters[i];
      if ResolveAll(env, token, init).Err? {
        var k :| 0 <= k < n && Resolve(env, token, init[k]).Err?;
        assert Resolve(env, token, clusters[k]).Err?;
      }
    }
  }

  /** A failing loop fails with the error of its first failing cluster. */
  lemma {:induction false} ResolveAllFirstError(env: Env, token: string, clusters: seq<ClusterSummary>)
    requires ResolveAll(env, token, clusters).Err?
    ensures exists k ::
      && 0 <= k < |clusters|
      && (forall j :: 0 <= j < k ==> Resolve(env, token, clusters[j]).Ok?)
      && Resolve(env, token, clusters[k]) == Err(ResolveAll(env, token, clusters).error)
    decreases |clusters|
  {
    var n := |clusters| - 1;
    var init := clusters[..n];
    assert forall i :: 0 <= i < n ==> init[i] == clusters[i];
    if ResolveAll(env, token, init).Err? {
      ResolveAllFirstError(env, token, init);
      var k :| 0 <= k < |init| &&
        (forall j :: 0 <= j < k ==> Resolve(env, token, init[j]).Ok?) &&
        Resolve(env, token, init[k]) == Err(ResolveAll(env, token, init).error);
      assert Resolve(env, token, clusters[k]) == Err(ResolveAll(env, token, clusters).error);
    } else {
      ResolveAllOk(env, token, init);
      assert Resolve(env, token, clusters[n]) == Err(ResolveAll(env, token, clusters).error);
    }
  }

  /** One more cluster resolved: the loop's result grows by its config. */
  lemma {:induction false} ResolveAllStepOk(env: Env, token: string, clusters: seq<ClusterSummary>, i: nat, configs: seq<Config>)
    requires i < |clusters| && ResolveAll(env, token, clusters[..i]) == Ok(configs)
    requires Resolve(env, token, clusters[i]).Ok?
    ensures ResolveAll(env, token, clusters[..i + 1]) == Ok(configs + [Resolve(env, token, clusters[i]).value])
  {
    assert clusters[..i + 1][..i] == clusters[..i];
  }

  /** The k-th cluster is the first one that fails to resolve. */
  predicate FailsFirstAt(env: Env, token: string, clusters: seq<ClusterSummary>, k: int)
  {
    && 0 <= k < |clusters|
    && Resolve(env, token, clusters[k]).Err?
    && forall j :: 0 <= j < k ==> Resolve(env, token, clusters[j]).Ok?
  }

  /** How many clusters the loop tries: up to and including the first one
      that fails, or all of them. */
  function Tried(env: Env, token: string, clusters: seq<ClusterSummary>): (n: nat)
    ensures n <= |clusters|
    decreases |clusters|
  {
    if clusters == [] then 0
    else if Resolve(env, token, clusters[0]).Err? then 1
    else 1 + Tried(env, token, clusters[1..])
  }

  /** `Tried` counts exactly up to the first failure: it is one past a first
      failing cluster, and the whole list when every cluster resolves. */
  lemma {:induction false} TriedStopsAtFirstFailure(env: Env, token: string, clusters: seq<ClusterSummary>, k: nat)
    ensures FailsFirstAt(env, token, clusters, k) ==> Tried(env, token, clusters) == k + 1
    ensures k == |clusters| && (forall j :: 0 <= j < k ==> Resolve(env, token, clusters[j]).Ok?) ==>
      Tried(env, token, clusters) == k
    decreases |clusters|
  {
    if clusters != [] && k > 0 && Resolve(env, token, clusters[0]).Ok? {
      var rest := clusters[1..];
      assert forall j :: 0 <= j < |rest| ==> rest[j] == clusters[j + 1];
      TriedStopsAtFirstFailure(env, token, rest, k - 1);
      if FailsFirstAt(env, token, clusters, k) {
        assert FailsFirstAt(env, token, rest, k - 1);
      }
    }
  }

  /** One cluster failing after a successful prefix: it is the first failure,
      and the whole loop fails with its error. */
  lemma {:induction false} ResolveAllStepErr(env: Env, token: string, clusters: seq<ClusterSummary>, i: nat)
    requires i < |clusters| && ResolveAll(env, token, clusters[..i]).Ok?
    requires Resolve(env, token, clusters[i]).Err?
    ensures FailsFirstAt(env, token, clusters, i)
    ensures ResolveAll(env, token, clusters) == Err(Resolve(env, token, clusters[i]).error)
  {
    ResolveAllOk(env, token, clusters[..i]);
    assert forall j :: 0 <= j < i ==> clusters[..i][j] == clusters[j];
    assert clusters[..i + 1][..i] == clusters[..i];
    ResolveAllErrExtends(env, token, clusters[..i + 1], clusters[i + 1..]);
    assert clusters[..i + 1] + clusters[i + 1..] == clusters;
  }

  /** How one loop step ends, from the client's reply to the cluster's POST:
      a transport failure or a status other than 200 ends it with that error
      and nothing is decoded; a 200 reply's body goes to the envelope decoder,
      whose text goes to the YAML parser. */
  lemma {:induction false} ResolveClassification(env: Env, token: string, c: ClusterSummary)
    ensures var reply := env.send(PostRequest(c, token));
      && (reply.TransportError? ==> Resolve(env, token, c) == Err(reply.cause))
      && (reply.Reply? && reply.statusCode != 200 ==> Resolve(env, token, c) == Err(reply.status))
      && (reply.Reply? && reply.statusCode == 200 && env.decodeEnvelope(reply.body).Err? ==>
            Resolve(env, token, c) == Err(env.decodeEnvelope(reply.body).error))
      && (reply.Reply? && reply.statusCode == 200 && env.decodeEnvelope(reply.body).Ok? ==>
            Resolve(env, token, c) == env.parseYaml(env.decodeEnvelope(reply.body).value))
  {
  }

  /** One iteration of the per-cluster loop: the POST to the cluster's action
      URL, then the envelope and the YAML, each failure ending the iteration. */
  method FetchOne(env: Env, token: string, cluster: ClusterSummary)
    returns (c: Result<Config>, req: Request)
    ensures c == Resolve(env, token, cluster)
    ensures req == PostRequest(cluster, token)
  {
    var f := HttpRequestBody(env.send, ActionUrl(cluster), "POST", token);
    req := f.sent.value;
    if f.result.Err? {
      return Err(f.result.error), req;
    }
    var envelope := env.decodeEnvelope(f.result.value);
    if envelope.Err? {
      return Err(envelope.error), req;
    }
    c := env.parseYaml(envelope.value);
  }

  /** The per-cluster loop. It sends one POST per cluster in list order and
      stops at the first cluster whose fetch, envelope or YAML fails. */
  method FetchConfigs(env: Env, token: string, clusters: seq<ClusterSummary>)
    returns (r: Result<seq<Config>>, sent: seq<Request>)
    ensures r == ResolveAll(env, token, clusters)
    ensures |sent| == Tried(env, token, clusters)
    ensures forall i :: 0 <= i < |sent| ==> sent[i] == PostRequest(clusters[i], token)
    ensures r.Ok? ==> |sent| == |clusters|
    ensures r.Err? ==> FailsFirstAt(env, token, clusters, |sent| - 1)
  {
    var configs: seq<Config> := [];
    sent := [];
    var i := 0;
    while i < |clusters|
      invariant 0 <= i <= |clusters|
      invariant |sent| == i
      invariant forall k :: 0 <= k < i ==> sent[k] == PostRequest(clusters[k], token)
      invariant ResolveAll(env, token, clusters[..i]) == Ok(configs)
    {
      var c, req := FetchOne(env, token, clusters[i]);
      sent := sent + [req];
      if c.Err? {
        r := Err(c.error);
        ResolveAllStepErr(env, token, clusters, i);
        TriedStopsAtFirstFailure(env, token, clusters, i);
        return;
      }
      ResolveAllStepOk(env, token, clusters, i, configs);
      configs := configs + [c.value];
      i := i + 1;
    }
    assert clusters[..i] == clusters;
    ResolveAllOk(env, token, clusters);
    TriedStopsAtFirstFailure(env, token, clusters, i);
    r := Ok(configs);
  }

  /** Prepending one element shifts every index by one. */
  lemma {:induction false} ConsShift<T>(x: T, s: seq<T>)
    ensures forall i :: 0 <= i < |s| ==> ([x] + s)[i + 1] == s[i]
  {
  }

  /** The configs a run with both variables set gets to merge: the cluster
      list, then every cluster's config in order. */
  function FetchedConfigs(env: Env, token: string, apiUrl: string): Result<seq<Config>>
  {
    match ClusterList(env, token, apiUrl)
    case Err(e) => Err(e)
    case Ok(clusters) => ResolveAll(env, token, clusters)
  }

  /** The whole run. `tokenVar` and `urlVar` are the lookups of
      RANCHER2_API_TOKEN and RANCHER2_API_URL; `sent` lists the requests handed
      to the HTTP client, in order. */
  method Run(tokenVar: Option<string>, urlVar: Option<string>, env: Env)
    returns (outcome: Outcome, sent: seq<Request>)
    // a missing variable stops the run before any request
    ensures tokenVar.None? || urlVar.None? ==> outcome == Aborted && sent == []
    // otherwise the first request lists the clusters
    ensures tokenVar.Some? && urlVar.Some? ==>
      0 < |sent| && sent[0] == BearerRequest(urlVar.value + ClustersPath, "GET", tokenVar.value)
    // no cluster is fetched unless the list was read
    ensures tokenVar.Some? && urlVar.Some? && ClusterList(env, tokenVar.value, urlVar.value).Err? ==>
      |sent| == 1 && outcome == Aborted
    // then one POST per cluster tried, in list order, up to and including the first failure
    ensures tokenVar.Some? && urlVar.Some? && ClusterList(env, tokenVar.value, urlVar.value).Ok? ==>
      var clusters := ClusterList(env, tokenVar.value, urlVar.value).value;
      && |sent| - 1 == Tried(env, tokenVar.value, clusters)
      && (forall i :: 0 <= i < |sent| - 1 ==> sent[i + 1] == PostRequest(clusters[i], tokenVar.value))
    // a merge happens exactly when every fetch succeeded and the merger's indexes exist
    ensures outcome.Merged? <==>
      tokenVar.Some? && urlVar.Some? &&
      FetchedConfigs(env, tokenVar.value, urlVar.value).Ok? &&
      Mergeable(FetchedConfigs(env, tokenVar.value, urlVar.value).value)
    // it panics exactly when every fetch succeeded but an index is missing
    ensures outcome.IndexPanic? <==>
      tokenVar.Some? && urlVar.Some? &&
      FetchedConfigs(env, tokenVar.value, urlVar.value).Ok? &&
      !Mergeable(FetchedConfigs(env, tokenVar.value, urlVar.value).value)
    ensures outcome.Merged? ==>
      MergeOf(outcome.full, FetchedConfigs(env, tokenVar.value, urlVar.value).value, DefaultUserName)
    // an empty cluster list leaves the merger nothing to index
    ensures tokenVar.Some? && urlVar.Some? && ClusterList(env, tokenVar.value, urlVar.value) == Ok([]) ==>
      outcome == IndexPanic
  {
    if tokenVar.None? {
      return Aborted, [];
    }
    if urlVar.None? {
      return Aborted, [];
    }
    var token, apiUrl := tokenVar.value, urlVar.value;
    var f := HttpRequestBody(env.send, apiUrl + ClustersPath, "GET", token);
    sent := [f.sent.value];
    if f.result.Err? {
      assert ClusterList(env, token, apiUrl).Err?;
      return Aborted, sent;
    }
    var list := env.decodeClusterList(f.result.value);
    assert list == ClusterList(env, token, apiUrl);
    if list.Err? {
      return Aborted, sent;
    }
    var configs, posts := FetchConfigs(env, token, list.value);
    assert configs == FetchedConfigs(env, token, apiUrl);
    ConsShift(sent[0], posts);
    sent := sent + posts;
    if configs.Err? {
      return Aborted, sent;
    }
    if !Mergeable(configs.value) {
      return IndexPanic, sent;
    }
    var full := Merge(configs.value, DefaultUserName);
    outcome := Merged(full);
  }

  /** A cluster without the generation action is fetched at the empty URL,
      and when that fetch fails (a transport error or a status other than 200)
      the loop aborts with its error. */
  lemma {:induction false} MissingActionFetchesEmptyUrl(env: Env, token: string, clusters: seq<ClusterSummary>, k: nat)
    requires k < |clusters| && GenerateAction !in clusters[k].actions
    requires forall j :: 0 <= j < k ==> Resolve(env, token, clusters[j]).Ok?
    requires HttpRequestBody(env.send, "", "POST", token).result.Err?
    ensures PostRequest(clusters[k], token).url == ""
    ensures ResolveAll(env, token, clusters) == Err(HttpRequestBody(env.send, "", "POST", token).result.error)
  {
    ResolveAllOk(env, token, clusters[..k]);
    assert forall j :: 0 <= j < k ==> clusters[..k][j] == clusters[j];
    ResolveAllStepErr(env, token, clusters, k);
  }
}
