# Rancher2 kubeconfig merger, modelled in Dafny

The program `get_full_kubeconfig.go` asks a Rancher 2 server for its list of
managed clusters, fetches a generated kubeconfig for each cluster, and merges
them into one kubeconfig. That file has one shared user, one context per
cluster, and every cluster entry of every per-cluster kubeconfig. This
project models the deterministic core of that program and proves what it
promises:

- `wrappers.dfy` (module `Wrappers`): `Option` and `Result`. The Go code
  returns a plain `error`, so a failure here carries only the error's text.
- `fetcher.dfy` (module `Fetcher`): `httpRequestBody`. First comes the GET/POST
  guard. Then one request with the `Authorization: Bearer <token>` value is
  built. Last, the reply is classified: a transport error, a status other
  than 200, or a 200 with its body. The HTTP client is a parameter
  `send: Request -> Response`.
- `kubeconfig.dfy` (module `Kubeconfig`): the records `cluster`, `user`,
  `context` and `config`. It also holds the merge loop of `main` as the method
  `Merge`. `MergeOf` states what the merged config is, field by field.
  `AllClusters` is the in-order concatenation of every config's clusters.
  `Mergeable` is what the merger indexes without a check.
- `pipeline.dfy` (module `Pipeline`): `main`. It reads the two environment
  lookups, lists the clusters, and runs the per-cluster loop. Each step of
  the loop POSTs to the `generateKubeconfig` action URL, decodes the JSON
  envelope and parses the YAML. Then comes the merge. The JSON and YAML
  decoders are the function fields of `Env`. `Resolve` is one loop step as a
  function. `ResolveAll` is the whole loop: all configs in order, or the
  first failure. `Run` also returns the list of requests handed to the HTTP
  client, so that "no request is sent" can be stated.

The merger's index-out-of-range panics are the run outcome `IndexPanic`. The
merger indexes `configs[0]`, `configs[0].Users[0]` and every config's
`Clusters[0]` without a check. The run panics when one of them is missing: an
empty cluster list, a first document without users, or any document without
clusters (the YAML decoder leaves such slices empty). Users of later documents
are never read. `Merge` itself requires `Mergeable`, the condition under which
none of these indexes is missing. The merger reads a user only from
`configs[0]`, so `Mergeable` asks for a user only there. The program has only
plain errors, and `main` prints them and returns, so any other failed run is
just `Aborted`.

## Model

| member | source | states |
|---|---|---|
| `Fetcher.HttpRequestBody` | get_full_kubeconfig.go:15-38 | No request is built unless the method is GET or POST, and then the result is the "incorrect http method" error. A body is returned only when the client answered the request sent with status 200, and it is that reply's body. |
| `Fetcher.MethodGuard` | get_full_kubeconfig.go:16-21 | A method other than GET or POST fails with "incorrect http method" and builds no request. GET and POST build exactly one request to the caller's URL with Authorization `Bearer <token>`. |
| `Fetcher.GuardIgnoresTransport` | get_full_kubeconfig.go:16-21 | Which request goes out, if any, does not depend on the HTTP client. A refused method gives the same result whatever the client would answer. |
| `Fetcher.ResponseClassification` | get_full_kubeconfig.go:23-36 | For GET/POST, a body comes back exactly when the reply has status 200, and it is that reply's body unchanged. Another status fails with the status line and no body. A transport failure fails with its own error. |
| `Kubeconfig.Merge` | get_full_kubeconfig.go:135-160 | The merge loop yields exactly `MergeOf`. It has apiVersion "v1" and kind "Config". It has a single user named by the caller (the program passes `myRancher2User`) that carries `configs[0].Users[0]`'s token. current-context is `configs[0].Clusters[0].Name`. The i-th context is named after `configs[i].Clusters[0].Name` and pairs that cluster with the shared user. The clusters are `AllClusters(configs)`. It requires `Mergeable`: what the code indexes unchecked. |
| `Kubeconfig.MergeShape` | get_full_kubeconfig.go:138-159 | The merged config has exactly one user, one context per input config, and as many clusters as all inputs together. Every context uses the shared user and points at the cluster it is named after. current-context is the first context's name. |
| `Kubeconfig.MergeUnique` | get_full_kubeconfig.go:135-160 | `MergeOf` fixes every field of the merged config, so no other result meets `Merge`'s contract. |
| `Kubeconfig.AllClustersLength` | get_full_kubeconfig.go:157-159 | The merged cluster list is as long as the sum of the per-config cluster counts. |
| `Kubeconfig.AllClustersAt` | get_full_kubeconfig.go:157-159 | Cluster j of config i sits in the merged list at the count of all earlier configs' clusters plus j. This holds for every cluster, not just the first, and keeps order within and across configs. |
| `Kubeconfig.AllClustersMembership` | get_full_kubeconfig.go:157-159 | A cluster entry is in the merged list if and only if some input config has it. |
| `Kubeconfig.AllClustersAppend` | get_full_kubeconfig.go:149-159 | Concatenating config lists concatenates their cluster lists. |
| `Kubeconfig.ProdDevScenario` | get_full_kubeconfig.go:135-160 | Two clusters "prod-conn" (token T1) and "dev-conn" (token T2) merge into user myRancher2User with token T1, current-context "prod-conn", two contexts in order, and both clusters in order. |
| `Pipeline.ActionUrl` | get_full_kubeconfig.go:115 | The URL of the cluster's `generateKubeconfig` action when the map has that key, and "" (the map's zero value) when it does not. |
| `Pipeline.Resolve` | get_full_kubeconfig.go:114-131 | One loop step yields a config only when the client answered the cluster's POST with status 200. |
| `Pipeline.ResolveClassification` | get_full_kubeconfig.go:115-131 | How one loop step ends, by the client's reply to the cluster's POST. A transport failure ends it with that error, and so does a status other than 200, with the status line; nothing is decoded then. A 200 body that the envelope decoder rejects ends it with the decoder's error. Otherwise the step yields what the YAML parser makes of the envelope's text. |
| `Pipeline.ResolveAll` | get_full_kubeconfig.go:111-133 | The loop's result: one config per cluster on success, and an empty cluster list cannot fail. |
| `Pipeline.Tried` | get_full_kubeconfig.go:113-133 | The number of clusters the loop tries, and so the number of POSTs it sends, is at most the number of clusters. |
| `Pipeline.TriedStopsAtFirstFailure` | get_full_kubeconfig.go:113-131 | The loop tries every cluster up to and including the first one that fails, and no more. When every cluster resolves, it tries them all. |
| `Pipeline.ClusterList` | get_full_kubeconfig.go:93-109 | The cluster list is decoded only from a 200 reply to the GET of `<url>/v3/clusters`, and it is the decoder's reading of that reply's body. |
| `Pipeline.ClusterListClassification` | get_full_kubeconfig.go:93-109 | How reading the cluster list ends, by the client's reply to the GET of `<url>/v3/clusters`. A transport failure ends it with that error, and a status other than 200 with the status line. A 200 reply yields the decoder's reading of its body, so a body that decodes lets the run go on to the per-cluster loop. |
| `Pipeline.FetchConfigs` | get_full_kubeconfig.go:111-133 | The per-cluster loop returns `ResolveAll` of the cluster list. It sends one POST per cluster in list order, `Tried` of them, so none after the first failure. On success it has tried every cluster. On failure the last cluster tried is the first failing one. |
| `Pipeline.ResolveAllOk` | get_full_kubeconfig.go:113-133 | All or nothing, in order: the loop succeeds if and only if every cluster resolves. Then it yields one config per cluster, and the i-th is cluster i's config. |
| `Pipeline.ResolveAllFirstError` | get_full_kubeconfig.go:113-133 | A failing loop fails with the error of the first cluster that fails, and every earlier cluster resolved. |
| `Pipeline.ResolveAllErrExtends` | get_full_kubeconfig.go:116-131 | Once a prefix of the clusters has failed, later clusters do not change the result. This is the early return. |
| `Pipeline.MissingActionFetchesEmptyUrl` | get_full_kubeconfig.go:115-119 | A cluster whose actions lack `generateKubeconfig` is fetched at the empty URL. If that fetch fails, by a transport error or a status other than 200, the whole loop fails with that error. |
| `Pipeline.Run` | get_full_kubeconfig.go:76-160 | A missing RANCHER2_API_TOKEN or RANCHER2_API_URL aborts with no request sent. Otherwise the first request is the GET of `<url>/v3/clusters`. If that list cannot be read, the run aborts after that one request. Otherwise one POST goes out per cluster tried, in list order, `Tried` of them, so the run stops right after the first failing cluster. The run merges exactly when every fetch succeeded and the indexes exist, and the result is `MergeOf` the fetched configs. It panics exactly when every fetch succeeded but an index is missing, which includes an empty cluster list. Any other failure aborts. |

## Left out

- HTTP transport (`http.NewRequest`, `cl.Do`, `resp.Body.Close`, `io.ReadAll`): the client is the parameter `send`. It is a function of the request, so the model assumes the same request always gets the same reply.
- The error `http.NewRequest` can return is ignored by the code. For a URL it rejects, the code dereferences a nil request and panics. URL parsing belongs to the library, so the model treats every URL as accepted.
- The error of `io.ReadAll` is ignored by the code too. The body of a `Reply` is whatever was read.
- JSON and YAML decoding (`encoding/json`, `gopkg.in/yaml.v3`): these are the functions of `Env`. YAML key names are serialisation detail.
- Environment lookup: the two `os.LookupEnv` results are the `Option` inputs of `Run`.
- Serialising the merged config with `yaml.Marshal` and writing `fullkubeconfig` with `os.WriteFile` are not modelled. `Run` ends with the merged config that would be written.
- Diagnostic `fmt.Printf` output has no effect on results and is not modelled.
