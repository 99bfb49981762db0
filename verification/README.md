# Replicated Terraform provider: reconciliation core in Dafny

This project models the reconciliation logic of the Replicated Terraform
provider. That logic turns a declared configuration into calls on the
Replicated vendor API, and turns the API's answers back into persisted
Terraform state. It has three parts:

- **Customer resource** (`customer_resource.dfy`, with `composite_id.dfy`
  and `entitlements.dfy`). The state id is the composite string
  `app/{appID}/customer/{customerID}`. Read, Update and Delete take it apart
  with `strings.Split(id, "/")` and index it. The declared entitlement map
  is flattened into a list of name/value pairs for the API. The API's list
  is folded back into a map, and a later pair overwrites an earlier pair
  with the same name. A response becomes state by a full replace. Read
  drops the resource only when the error text is exactly
  `Customer not found`. Delete archives the customer.
- **Cluster resource** (`cluster_resource.dfy`). Create validates the TTL
  and wait durations before any remote call. Its options hold only the
  fields that are set. It copies back what the API assigned and may wait
  for the cluster to come up: `waitForCluster` polls every 5 seconds until
  the cluster is running, fails, or passes the deadline. Read drops the
  resource on any error and fetches the kubeconfig only for a running
  cluster. Update makes no remote call. Delete removes the cluster.
- **Provider** (`provider.dfy`). Configure resolves the API endpoint and
  token from the provider block, the environment and a default. It also
  states which resources are registered.

Shared values live in `framework.dfy`: Option, Result, diagnostics, and the
outcome an operation leaves for the framework (new state, drop from state,
done, error, or a Go run-time panic).

The remote API is an oracle. It is a datatype of functions that say what
each call returns. For the cluster API, what GetCluster returns also
depends on the clock reading at the call. Each operation returns the list
of calls it made, in order. This is how the model states things like "no
call is made before validation passes", "Update calls nothing" and
"Delete archives with segment 3 of the id and nothing else". The clock is
an injected value in nanoseconds. Each sleep between polls advances it by
exactly 5 s. Duration parsing is a function passed in as a parameter.

The ten customer license flags are a `set<Flag>` of the flags that are
true. The Update code never assigns the installer-support field of its
options, so the modelled update options never carry that flag.

The model follows the code as written, including where its behaviour is
surprising:

- Decode checks neither the segment count nor the literal segments. An id
  with fewer than four segments makes the Go indexing panic (`Panicked`
  here). Extra segments are ignored, and `app//customer/` decodes to two
  empty ids instead of being refused (`CompositeId.EmptyPiecesAreAccepted`,
  `CompositeId.DecodeIgnoresExtraPieces`).
- The state id written by Create, Read and Update is rebuilt from the
  declared (or decoded) app id plus the customer id in the response. It is
  not taken from the response's channel. Update does not preserve the old
  id.
- Cluster Read drops the resource on any GetCluster error, not only on
  not-found.
- When a cluster wait times out, Create does not set the kubeconfig. It
  keeps whatever the plan held for it, which is not "".

## Model

| member | source | states |
|---|---|---|
| CompositeId.Split | internal/provider/customer_resource.go:252-253 | `strings.Split` on "/" gives one piece more than there are separators (so `""` gives one empty piece), and no piece contains the separator |
| CompositeId.JoinSplit | internal/provider/customer_resource.go:252-253 | the pieces of any id rejoin to that id, so splitting loses nothing |
| CompositeId.SplitJoin | internal/provider/customer_resource.go:252-253 | splitting the join of separator-free pieces gives those pieces back |
| CompositeId.Encode | internal/provider/customer_resource.go:369 | the state id is the four pieces `app`, app id, `customer`, customer id joined by "/" |
| CompositeId.Decode | internal/provider/customer_resource.go:252-253 | pieces 1 and 3 of the split id; no result (the Go index panic) exactly when the id has fewer than three separators; neither returned id contains a separator; the literal pieces and the piece count are not checked (see DecodeJoin) |
| CompositeId.DecodeJoin | internal/provider/customer_resource.go:252-253 | decoding yields pieces 1 and 3 whenever there are at least four pieces, whatever pieces 0 and 2 are and whatever follows; with fewer pieces the indexing panics |
| CompositeId.DecodeEncode | internal/provider/customer_resource.go:369 | round trip: decoding an encoded id gives back the app id and customer id, when neither contains "/" |
| CompositeId.EncodeDecode | internal/provider/customer_resource.go:252-253 | an id of exactly the form `app/a/customer/c` is rebuilt unchanged from what it decodes to |
| CompositeId.DecodeIgnoresExtraPieces | internal/provider/customer_resource.go:317 | segments after the fourth are ignored: an encoded id plus any "/" suffix decodes to the same pair |
| CompositeId.SeparatorInAppIdBreaksRoundTrip | internal/provider/customer_resource.go:369 | an app id containing "/" does not round-trip; the literal `customer` is taken as the customer id |
| CompositeId.EmptyPiecesAreAccepted | internal/provider/customer_resource.go:252-253 | `app//customer/` decodes to two empty ids; it is not refused |
| CompositeId.ShortIdsDoNotDecode | internal/provider/customer_resource.go:347 | `bogus` and `app/only` have too few segments: indexing them panics |
| Entitlements.Flatten | internal/provider/customer_resource.go:194-198 | the flattened list has one pair per map key, carrying that key's value, with no name twice; its length is the map's size and its names are exactly the keys |
| Entitlements.Fold | internal/provider/customer_resource.go:360-364 | the loop that writes the response list into a map computes the in-order fold `Folded` |
| Entitlements.FoldedKeys | internal/provider/customer_resource.go:360-364 | the folded map's keys are exactly the names in the list |
| Entitlements.FoldedLastWins | internal/provider/customer_resource.go:362-364 | last write wins: each name maps to the value of the last pair with that name |
| Entitlements.FoldListing | internal/provider/customer_resource.go:290-292 | folding any flattening of a map gives that map back: fold undoes flatten (the converse does not hold, since duplicate names collapse and the order is arbitrary) |
| CustomerResource.ModelFromCustomer | internal/provider/customer_resource.go:359-392 | state from a response: id encoded from the given app id and the response's id; first channel; entitlements folded, with the keys being the listed names and last write winning; expiry only when present; every other field and all ten flags copied |
| CustomerResource.Create | internal/provider/customer_resource.go:178-241 | exactly one create call, carrying every declared field, a listing of the entitlement map that folds back to exactly that map, and a one-element channel list with the declared channel; a gateway error is reported as "Server Error" and nothing is saved; otherwise the state is built from the response for the declared app id |
| CustomerResource.Read | internal/provider/customer_resource.go:243-267 | asks the gateway for segments 1 and 3 of the id (a short id panics); drops the resource iff the error text is exactly "Customer not found"; any other error is reported; otherwise the state is fully replaced from the response |
| CustomerResource.Update | internal/provider/customer_resource.go:269-335 | one update call for segment 3 of the prior id, with every declared field except the installer-support flag, and entitlement pairs that fold back to exactly the declared map; an error is reported and nothing is saved; otherwise the state is rebuilt from the response for the declared app id |
| CustomerResource.Delete | internal/provider/customer_resource.go:337-353 | exactly one call, archiving segment 3 of the prior id; an archive error is reported |
| CustomerResource.StateIdDecodes | internal/provider/customer_resource.go:236 | the id of any state built from a response decodes to the declared app id and the returned customer id |
| ClusterResource.Wait | internal/provider/cluster_resource.go:305-325 | the wait protocol polls at least once; starting at or before the deadline it polls at most (deadline - start)/5 s + 2 times; starting past the deadline it polls once |
| ClusterResource.WaitForCluster | internal/provider/cluster_resource.go:305-324 | the polling loop returns what `Wait` specifies, after GetCluster calls made exactly 5 s apart from the start |
| ClusterResource.WaitOkObserved | internal/provider/cluster_resource.go:313-320 | a wait that succeeds returns the cluster observed at its last poll, made at start + (polls - 1) × 5 s: either running, or past the deadline and in no error status |
| ClusterResource.WaitErrObserved | internal/provider/cluster_resource.go:308-316 | a wait that fails does so at its last poll, made at start + (polls - 1) × 5 s, where GetCluster either failed (the error wrapped as "get cluster: …") or returned error/upgrade_error ("cluster failed to provision") |
| ClusterResource.WaitEarlierPollsUndecided | internal/provider/cluster_resource.go:307-323 | every poll before the last saw the cluster in progress and came at or before the deadline, so the wait ends at the first poll that errors, sees running, sees error/upgrade_error, or comes after the deadline |
| ClusterResource.WaitTimesOut | internal/provider/cluster_resource.go:317-320 | a cluster that stays in progress makes the wait end, without error, on that cluster |
| ClusterResource.BuildCreateOpts | internal/provider/cluster_resource.go:155-175 | the create options always carry the distribution; name, version and instance type exactly when non-empty; disk and nodes exactly when > 0; the TTL exactly when the parsed TTL is > 0 |
| ClusterResource.FinishCreate | internal/provider/cluster_resource.go:190-216 | copy-back of id, name, version, disk and nodes; with no positive wait the kubeconfig is ""; with one, the kubeconfig is fetched only for a running cluster, and a fetch or wait failure is an error |
| ClusterResource.Create | internal/provider/cluster_resource.go:125-220 | an unparsable wait duration or TTL is reported and no call is made; then one create call; a gateway error or validation feedback is reported and nothing is saved; otherwise Create finishes as FinishCreate states |
| ClusterResource.Read | internal/provider/cluster_resource.go:222-260 | any GetCluster error, and only that, drops the resource; otherwise id, name, distribution, version, disk and nodes are refreshed; the kubeconfig is fetched iff the cluster is running and is "" otherwise; a failed fetch is reported as "Server Error" and nothing is saved |
| ClusterResource.Update | internal/provider/cluster_resource.go:262-282 | no remote call; the plan is persisted unchanged |
| ClusterResource.Delete | internal/provider/cluster_resource.go:284-299 | exactly one remove call with the state id; its error is reported as "Client Error" |
| Provider.Configure | internal/provider/provider.go:54-98 | endpoint: config, else REPLICATED_API_ORIGIN, else the default URL; token: config, else REPLICATED_API_TOKEN; an empty token gives exactly the "Missing API Token Configuration" error and no client; otherwise one client is given to both data sources and resources |
| Provider.Resources | internal/provider/provider.go:100-104 | the cluster resource is registered and the customer resource is not |

## Left out

- The HTTP client in `client.go` is not part of this model. The resources do not use it; they call the vendor client library, which appears here only as the gateway oracle.
- `Schema`, `Metadata`, `ImportState` and the resources' own `Configure` methods are framework declarations and type assertions. Default values such as license type "trial" or the installer flag `true` come from the schema, so the model takes them as part of the plan. Note that the customer resource's `Configure` expects a different client type than the provider hands out, and the customer resource is not registered.
- Reading plan, state and config into the model, and writing state back, can fail with framework diagnostics. Those paths are not modelled, and neither is the entitlement `ElementsAs` diagnostic: the declared map is a plain map.
- Go's duration grammar (`time.ParseDuration`) is a parameter of cluster Create. The expiry timestamp layout (`Expires.Format`) is not modelled: the response carries the already formatted text.
- Wall-clock time and `time.Sleep` are not modelled. The clock is injected, and only the 5-second sleeps advance it. The time a GetCluster call takes is not modelled, so every poll happens exactly 5 s after the previous one.
- The text of validation feedback (formatted with `%v`) and of gateway errors is an opaque string.
- Disk size and node count are unbounded integers. The source's int64 and int conversions cannot overflow on a 64-bit platform.
- The order of the flattened entitlement list is an arbitrary choice, as Go's map iteration order is.
- `tflog` tracing, `DataSources` (an empty list) and `New` are not modelled. They have no behaviour of interest.
