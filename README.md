# Fleet addon provider for Cluster API: a verified model of its core

The operator projects Cluster API objects into Fleet objects. This project
models four small pieces of it in Dafny and proves what they do:

- **the cache middleware** (`cache.dfy`, with `path_split.dfy`): a request
  stage in front of the Kubernetes client for one resource kind K. It splits
  a GET path with `splitn(8, "/")` and recognises the namespaced shape
  `/{api|apis}/{group}/{version}/namespaces/{ns}/{plural}/{name}` and the
  cluster-scoped shape `/{api|apis}/{group}/{version}/{plural}/{name}` of K,
  turning a match into a reflector-store key. As the code stands, a match only
  prints a read of the store; every request is handed to the inner service
  unchanged, exactly once, and its response is returned. Nothing is served
  from the store. `Cache` is a class holding the inner service (a function of
  the requests it has seen and the new one), the shared store and the list of
  requests forwarded so far.
- **the static ClusterGroup reconciler** (`static_groups.dfy`): the two global
  ClusterGroups `fleet-addon-clusters` and `fleet-addon-clusterclasses`, each
  with a single `match_labels` entry of the well-known label set to `""`. On
  Apply they are get-or-created in that order, and the first error ends the
  reconcile. Cleanup is `todo!()` and panics. The store of groups is a class
  whose `GetOrCreate` returns the stored group or creates the desired one.
  `ApplySpec` is the pure specification the imperative `EnsureGroupsExist`
  is proved against.
- **the watch-event predicate** (`predicates.dfy`): `generation_with_deletion`
  reports 0 for an object being deleted and its generation, cast from `i64`
  to `u64`, otherwise.
- **the addon configuration** (`fleet_addon_config.dfy`): the
  `FleetAddonConfig` resource and its `Default`, with both controllers
  enabled. The derived default of its spec leaves both sections out.

`wrappers.dfy` holds `Option` and `Result`. `kube.dfy` holds the pieces of
the Kubernetes client library the core reads: `ObjectMeta`, `ObjectRef` and
the 64-bit integer types.

Where the design description and the code differ, the model follows the
code:

- The design describes a read-through cache that serves hits from the
  store. The code only prints the store read at `src/middleware/cache.rs:241`
  and forwards the request at `:244`.
- The design places the two ClusterGroups in the Cluster's namespace.
  `ClusterGroup::new` at `src/controllers/static_groups.rs:34-54` sets only
  the name. The namespace computed at `:31` goes to the finalizer's API only.
  The model therefore keys the desired groups by namespace `""`.
- The design suggests a no-op Cleanup. The code has `todo!()` at
  `src/controllers/static_groups.rs:67`, which the model renders as a panic.
- Both path shapes accept `api` as well as `apis`, but each is always followed
  by a group piece. Core-group paths such as `/api/v1/namespaces/ns/pods/p`
  have no group piece, so they are never recognised
  (`CacheMiddleware.CoreGroupPathsUnrecognised`). This has no effect on any
  response, since nothing is served from the store.

## Model

| member | source | states |
|---|---|---|
| PathSplit.SplitN | src/middleware/cache.rs:207 | `splitn(n, "/")` yields between 1 and n pieces |
| PathSplit.FirstSlash | src/middleware/cache.rs:207 | the split point is a slash with no slash before it |
| PathSplit.SplitNShape | src/middleware/cache.rs:207 | every piece but the last is slash-free, and the last is slash-free too when fewer than n pieces come out, so the 8th piece keeps the rest of the path, slashes included |
| PathSplit.JoinSplitN | src/middleware/cache.rs:207 | splitting loses nothing: rejoining the pieces with `/` gives the path back |
| PathSplit.SplitNJoin | src/middleware/cache.rs:207 | splitting the join of pieces that splitn could have produced gives those pieces back |
| PathSplit.JoinSnoc | src/middleware/cache.rs:207 | appending a piece appends `/` and the piece to the joined path |
| CacheMiddleware.ClassifyPath | src/middleware/cache.rs:205-238 | a namespaced key comes only from exactly 8 pieces with a slash-free namespace; a cluster-scoped key comes only from exactly 6 pieces with a slash-free name |
| CacheMiddleware.RouteKey | src/middleware/cache.rs:197-203 | a request that is not a GET yields no key and its path is not parsed |
| CacheMiddleware.ArmsDisjoint | src/middleware/cache.rs:208-233 | the two shapes need 8 and 6 pieces, so at most one of them matches |
| CacheMiddleware.MatchPathPieces | src/middleware/cache.rs:209-231 | the pieces of an object path built for kind `other` yield its key exactly when the prefix is `api` or `apis` and `other` is K (same group, version and plural), and yield nothing otherwise |
| CacheMiddleware.MatchedPieces | src/middleware/cache.rs:209-231 | pieces that match have `api` or `apis` second and are exactly the object-path pieces of the key they yield |
| CacheMiddleware.ClassifyObjectPath | src/middleware/cache.rs:205-233 | the path of an object of kind `other` is recognised, with its own key, exactly when the prefix is `api`/`apis` and `other` is K |
| CacheMiddleware.ClassifiedIsObjectPath | src/middleware/cache.rs:205-233 | every recognised path is the object path of the key it yields, so the key is recognised only from its own path |
| CacheMiddleware.NamespacedSubresource | src/middleware/cache.rs:207-216 | a namespaced subresource path `.../{plural}/{name}/{sub}` is still recognised, with name `{name}/{sub}` |
| CacheMiddleware.ClusterScopedSubresource | src/middleware/cache.rs:224-237 | a cluster-scoped subresource path has 7 pieces and is not recognised |
| CacheMiddleware.UnrecognisedPieceCount | src/middleware/cache.rs:207-237 | a path that splits into neither 8 nor 6 pieces is never recognised |
| CacheMiddleware.ListPathsUnrecognised | src/middleware/cache.rs:234-237 | list paths, which end in the plural rather than a name, are not recognised, whether namespaced or cluster-scoped |
| CacheMiddleware.CoreGroupPathsUnrecognised | src/middleware/cache.rs:209-224 | core-group object paths `/api/{version}/...`, which have no group piece, are never recognised |
| CacheMiddleware.Store.Get | src/middleware/cache.rs:241 | the store read, as a plain map lookup, finds an object exactly when its key is stored, and returns the stored object |
| CacheMiddleware.DebugReadsOf | src/middleware/cache.rs:241 | a recognised request leaves one printed store read of its key, found exactly when the key is stored; an unrecognised request leaves none |
| CacheMiddleware.Cache.Call | src/middleware/cache.rs:197-244 | every request is appended once to what the inner service has received, unchanged; the response is the inner service's own; the only other effect is the printed store read of the request's key |
| CacheMiddleware.CacheLayer.constructor | src/middleware/cache.rs:40-44 | the layer holds the given store |
| CacheMiddleware.CacheLayer.Layer | src/middleware/cache.rs:54-59 | a fresh middleware around the inner service, sharing the layer's store, which has forwarded nothing yet |
| Predicates.AsU64 | src/predicates.rs:7 | `i64 as u64` keeps a non-negative generation and adds 2^64 to a negative one |
| Predicates.AsU64Injective | src/predicates.rs:7 | the cast maps different generations to different values |
| Predicates.Generation | src/predicates.rs:7 | the library's predicate is present exactly when the generation is, and is then the cast generation |
| Predicates.GenerationWithDeletion | src/predicates.rs:4-8 | a deleting object yields `Some(0)`; any other object yields the library's generation predicate |
| Predicates.SilentIffLiveWithoutGeneration | src/predicates.rs:4-8 | the result is `None` exactly for an object that is not being deleted and has no generation, so a deleting object never yields `None` |
| Predicates.DeletingObjectsAgree | src/predicates.rs:5-6 | any two deleting objects yield the same value, `Some(0)`, whatever their generations |
| Predicates.DeletionObserved | src/predicates.rs:4-8 | setting a deletion timestamp changes the value exactly when the generation is not already 0 |
| StaticGroups.FinalizerNamespace | src/controllers/static_groups.rs:31-32 | the finalizer's namespace is the Cluster's, or `""` when it has none |
| StaticGroups.DesiredGroups | src/controllers/static_groups.rs:34-54 | the groups `fleet-addon-clusters` and `fleet-addon-clusterclasses`, with no namespace, whose selectors hold exactly `{clusters label: ""}` and `{clusterclasses label: ""}` |
| StaticGroups.DesiredGroupsIndependent | src/controllers/static_groups.rs:34-54 | every Cluster yields the same two groups, whatever its name, namespace or spec |
| StaticGroups.SelectorsStable | src/controllers/static_groups.rs:26-27 | each group selects exactly the label sets carrying its well-known label with value `""` |
| StaticGroups.Wrap | src/controllers/static_groups.rs:60-61 | a failed get-or-create becomes a `GroupSyncError`, then a `SyncError`, then the crate's error wrapped by the finalizer, and the original cause is kept |
| StaticGroups.GetOrCreateSpec | src/controllers/static_groups.rs:58-65 | a failing call returns that key's error and changes nothing; a stored group is returned unchanged; a missing one is created as desired and returned |
| StaticGroups.ApplySpec | src/controllers/static_groups.rs:57-66 | the Apply branch never panics; its first call is the clusters group's, and a second call, if made, is the classes group's |
| StaticGroups.ClusterGroupApi.GetOrCreate | src/controllers/static_groups.rs:58-61 | the call is logged by key; its result and the new store are those of `GetOrCreateSpec` |
| StaticGroups.EnsureGroupsExist | src/controllers/static_groups.rs:55-73 | on Apply, the outcome, the new store and the calls made are those of `ApplySpec`; on Cleanup, it panics and makes no call |
| StaticGroups.ClustersGroupFirst | src/controllers/static_groups.rs:57-61 | if the clusters group's call fails, the reconcile fails with that call's error, wrapped; nothing changes, and the clusters call is the only one made |
| StaticGroups.ClassesGroupSecond | src/controllers/static_groups.rs:62-65 | if the clusters group syncs and the classes call fails, the reconcile fails with the classes call's error, wrapped; both calls are made, and the clusters group stays stored |
| StaticGroups.ApplySucceedsIff | src/controllers/static_groups.rs:57-73 | Apply ends in `AwaitChange` exactly when neither call fails, and both groups are then stored |
| StaticGroups.ApplyOnlyAdds | src/controllers/static_groups.rs:57-65 | Apply never changes or removes a stored group, and adds only the two desired ones |
| StaticGroups.ApplyIdempotent | src/controllers/static_groups.rs:57-65 | reconciling again on the store a reconcile left gives the same outcome and the same store |
| StaticGroups.SettledAfterSuccess | src/controllers/static_groups.rs:57-65 | after a successful Apply, a later Apply leaves the store unchanged, whichever calls fail then |
| FleetAddonConfig.SpecDefault | src/api/fleet_addon_config.rs:6-17 | the derived default spec leaves out both the cluster-class and cluster sections |
| FleetAddonConfig.Default | src/api/fleet_addon_config.rs:19-33 | the default config has empty metadata and both sections present with `enabled: Some(true)` |
| FleetAddonConfig.DefaultsDiffer | src/api/fleet_addon_config.rs:6-33 | the config's default spec is not the derived spec default |

## Left out

- `poll_ready` of the middleware: it only forwards readiness of the inner service, so there is nothing to model without futures.
- The asynchronous futures of `Cache::call` are not modelled. In the non-GET and unrecognised branches the inner call sits inside an `async move` block and runs only when the future is polled. A recognised GET calls the inner service at once. The model treats both timings as one synchronous call.
- The watch that fills the reflector store is not modelled. The middleware only reads the store, so the model fixes its contents for the duration of a call.
- CacheMiddleware.Store.Get: the reflector store is modelled as a plain map from key to object, a deliberate simplification. The library's own `Store::get`, which may fall back to other keys, is not part of this model. This affects only the `found` part of the printed store read.
- The `dbg!` output is modelled as the list `debugReads` of (store size, key, lookup result). The printing itself is I/O.
- The kube `finalizer` state machine, which adds and removes the finalizer and picks Apply or Cleanup from the deletion timestamp, is not part of this model. `EnsureGroupsExist` takes the event it would hand over. How it turns a failed Apply into the crate's error is assumed to be the wrapping `FinalizerError(ApplyFailed(...))`.
- `get_or_create` is not part of this model. Its effect is modelled as "return the stored group with the object's (namespace or `""`, name) key, else create the desired one".
- API failures are modelled as a fixed map from group key to the error its calls end in. Errors that come and go between calls are not captured.
- The `ClusterGroup` and `Cluster` resource definitions are not part of this model. Only the fields the reconciler sets or reads are kept.
- Tracing spans (`#[instrument]`) and telemetry are not modelled.
- `src/main.rs`, `src/metrics.rs`, `src/lib.rs` (beyond the error variants used above) and `src/api/mod.rs` are not part of this model. They are server plumbing, metrics with floating point, and module glue.
