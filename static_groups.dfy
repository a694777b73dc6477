/**
  The static ClusterGroup reconciler: for every CAPI Cluster event it makes
  sure the two global Fleet ClusterGroups exist, one selecting every cluster
  labelled for the addon and one selecting every cluster class, each by a
  single well-known label with an empty value.
*/
module StaticGroups {
  import opened Wrappers
  import opened Kube

  const AllClusterClassLabel: string := "clusterclasses.fleet.addons.cluster.x-k8s.io"
  const AllClusterLabel: string := "clusters.fleet.addons.cluster.x-k8s.io"
  const AllClustersGroupName: string := "fleet-addon-clusters"
  const AllClassesGroupName: string := "fleet-addon-clusterclasses"

  /** One `matchExpressions` entry of a label selector. */
  datatype LabelSelectorRequirement = LabelSelectorRequirement(key: string, operator: string, values: Option<seq<string>>)

  /** The selector of a Fleet ClusterGroup. */
  datatype ClusterGroupSelector = ClusterGroupSelector(
    matchExpressions: Option<seq<LabelSelectorRequirement>>,
    matchLabels: Option<map<string, string>>)

  datatype ClusterGroupSpec = ClusterGroupSpec(selector: Option<ClusterGroupSelector>)

  /** A Fleet ClusterGroup. */
  datatype ClusterGroup = ClusterGroup(metadata: ObjectMeta, spec: ClusterGroupSpec)

  /** The part of a CAPI Cluster's spec the operator reads elsewhere: its topology class. */
  datatype ClusterSpec = ClusterSpec(topologyClass: Option<string>)

  /** A CAPI Cluster. */
  datatype Cluster = Cluster(metadata: ObjectMeta, spec: ClusterSpec)

  /** `ClusterGroup::new(name, spec)`: the name is the only metadata set. */
  function NewClusterGroup(name: string, spec: ClusterGroupSpec): ClusterGroup {
    ClusterGroup(EmptyMeta().(name := Some(name)), spec)
  }

  /** A selector with one `match_labels` entry `labelKey = ""` and nothing else. */
  function SelectorFor(labelKey: string): ClusterGroupSpec {
    ClusterGroupSpec(Some(ClusterGroupSelector(None, Some(map[labelKey := ""]))))
  }

  /** The namespace of the finalizer's API: the Cluster's, or `""` when it has none. */
  function FinalizerNamespace(cluster: Cluster): (ns: string)
    ensures cluster.metadata.namespace.Some? ==> ns == cluster.metadata.namespace.value
    ensures cluster.metadata.namespace.None? ==> ns == ""
  {
    cluster.metadata.namespace.GetOr("")
  }

  /** The two groups to exist, clusters group first; the Cluster plays no part in them. */
  function DesiredGroups(cluster: Cluster): (groups: (ClusterGroup, ClusterGroup))
    ensures groups.0.metadata.name == Some(AllClustersGroupName)
    ensures groups.1.metadata.name == Some(AllClassesGroupName)
    ensures groups.0.metadata.namespace.None? && groups.1.metadata.namespace.None?
    ensures groups.0.spec.selector == Some(ClusterGroupSelector(None, Some(map[AllClusterLabel := ""])))
    ensures groups.1.spec.selector == Some(ClusterGroupSelector(None, Some(map[AllClusterClassLabel := ""])))
  {
    (NewClusterGroup(AllClustersGroupName, SelectorFor(AllClusterLabel)),
     NewClusterGroup(AllClassesGroupName, SelectorFor(AllClusterClassLabel)))
  }

  /** Every Cluster, whatever its name, namespace or spec, yields the same two groups. */
  lemma DesiredGroupsIndependent(a: Cluster, b: Cluster)
    ensures DesiredGroups(a) == DesiredGroups(b)
  {
  }

  /** Label-selector semantics for a selector without expressions: every `match_labels` entry is carried. */
  predicate MatchLabelsSelect(selector: ClusterGroupSelector, labels: map<string, string>)
    requires selector.matchExpressions.None?
  {
    match selector.matchLabels
    case None => true
    case Some(wanted) => forall k :: k in wanted ==> k in labels && labels[k] == wanted[k]
  }

  /**
    The two selectors select exactly the objects carrying their label with an
    empty value, whatever else they carry.
  */
  lemma SelectorsStable(cluster: Cluster, labels: map<string, string>)
    ensures MatchLabelsSelect(DesiredGroups(cluster).0.spec.selector.value, labels)
            <==> AllClusterLabel in labels && labels[AllClusterLabel] == ""
    ensures MatchLabelsSelect(DesiredGroups(cluster).1.spec.selector.value, labels)
            <==> AllClusterClassLabel in labels && labels[AllClusterClassLabel] == ""
  {
  }

  /** A failed API call; its cause is not modelled. */
  datatype KubeError = KubeError(reason: string)

  /** The error of syncing one group. */
  datatype GroupSyncError = GroupSyncError(cause: KubeError)

  /** The controllers' sync error; only the group case arises here. */
  datatype SyncError = GroupSync(group: GroupSyncError)

  /** The crate's error; a failed reconcile body comes back wrapped by the finalizer. */
  datatype Error = FleetError(sync: SyncError) | FinalizerError(failure: FinalizerFailure)

  /** `finalizer::Error`: the Apply callback failed with the wrapped error. */
  datatype FinalizerFailure = ApplyFailed(error: Error)

  /** `controller::Action`: wait for the next change, or retry after a delay. */
  datatype Action = AwaitChange | RequeueAfter(seconds: nat)

  /** What the finalizer hands the reconcile body. */
  datatype Event = Apply(cluster: Cluster) | Cleanup(cluster: Cluster)

  /** How a reconcile ends: an action, an error, or a panic. */
  datatype Outcome = Done(action: Action) | Failed(error: Error) | Panicked(message: string)

  /** What a group's API key is: its namespace (`""` when unset) and name. */
  type GroupKey = (string, string)

  function KeyOf(group: ClusterGroup): GroupKey {
    (group.metadata.namespace.GetOr(""), group.metadata.name.GetOr(""))
  }

  /** The error that a failed get-or-create of a group turns into: the cause, wrapped by each layer. */
  function Wrap(e: KubeError): (r: Error)
    ensures r.FinalizerError? && r.failure.error.FleetError?
    ensures r.failure.error.sync.group.cause == e
  {
    FinalizerError(ApplyFailed(FleetError(GroupSync(GroupSyncError(e)))))
  }

  /** The result of one get-or-create and the groups afterwards. */
  datatype Synced = Synced(result: Result<ClusterGroup, KubeError>, groups: map<GroupKey, ClusterGroup>)

  /**
    Get-or-create against the stored groups: a call on a failing key fails
    with that key's error and changes nothing; an existing group is returned
    unchanged, never updated; a missing one is created as desired.
  */
  function GetOrCreateSpec(groups: map<GroupKey, ClusterGroup>, failing: map<GroupKey, KubeError>, desired: ClusterGroup): (s: Synced)
    ensures KeyOf(desired) in failing ==> s.result == Err(failing[KeyOf(desired)]) && s.groups == groups
    ensures KeyOf(desired) !in failing ==>
              s.result.Ok? && KeyOf(desired) in s.groups && s.result.value == s.groups[KeyOf(desired)]
    ensures KeyOf(desired) in groups ==> s.groups == groups
    ensures KeyOf(desired) !in groups && KeyOf(desired) !in failing ==> s.groups == groups[KeyOf(desired) := desired]
  {
    var key := KeyOf(desired);
    if key in failing then Synced(Err(failing[key]), groups)
    else if key in groups then Synced(Ok(groups[key]), groups)
    else Synced(Ok(desired), groups[key := desired])
  }

  /** The outcome of the Apply branch, the groups afterwards and the keys of the calls made, in order. */
  datatype Applied = Applied(outcome: Outcome, groups: map<GroupKey, ClusterGroup>, calls: seq<GroupKey>)

  /**
    The Apply branch: the clusters group is synced first and a failure
    ends the reconcile before the classes group is tried; success of both
    ends in `AwaitChange`. It never panics, and its first call is always
    the clusters group's.
  */
  function ApplySpec(groups: map<GroupKey, ClusterGroup>, failing: map<GroupKey, KubeError>, cluster: Cluster): (r: Applied)
    ensures r.outcome.Done? || r.outcome.Failed?
    ensures 1 <= |r.calls| <= 2 && r.calls[0] == AllClustersKey()
    ensures |r.calls| == 2 ==> r.calls[1] == AllClassesKey()
  {
    var (allClusters, allClasses) := DesiredGroups(cluster);
    var first := GetOrCreateSpec(groups, failing, allClusters);
    if first.result.Err? then Applied(Failed(Wrap(first.result.error)), first.groups, [KeyOf(allClusters)])
    else
      var second := GetOrCreateSpec(first.groups, failing, allClasses);
      var calls := [KeyOf(allClusters), KeyOf(allClasses)];
      if second.result.Err? then Applied(Failed(Wrap(second.result.error)), second.groups, calls)
      else Applied(Done(AwaitChange), second.groups, calls)
  }

  function AllClustersKey(): GroupKey {
    ("", AllClustersGroupName)
  }

  function AllClassesKey(): GroupKey {
    ("", AllClassesGroupName)
  }

  /**
    The API the groups are created through: the stored groups, the error
    each failing key's calls end in, and the keys of the calls made so far.
  */
  class ClusterGroupApi {
    var groups: map<GroupKey, ClusterGroup>
    var calls: seq<GroupKey>
    const failing: map<GroupKey, KubeError>

    constructor (groups: map<GroupKey, ClusterGroup>, failing: map<GroupKey, KubeError>)
      ensures this.groups == groups && this.failing == failing && calls == []
    {
      this.groups := groups;
      this.failing := failing;
      calls := [];
    }

    /** `get_or_create`: return the stored group with the desired key, else create it. */
    method GetOrCreate(desired: ClusterGroup) returns (result: Result<ClusterGroup, KubeError>)
      modifies this`groups, this`calls
      ensures Synced(result, groups) == GetOrCreateSpec(old(groups), failing, desired)
      ensures calls == old(calls) + [KeyOf(desired)]
    {
      var key := KeyOf(desired);
      calls := calls + [key];
      if key in failing {
        return Err(failing[key]);
      }
      if key in groups {
        return Ok(groups[key]);
      }
      groups := groups[key := desired];
      result := Ok(desired);
    }
  }

  /**
    `ensure_groups_exist` as the finalizer runs it: on Apply the two groups
    are get-or-created in order, stopping at the first error; Cleanup is
    not implemented and panics, touching nothing.
  */
  method EnsureGroupsExist(api: ClusterGroupApi, event: Event) returns (outcome: Outcome)
    modifies api`groups, api`calls
    ensures event.Apply? ==>
      var applied := ApplySpec(old(api.groups), api.failing, event.cluster);
      outcome == applied.outcome && api.groups == applied.groups && api.calls == old(api.calls) + applied.calls
    ensures event.Cleanup? ==> outcome.Panicked? && api.groups == old(api.groups) && api.calls == old(api.calls)
  {
    match event
    case Cleanup(_) =>
      return Panicked("not yet implemented");
    case Apply(cluster) =>
      var (allClusters, allClasses) := DesiredGroups(cluster);
      var first := api.GetOrCreate(allClusters);
      if first.Err? {
        return Failed(Wrap(first.error));
      }
      var second := api.GetOrCreate(allClasses);
      if second.Err? {
        return Failed(Wrap(second.error));
      }
      return Done(AwaitChange);
  }

  /**
    The clusters group is tried first: when its call fails, the reconcile
    fails with that call's error, nothing changes, and no other call is made.
  */
  lemma ClustersGroupFirst(groups: map<GroupKey, ClusterGroup>, failing: map<GroupKey, KubeError>, cluster: Cluster)
    requires AllClustersKey() in failing
    ensures ApplySpec(groups, failing, cluster).outcome == Failed(Wrap(failing[AllClustersKey()]))
    ensures ApplySpec(groups, failing, cluster).groups == groups
    ensures ApplySpec(groups, failing, cluster).calls == [AllClustersKey()]
  {
  }

  /**
    When the clusters group syncs and the classes group's call fails, the
    reconcile fails with the classes call's error and the clusters group
    stays stored.
  */
  lemma ClassesGroupSecond(groups: map<GroupKey, ClusterGroup>, failing: map<GroupKey, KubeError>, cluster: Cluster)
    requires AllClustersKey() !in failing && AllClassesKey() in failing
    ensures ApplySpec(groups, failing, cluster).outcome == Failed(Wrap(failing[AllClassesKey()]))
    ensures AllClustersKey() in ApplySpec(groups, failing, cluster).groups
    ensures ApplySpec(groups, failing, cluster).calls == [AllClustersKey(), AllClassesKey()]
  {
  }

  /** Apply succeeds exactly when neither call fails, and then both groups are stored. */
  lemma ApplySucceedsIff(groups: map<GroupKey, ClusterGroup>, failing: map<GroupKey, KubeError>, cluster: Cluster)
    ensures ApplySpec(groups, failing, cluster).outcome == Done(AwaitChange)
            <==> AllClustersKey() !in failing && AllClassesKey() !in failing
    ensures ApplySpec(groups, failing, cluster).outcome.Done? ==>
              AllClustersKey() in ApplySpec(groups, failing, cluster).groups
              && AllClassesKey() in ApplySpec(groups, failing, cluster).groups
  {
  }

  /** Apply never changes or removes a stored group, and adds no group but the two desired ones. */
  lemma ApplyOnlyAdds(groups: map<GroupKey, ClusterGroup>, failing: map<GroupKey, KubeError>, cluster: Cluster)
    ensures var after := ApplySpec(groups, failing, cluster).groups;
      && (forall k :: k in groups ==> k in after && after[k] == groups[k])
      && (forall k :: k in after && k !in groups ==> k == AllClustersKey() || k == AllClassesKey())
  {
  }

  /** Reconciling again on the groups a reconcile left changes nothing and ends the same way. */
  lemma ApplyIdempotent(groups: map<GroupKey, ClusterGroup>, failing: map<GroupKey, KubeError>, cluster: Cluster)
    ensures var once := ApplySpec(groups, failing, cluster);
      ApplySpec(once.groups, failing, cluster) == once
  {
  }

  /**
    Once an Apply has succeeded, no later Apply changes the stored groups,
    whichever calls fail then: both groups are already there.
  */
  lemma SettledAfterSuccess(groups: map<GroupKey, ClusterGroup>, failing: map<GroupKey, KubeError>,
                            later: map<GroupKey, KubeError>, cluster: Cluster)
    requires ApplySpec(groups, failing, cluster).outcome.Done?
    ensures var once := ApplySpec(groups, failing, cluster);
      ApplySpec(once.groups, later, cluster).groups == once.groups
  {
    ApplySucceedsIff(groups, failing, cluster);
  }
}
