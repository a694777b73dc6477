/**
  The `FleetAddonConfig` custom resource (group `addons.cluster.x-k8s.io`,
  version `v1alpha1`): the settings switching the ClusterClass and Cluster
  controllers on, and the configuration the operator falls back to.
*/
module FleetAddonConfig {
  import opened Wrappers
  import opened Kube

  const Kind: string := "FleetAddonConfig"
  const Group: string := "addons.cluster.x-k8s.io"
  const Version: string := "v1alpha1"

  /** ClusterClass controller settings; `enabled` may be left unset. */
  datatype ClusterClassConfig = ClusterClassConfig(enabled: Option<bool>)

  /** Cluster controller settings; `enabled` may be left unset. */
  datatype ClusterConfig = ClusterConfig(enabled: Option<bool>)

  /** Each section may be absent. */
  datatype FleetAddonConfigSpec = FleetAddonConfigSpec(
    clusterClass: Option<ClusterClassConfig>,
    cluster: Option<ClusterConfig>)

  /** The resource: metadata and spec. */
  datatype FleetAddonConfig = FleetAddonConfig(metadata: ObjectMeta, spec: FleetAddonConfigSpec)

  /** The derived `FleetAddonConfigSpec::default()`: both sections absent. */
  function SpecDefault(): (spec: FleetAddonConfigSpec)
    ensures spec.clusterClass.None? && spec.cluster.None?
  {
    FleetAddonConfigSpec(None, None)
  }

  /**
    `FleetAddonConfig::default()`: empty metadata and both controllers
    explicitly enabled.
  */
  function Default(): (config: FleetAddonConfig)
    ensures config.metadata == EmptyMeta()
    ensures config.spec.clusterClass == Some(ClusterClassConfig(Some(true)))
    ensures config.spec.cluster == Some(ClusterConfig(Some(true)))
  {
    FleetAddonConfig(EmptyMeta(), FleetAddonConfigSpec(Some(ClusterClassConfig(Some(true))), Some(ClusterConfig(Some(true)))))
  }

  /**
    The two defaults differ: the configuration's default enables both
    controllers, the derived spec default leaves both sections out.
  */
  lemma DefaultsDiffer()
    ensures Default().spec != SpecDefault()
    ensures Default().spec.clusterClass.Some? && SpecDefault().clusterClass.None?
  {
  }
}
