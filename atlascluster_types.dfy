/**
 * The AtlasCluster resource: its three spec shapes (plain, advanced,
 * serverless), the name and project-key resolution over them, the partial
 * equality of process arguments, the status update, and the builder methods
 * that edit a cluster in place.
 */
module AtlasClusterTypes {
  import opened Wrappers
  import opened Conditions

  datatype ResourceRefNamespaced = ResourceRefNamespaced(name: string, namespace: string)

  datatype ObjectKey = ObjectKey(namespace: string, name: string)

  // Provider names (defined in the provider package, which is not part of this model).
  const ProviderAWS := "AWS"
  const ProviderGCP := "GCP"
  const ProviderAzure := "AZURE"
  const ProviderTenant := "TENANT"
  const ProviderServerless := "SERVERLESS"

  const TypeReplicaSet := "REPLICASET"

  datatype ProviderSettingsSpec = ProviderSettingsSpec(
    backingProviderName: string,
    diskIOPS: Option<int>,
    diskTypeName: string,
    encryptEBSVolume: Option<bool>,
    instanceSizeName: string,
    providerName: string,
    regionName: string,
    volumeType: string)

  const NoProviderSettings := ProviderSettingsSpec("", None, "", None, "", "", "", "")

  datatype ClusterSpec = ClusterSpec(
    clusterType: string,
    diskSizeGB: Option<int>,
    encryptionAtRestProvider: string,
    mongoDBMajorVersion: string,
    name: string,
    numShards: Option<int>,
    paused: Option<bool>,
    pitEnabled: Option<bool>,
    providerBackupEnabled: Option<bool>,
    providerSettings: Option<ProviderSettingsSpec>)

  datatype ServerlessSpec = ServerlessSpec(name: string, providerSettings: Option<ProviderSettingsSpec>)

  datatype Specs = Specs(diskIOPS: Option<int>, ebsVolumeType: string, instanceSize: string, nodeCount: Option<int>)

  datatype AdvancedRegionConfig = AdvancedRegionConfig(
    analyticsSpecs: Option<Specs>,
    electableSpecs: Option<Specs>,
    readOnlySpecs: Option<Specs>,
    backingProviderName: string,
    priority: Option<int>,
    providerName: string,
    regionName: string)

  datatype AdvancedReplicationSpec = AdvancedReplicationSpec(
    numShards: int,
    id: string,
    zoneName: string,
    regionConfigs: seq<AdvancedRegionConfig>)

  datatype AdvancedClusterSpec = AdvancedClusterSpec(
    clusterType: string,
    mongoDBMajorVersion: string,
    name: string,
    paused: Option<bool>,
    replicationSpecs: seq<AdvancedReplicationSpec>)

  /** One field of the process arguments: a string, or a pointer to a flag or a number. */
  datatype ArgValue = Text(s: string) | Flag(b: Option<bool>) | Number(n: Option<int>)

  /** The process arguments, field by field in declaration order. */
  type ProcessArgs = seq<ArgValue>

  datatype AtlasClusterSpec = AtlasClusterSpec(
    project: ResourceRefNamespaced,
    clusterSpec: Option<ClusterSpec>,
    advancedClusterSpec: Option<AdvancedClusterSpec>,
    backupScheduleRef: ResourceRefNamespaced,
    serverlessSpec: Option<ServerlessSpec>,
    processArgs: Option<ProcessArgs>)

  /** The cluster status: its conditions, the generation they describe, and the remaining fields as a map. */
  datatype AtlasClusterStatus = AtlasClusterStatus(
    conditions: seq<Condition>,
    observedGeneration: int,
    details: map<string, string>)

  /** A status option, applied to the status after the conditions are replaced. */
  type StatusOption = AtlasClusterStatus -> AtlasClusterStatus

  /** The options applied one after another, first to last. */
  function ApplyOptions(options: seq<StatusOption>, s: AtlasClusterStatus): AtlasClusterStatus
    decreases |options|
  {
    if options == [] then s else options[|options| - 1](ApplyOptions(options[..|options| - 1], s))
  }

  // ------------------------------------------------------------------ process arguments

  /** The Go zero value of a field: the empty string or a nil pointer. */
  predicate IsZeroArg(v: ArgValue) {
    v == Text("") || v == Flag(None) || v == Number(None)
  }

  /** A set field on the spec side must be set, and equal, on the other side. */
  predicate FieldAgrees(specValue: ArgValue, newValue: ArgValue) {
    IsZeroArg(specValue) || (!IsZeroArg(newValue) && specValue == newValue)
  }

  predicate ArgsAgree(specArgs: ProcessArgs, newArgs: ProcessArgs)
    requires |specArgs| == |newArgs|
  {
    forall i :: 0 <= i < |specArgs| ==> FieldAgrees(specArgs[i], newArgs[i])
  }

  /**
   * `ProcessArgs.IsEqual`: walks the fields, skipping those unset in the
   * spec and failing at the first set field the other side leaves unset or
   * holds a different value for.
   */
  method IsEqual(specArgs: ProcessArgs, newArgs: ProcessArgs) returns (equal: bool)
    requires |specArgs| == |newArgs|
    ensures equal <==> ArgsAgree(specArgs, newArgs)
  {
    var i := 0;
    while i < |specArgs|
      invariant 0 <= i <= |specArgs|
      invariant forall k :: 0 <= k < i ==> FieldAgrees(specArgs[k], newArgs[k])
    {
      var specValue, newValue := specArgs[i], newArgs[i];
      if IsZeroArg(specValue) {
        i := i + 1;
        continue;
      }
      if IsZeroArg(newValue) {
        return false;
      }
      if specValue != newValue {
        return false;
      }
      i := i + 1;
    }
    return true;
  }

  /** Every argument list agrees with itself. */
  lemma ArgsAgreeReflexive(a: ProcessArgs)
    ensures ArgsAgree(a, a)
  {
  }

  /** A spec that sets nothing agrees with anything. */
  lemma ZeroArgsAgreeWithAll(a: ProcessArgs, b: ProcessArgs)
    requires |a| == |b| && forall i :: 0 <= i < |a| ==> IsZeroArg(a[i])
    ensures ArgsAgree(a, b)
  {
  }

  /** Agreement is transitive: it says the other side refines the spec. */
  lemma ArgsAgreeTransitive(a: ProcessArgs, b: ProcessArgs, c: ProcessArgs)
    requires |a| == |b| == |c|
    requires ArgsAgree(a, b) && ArgsAgree(b, c)
    ensures ArgsAgree(a, c)
  {
  }

  /** Agreement is not symmetric: an empty spec agrees with a set field, not the other way round. */
  lemma ArgsAgreeNotSymmetric()
    ensures ArgsAgree([Number(None)], [Number(Some(5))]) && !ArgsAgree([Number(Some(5))], [Number(None)])
  {
    var set5, unset: ProcessArgs := [Number(Some(5))], [Number(None)];
    assert !FieldAgrees(set5[0], unset[0]);
  }

  // ------------------------------------------------------------------ builders on values

  /** The advanced spec `newAwsAdvancedCluster` builds: one replication spec holding one tenant region config. */
  function AwsAdvancedSpec(nameInAtlas: string, instanceSize: string, backingProviderName: string, regionName: string): (a: AdvancedClusterSpec)
    ensures a.name == nameInAtlas && a.clusterType == TypeReplicaSet
    ensures |a.replicationSpecs| == 1 && |a.replicationSpecs[0].regionConfigs| == 1
    ensures var rc := a.replicationSpecs[0].regionConfigs[0];
      && rc.providerName == ProviderTenant
      && rc.backingProviderName == backingProviderName
      && rc.regionName == regionName
      && rc.priority == Some(7)
      && rc.electableSpecs == Some(Specs(None, "", instanceSize, None))
      && rc.analyticsSpecs.None? && rc.readOnlySpecs.None?
  {
    var regionConfig := AdvancedRegionConfig(None, Some(Specs(None, "", instanceSize, None)), None,
                                             backingProviderName, Some(7), ProviderTenant, regionName);
    AdvancedClusterSpec(TypeReplicaSet, "", nameInAtlas, None, [AdvancedReplicationSpec(0, "", "", [regionConfig])])
  }

  /** The regions an M2 cluster is restricted to, per provider; other providers keep their region. */
  function LightweightRegion(providerName: string, regionName: string): (region: string)
    ensures providerName == ProviderAWS ==> region == "US_EAST_1"
    ensures providerName == ProviderAzure ==> region == "US_EAST_2"
    ensures providerName == ProviderGCP ==> region == "CENTRAL_US"
    ensures providerName !in {ProviderAWS, ProviderAzure, ProviderGCP} ==> region == regionName
  {
    if providerName == ProviderAWS then "US_EAST_1"
    else if providerName == ProviderAzure then "US_EAST_2"
    else if providerName == ProviderGCP then "CENTRAL_US"
    else regionName
  }

  /** The provider settings `Lightweight` leaves: a shared M2 whose backing provider is the old provider. */
  function LightweightSettings(ps: ProviderSettingsSpec): (r: ProviderSettingsSpec)
    ensures r.instanceSizeName == "M2"
    ensures r.providerName == ProviderTenant && r.backingProviderName == ps.providerName
    ensures r.regionName == LightweightRegion(ps.providerName, ps.regionName)
    ensures r.diskIOPS == ps.diskIOPS && r.diskTypeName == ps.diskTypeName
    ensures r.encryptEBSVolume == ps.encryptEBSVolume && r.volumeType == ps.volumeType
  {
    ps.(instanceSizeName := "M2",
        regionName := LightweightRegion(ps.providerName, ps.regionName),
        backingProviderName := ps.providerName,
        providerName := ProviderTenant)
  }

  /**
   * Applying `Lightweight` twice does not give the same cluster as once: the
   * second call records TENANT as the backing provider.
   */
  lemma LightweightTwiceLosesBackingProvider(ps: ProviderSettingsSpec)
    ensures LightweightSettings(LightweightSettings(ps)).backingProviderName == ProviderTenant
    ensures ps.providerName != ProviderTenant ==>
      LightweightSettings(LightweightSettings(ps)) != LightweightSettings(ps)
  {
  }

  predicate HasClusterSpec(spec: AtlasClusterSpec) {
    spec.clusterSpec.Some?
  }

  predicate HasProviderSettings(spec: AtlasClusterSpec) {
    spec.clusterSpec.Some? && spec.clusterSpec.value.providerSettings.Some?
  }

  /** The spec with the plain cluster spec's provider settings replaced. */
  function WithSettings(spec: AtlasClusterSpec, ps: ProviderSettingsSpec): AtlasClusterSpec
    requires HasProviderSettings(spec)
  {
    spec.(clusterSpec := Some(spec.clusterSpec.value.(providerSettings := Some(ps))))
  }

  function SettingsOf(spec: AtlasClusterSpec): ProviderSettingsSpec
    requires HasProviderSettings(spec)
  {
    spec.clusterSpec.value.providerSettings.value
  }

  // ------------------------------------------------------------------ the resource

  class AtlasCluster {
    var name: string
    var namespace: string
    var generation: int
    var spec: AtlasClusterSpec
    var status: AtlasClusterStatus

    /** `NewCluster`: a plain cluster spec of size M10. */
    constructor NewCluster(namespace: string, name: string, nameInAtlas: string)
      ensures this.name == name && this.namespace == namespace && generation == 0
      ensures !IsAdvancedCluster() && !IsServerless() && HasProviderSettings(spec)
      ensures GetClusterName() == nameInAtlas
      ensures SettingsOf(spec) == NoProviderSettings.(instanceSizeName := "M10")
      ensures spec.project == ResourceRefNamespaced("", "")
    {
      this.name := name;
      this.namespace := namespace;
      generation := 0;
      spec := AtlasClusterSpec(
        ResourceRefNamespaced("", ""),
        Some(ClusterSpec("", None, "", "", nameInAtlas, None, None, None, None,
                         Some(NoProviderSettings.(instanceSizeName := "M10")))),
        None, ResourceRefNamespaced("", ""), None, None);
      status := AtlasClusterStatus([], 0, map[]);
    }

    /** `newServerlessInstance`: a serverless spec with SERVERLESS provider settings. */
    constructor NewServerlessInstance(namespace: string, name: string, nameInAtlas: string,
                                      backingProviderName: string, regionName: string)
      ensures this.name == name && this.namespace == namespace
      ensures IsServerless() && !IsAdvancedCluster() && spec.clusterSpec.None?
      ensures GetClusterName() == nameInAtlas
      ensures spec.serverlessSpec.value.providerSettings
           == Some(NoProviderSettings.(backingProviderName := backingProviderName,
                                       providerName := ProviderServerless,
                                       regionName := regionName))
    {
      this.name := name;
      this.namespace := namespace;
      generation := 0;
      var ps := NoProviderSettings.(backingProviderName := backingProviderName,
                                    providerName := ProviderServerless,
                                    regionName := regionName);
      spec := AtlasClusterSpec(ResourceRefNamespaced("", ""), None, None, ResourceRefNamespaced("", ""),
                               Some(ServerlessSpec(nameInAtlas, Some(ps))), None);
      status := AtlasClusterStatus([], 0, map[]);
    }

    /** `NewAwsAdvancedCluster`: an advanced spec with one M5 tenant region on AWS US_EAST_1. */
    constructor NewAwsAdvancedCluster(namespace: string, name: string, nameInAtlas: string)
      ensures this.name == name && this.namespace == namespace
      ensures IsAdvancedCluster() && !IsServerless() && spec.clusterSpec.None?
      ensures GetClusterName() == nameInAtlas
      ensures spec.advancedClusterSpec == Some(AwsAdvancedSpec(nameInAtlas, "M5", ProviderAWS, "US_EAST_1"))
    {
      this.name := name;
      this.namespace := namespace;
      generation := 0;
      spec := AtlasClusterSpec(ResourceRefNamespaced("", ""), None,
                               Some(AwsAdvancedSpec(nameInAtlas, "M5", ProviderAWS, "US_EAST_1")),
                               ResourceRefNamespaced("", ""), None, None);
      status := AtlasClusterStatus([], 0, map[]);
    }

    /** `IsServerless`. */
    predicate IsServerless()
      reads this
    {
      spec.serverlessSpec.Some?
    }

    /** `IsAdvancedCluster`. */
    predicate IsAdvancedCluster()
      reads this
    {
      spec.advancedClusterSpec.Some?
    }

    /** `GetClusterName`: the advanced spec wins, then the serverless spec, then the plain spec. */
    function GetClusterName(): (n: string)
      reads this
      requires IsAdvancedCluster() || IsServerless() || HasClusterSpec(spec)
      ensures IsAdvancedCluster() ==> n == spec.advancedClusterSpec.value.name
      ensures !IsAdvancedCluster() && IsServerless() ==> n == spec.serverlessSpec.value.name
      ensures !IsAdvancedCluster() && !IsServerless() ==> n == spec.clusterSpec.value.name
    {
      if IsAdvancedCluster() then spec.advancedClusterSpec.value.name
      else if IsServerless() then spec.serverlessSpec.value.name
      else spec.clusterSpec.value.name
    }

    /** `AtlasProjectObjectKey`: the project reference's namespace, or the cluster's own when that is empty. */
    function AtlasProjectObjectKey(): (k: ObjectKey)
      reads this
      ensures k.name == spec.project.name
      ensures spec.project.namespace != "" ==> k.namespace == spec.project.namespace
      ensures spec.project.namespace == "" ==> k.namespace == namespace
      ensures k.namespace == "" ==> spec.project.namespace == "" && namespace == ""
    {
      ObjectKey(if spec.project.namespace != "" then spec.project.namespace else namespace, spec.project.name)
    }

    /**
     * `UpdateStatus`: replace the conditions wholesale, record the generation
     * they describe, then apply the options in order.
     */
    method UpdateStatus(conditions: seq<Condition>, options: seq<StatusOption>)
      modifies this`status
      ensures status == ApplyOptions(options, AtlasClusterStatus(conditions, generation, old(status).details))
      ensures options == [] ==> status.conditions == conditions && status.observedGeneration == generation
    {
      status := status.(conditions := conditions, observedGeneration := generation);
      ghost var base := status;
      for i := 0 to |options|
        invariant status == ApplyOptions(options[..i], base)
      {
        assert options[..i + 1][..i] == options[..i];
        status := options[i](status);
      }
      assert options[..|options|] == options;
    }

    /** `WithName`: sets only the plain spec's name. */
    method WithName(n: string) returns (c: AtlasCluster)
      requires HasClusterSpec(spec)
      modifies this`spec
      ensures c == this
      ensures spec == old(spec.(clusterSpec := Some(spec.clusterSpec.value.(name := n))))
      ensures !IsAdvancedCluster() && !IsServerless() ==> GetClusterName() == n
    {
      spec := spec.(clusterSpec := Some(spec.clusterSpec.value.(name := n)));
      c := this;
    }

    /** `WithAtlasName`: the same edit as `WithName`. */
    method WithAtlasName(n: string) returns (c: AtlasCluster)
      requires HasClusterSpec(spec)
      modifies this`spec
      ensures c == this
      ensures spec == old(spec.(clusterSpec := Some(spec.clusterSpec.value.(name := n))))
      ensures !IsAdvancedCluster() && !IsServerless() ==> GetClusterName() == n
    {
      c := WithName(n);
    }

    /** `WithProjectName`: a project reference with that name and no namespace. */
    method WithProjectName(projectName: string) returns (c: AtlasCluster)
      modifies this`spec
      ensures c == this
      ensures spec == old(spec.(project := ResourceRefNamespaced(projectName, "")))
      ensures AtlasProjectObjectKey() == ObjectKey(namespace, projectName)
    {
      spec := spec.(project := ResourceRefNamespaced(projectName, ""));
      c := this;
    }

    /** `WithProviderName`: sets only the provider. */
    method WithProviderName(providerName: string) returns (c: AtlasCluster)
      requires HasProviderSettings(spec)
      modifies this`spec
      ensures c == this && HasProviderSettings(spec)
      ensures spec == old(WithSettings(spec, SettingsOf(spec).(providerName := providerName)))
    {
      spec := WithSettings(spec, SettingsOf(spec).(providerName := providerName));
      c := this;
    }

    /** `WithRegionName`: sets only the region. */
    method WithRegionName(regionName: string) returns (c: AtlasCluster)
      requires HasProviderSettings(spec)
      modifies this`spec
      ensures c == this && HasProviderSettings(spec)
      ensures spec == old(WithSettings(spec, SettingsOf(spec).(regionName := regionName)))
    {
      spec := WithSettings(spec, SettingsOf(spec).(regionName := regionName));
      c := this;
    }

    /** `WithBackupScheduleRef`: enables provider backups and records the schedule reference. */
    method WithBackupScheduleRef(ref: ResourceRefNamespaced) returns (c: AtlasCluster)
      requires HasClusterSpec(spec)
      modifies this`spec
      ensures c == this
      ensures spec == old(spec.(clusterSpec := Some(spec.clusterSpec.value.(providerBackupEnabled := Some(true))),
                                backupScheduleRef := ref))
    {
      spec := spec.(clusterSpec := Some(spec.clusterSpec.value.(providerBackupEnabled := Some(true))),
                    backupScheduleRef := ref);
      c := this;
    }

    /** `WithInstanceSize`: sets only the instance size. */
    method WithInstanceSize(size: string) returns (c: AtlasCluster)
      requires HasProviderSettings(spec)
      modifies this`spec
      ensures c == this && HasProviderSettings(spec)
      ensures spec == old(WithSettings(spec, SettingsOf(spec).(instanceSizeName := size)))
    {
      spec := WithSettings(spec, SettingsOf(spec).(instanceSizeName := size));
      c := this;
    }

    /** `WithBackingProvider`: sets only the backing provider. */
    method WithBackingProvider(backing: string) returns (c: AtlasCluster)
      requires HasProviderSettings(spec)
      modifies this`spec
      ensures c == this && HasProviderSettings(spec)
      ensures spec == old(WithSettings(spec, SettingsOf(spec).(backingProviderName := backing)))
    {
      spec := WithSettings(spec, SettingsOf(spec).(backingProviderName := backing));
      c := this;
    }

    /**
     * `Lightweight`: turn the plain cluster into a shared M2 cluster in a
     * region M2 allows, backed by its former provider.
     */
    method Lightweight() returns (c: AtlasCluster)
      requires HasProviderSettings(spec)
      modifies this`spec
      ensures c == this && HasProviderSettings(spec)
      ensures spec == old(WithSettings(spec, LightweightSettings(SettingsOf(spec))))
    {
      var _ := WithInstanceSize("M2");
      var providerName := SettingsOf(spec).providerName;
      if providerName == ProviderAWS {
        var _ := WithRegionName("US_EAST_1");
      } else if providerName == ProviderAzure {
        var _ := WithRegionName("US_EAST_2");
      } else if providerName == ProviderGCP {
        var _ := WithRegionName("CENTRAL_US");
      }
      var _ := WithBackingProvider(SettingsOf(spec).providerName);
      c := WithProviderName(ProviderTenant);
    }
  }

  // ------------------------------------------------------------------ default clusters

  /** A plain cluster in `namespace` for project `projectName` on `providerName` in `regionName`. */
  method DefaultPlainCluster(namespace: string, projectName: string, name: string, nameInAtlas: string,
                             providerName: string, regionName: string) returns (c: AtlasCluster)
    ensures fresh(c) && c.name == name && c.namespace == namespace
    ensures !c.IsAdvancedCluster() && !c.IsServerless() && HasProviderSettings(c.spec)
    ensures c.GetClusterName() == nameInAtlas
    ensures c.AtlasProjectObjectKey() == ObjectKey(namespace, projectName)
    ensures SettingsOf(c.spec) == NoProviderSettings.(instanceSizeName := "M10", providerName := providerName,
                                                      regionName := regionName)
  {
    c := new AtlasCluster.NewCluster(namespace, name, nameInAtlas);
    c := c.WithProjectName(projectName);
    c := c.WithProviderName(providerName);
    c := c.WithRegionName(regionName);
  }

  /** `DefaultGCPCluster`. */
  method DefaultGCPCluster(namespace: string, projectName: string) returns (c: AtlasCluster)
    ensures fresh(c) && c.name == "test-cluster-gcp-k8s" && c.namespace == namespace
    ensures !c.IsAdvancedCluster() && !c.IsServerless() && HasProviderSettings(c.spec)
    ensures c.GetClusterName() == "test-cluster-gcp"
    ensures c.AtlasProjectObjectKey() == ObjectKey(namespace, projectName)
    ensures SettingsOf(c.spec) == NoProviderSettings.(instanceSizeName := "M10", providerName := ProviderGCP,
                                                      regionName := "EASTERN_US")
  {
    c := DefaultPlainCluster(namespace, projectName, "test-cluster-gcp-k8s", "test-cluster-gcp", ProviderGCP, "EASTERN_US");
  }

  /** `DefaultAWSCluster`. */
  method DefaultAWSCluster(namespace: string, projectName: string) returns (c: AtlasCluster)
    ensures fresh(c) && c.name == "test-cluster-aws-k8s" && c.namespace == namespace
    ensures !c.IsAdvancedCluster() && !c.IsServerless() && HasProviderSettings(c.spec)
    ensures c.GetClusterName() == "test-cluster-aws"
    ensures c.AtlasProjectObjectKey() == ObjectKey(namespace, projectName)
    ensures SettingsOf(c.spec) == NoProviderSettings.(instanceSizeName := "M10", providerName := ProviderAWS,
                                                      regionName := "US_WEST_2")
  {
    c := DefaultPlainCluster(namespace, projectName, "test-cluster-aws-k8s", "test-cluster-aws", ProviderAWS, "US_WEST_2");
  }

  /** `DefaultAzureCluster`. */
  method DefaultAzureCluster(namespace: string, projectName: string) returns (c: AtlasCluster)
    ensures fresh(c) && c.name == "test-cluster-azure-k8s" && c.namespace == namespace
    ensures !c.IsAdvancedCluster() && !c.IsServerless() && HasProviderSettings(c.spec)
    ensures c.GetClusterName() == "test-cluster-azure"
    ensures c.AtlasProjectObjectKey() == ObjectKey(namespace, projectName)
    ensures SettingsOf(c.spec) == NoProviderSettings.(instanceSizeName := "M10", providerName := ProviderAzure,
                                                      regionName := "EUROPE_NORTH")
  {
    c := DefaultPlainCluster(namespace, projectName, "test-cluster-azure-k8s", "test-cluster-azure", ProviderAzure, "EUROPE_NORTH");
  }

  /** `DefaultAwsAdvancedCluster`. */
  method DefaultAwsAdvancedCluster(namespace: string, projectName: string) returns (c: AtlasCluster)
    ensures fresh(c) && c.name == "test-cluster-advanced-k8s" && c.namespace == namespace
    ensures c.IsAdvancedCluster() && c.GetClusterName() == "test-cluster-advanced"
    ensures c.AtlasProjectObjectKey() == ObjectKey(namespace, projectName)
    ensures c.spec.advancedClusterSpec == Some(AwsAdvancedSpec("test-cluster-advanced", "M5", ProviderAWS, "US_EAST_1"))
  {
    c := new AtlasCluster.NewAwsAdvancedCluster(namespace, "test-cluster-advanced-k8s", "test-cluster-advanced");
    c := c.WithProjectName(projectName);
  }

  /** `NewDefaultAWSServerlessInstance`. */
  method NewDefaultAWSServerlessInstance(namespace: string, projectName: string) returns (c: AtlasCluster)
    ensures fresh(c) && c.name == "test-serverless-instance-k8s" && c.namespace == namespace
    ensures c.IsServerless() && !c.IsAdvancedCluster() && c.GetClusterName() == "test-serverless-instance"
    ensures c.AtlasProjectObjectKey() == ObjectKey(namespace, projectName)
    ensures c.spec.serverlessSpec.value.providerSettings
         == Some(NoProviderSettings.(backingProviderName := ProviderAWS, providerName := ProviderServerless,
                                     regionName := "US_EAST_1"))
  {
    c := new AtlasCluster.NewServerlessInstance(namespace, "test-serverless-instance-k8s", "test-serverless-instance",
                                                ProviderAWS, "US_EAST_1");
    c := c.WithProjectName(projectName);
  }
}
