/**
 * The pure constructors of the instance controller: validating and
 * defaulting the declared instance parameters, the desired deployment spec,
 * the owned child's metadata, the project created for an instance, and the
 * label query that finds that project again.
 */
module InstanceSpecs {
  import opened Wrappers
  import opened Text
  import opened Conditions
  import opened AtlasClusterTypes
  import Inventory

  // ------------------------------------------------------------------ the instance

  datatype NamespacedName = NamespacedName(name: string, namespace: string)

  /** The declared parameters of a MongoDBAtlasInstance. */
  datatype InstanceSpec = InstanceSpec(
    inventoryRef: NamespacedName,
    name: string,
    cloudProvider: string,
    cloudRegion: string,
    otherInstanceParams: map<string, string>)

  /** The identity of a MongoDBAtlasInstance object. */
  datatype InstanceMeta = InstanceMeta(name: string, namespace: string, kind: string, uid: string)

  /** A MongoDBAtlasInventory: where it lives and the secret holding its Atlas credentials. */
  datatype AtlasInventory = AtlasInventory(name: string, namespace: string, credentialsRefName: string)

  // Parameter keys (defined in the DBaaS API package, which is not part of this model).
  const ClusterNameKey := "clusterName"
  const ProjectNameKey := "projectName"
  const InstanceSizeNameKey := "instanceSizeName"

  datatype InstanceData = InstanceData(
    projectName: string,
    clusterName: string,
    providerName: string,
    regionName: string,
    instanceSizeName: string)

  datatype DataResult = Data(data: InstanceData) | Invalid(message: string)

  /** A parameter is given when it is present and not blank. */
  predicate Given(params: map<string, string>, key: string) {
    key in params && !AllSpace(params[key])
  }

  const MissingClusterName := "missing " + ClusterNameKey
  const MissingProjectName := "missing " + ProjectNameKey

  /** The region used when none is declared; providers outside the table get none. */
  function DefaultRegion(provider: string): (region: string)
    ensures provider == "AWS" ==> region == "US_EAST_1"
    ensures provider == "GCE" ==> region == "CENTRAL_US"
    ensures provider == "AZURE" ==> region == "US_WEST"
    ensures provider !in {"AWS", "GCE", "AZURE"} ==> region == ""
    ensures IsTrimmed(region)
  {
    match provider
    case "AWS" => "US_EAST_1"
    case "GCE" => "CENTRAL_US"
    case "AZURE" => "US_WEST"
    case _ => ""
  }

  /** The provider: trimmed and upper-cased, AWS when blank. */
  function ProviderOf(declared: string): (provider: string)
    ensures AllSpace(declared) ==> provider == "AWS"
    ensures !AllSpace(declared) ==> provider == ToUpper(TrimSpace(declared))
    ensures IsTrimmed(provider) && provider != "" && ToUpper(provider) == provider
  {
    var upper := ToUpper(TrimSpace(declared));
    ToUpperKeepsTrimmed(TrimSpace(declared));
    ToUpperIdempotent(TrimSpace(declared));
    assert IsTrimmed("AWS") && ToUpper("AWS") == "AWS";
    if |upper| == 0 then "AWS" else upper
  }

  /** The region: trimmed, or the provider's default when blank. */
  function RegionOf(declared: string, provider: string): (region: string)
    ensures AllSpace(declared) ==> region == DefaultRegion(provider)
    ensures !AllSpace(declared) ==> region == TrimSpace(declared)
    ensures IsTrimmed(region)
  {
    var trimmed := TrimSpace(declared);
    if |trimmed| == 0 then DefaultRegion(provider) else trimmed
  }

  /** The instance size: trimmed, M0 when absent or blank. */
  function SizeOf(params: map<string, string>): (size: string)
    ensures Given(params, InstanceSizeNameKey) ==> size == TrimSpace(params[InstanceSizeNameKey])
    ensures !Given(params, InstanceSizeNameKey) ==> size == "M0"
    ensures IsTrimmed(size) && size != ""
  {
    assert IsTrimmed("M0");
    TrimSpace(if Given(params, InstanceSizeNameKey) then params[InstanceSizeNameKey] else "M0")
  }

  /**
   * `getInstanceData`: the cluster name is checked first, then the project
   * name; the provider is upper-cased and defaults to AWS, a blank region
   * defaults by provider, a blank size to M0, and every value is trimmed.
   */
  function GetInstanceData(spec: InstanceSpec): (r: DataResult)
    ensures r == Invalid(MissingClusterName) <==> AllSpace(spec.name)
    ensures r == Invalid(MissingProjectName) <==>
      !AllSpace(spec.name) && !Given(spec.otherInstanceParams, ProjectNameKey)
    ensures r.Data? <==> !AllSpace(spec.name) && Given(spec.otherInstanceParams, ProjectNameKey)
    ensures r.Data? ==>
      && r.data.clusterName == TrimSpace(spec.name)
      && r.data.projectName == TrimSpace(spec.otherInstanceParams[ProjectNameKey])
      && r.data.providerName == ProviderOf(spec.cloudProvider)
      && r.data.regionName == RegionOf(spec.cloudRegion, r.data.providerName)
      && r.data.instanceSizeName == SizeOf(spec.otherInstanceParams)
  {
    assert MissingClusterName[8] != MissingProjectName[8];
    var name := TrimSpace(spec.name);
    if |name| == 0 then Invalid(MissingClusterName)
    else if !Given(spec.otherInstanceParams, ProjectNameKey) then Invalid(MissingProjectName)
    else
      var provider := ProviderOf(spec.cloudProvider);
      Data(InstanceData(TrimSpace(spec.otherInstanceParams[ProjectNameKey]), name, provider,
                        RegionOf(spec.cloudRegion, provider), SizeOf(spec.otherInstanceParams)))
  }

  /** Every value of valid instance data is trimmed, and the names, provider and size are never blank. */
  lemma InstanceDataIsTrimmed(spec: InstanceSpec)
    requires GetInstanceData(spec).Data?
    ensures var d := GetInstanceData(spec).data;
      && IsTrimmed(d.projectName) && IsTrimmed(d.clusterName) && IsTrimmed(d.providerName)
      && IsTrimmed(d.regionName) && IsTrimmed(d.instanceSizeName)
      && d.projectName != "" && d.clusterName != "" && d.providerName != "" && d.instanceSizeName != ""
  {
  }

  /** The spec that declares exactly the given data. */
  function DeclaredAs(spec: InstanceSpec, d: InstanceData): (r: InstanceSpec)
    ensures ProjectNameKey in r.otherInstanceParams && r.otherInstanceParams[ProjectNameKey] == d.projectName
    ensures InstanceSizeNameKey in r.otherInstanceParams && r.otherInstanceParams[InstanceSizeNameKey] == d.instanceSizeName
  {
    assert ProjectNameKey != InstanceSizeNameKey by { assert ProjectNameKey[0] != InstanceSizeNameKey[0]; }
    spec.(name := d.clusterName, cloudProvider := d.providerName, cloudRegion := d.regionName,
          otherInstanceParams := map[ProjectNameKey := d.projectName, InstanceSizeNameKey := d.instanceSizeName])
  }

  /**
   * The defaulting is a normal form: declaring the data it produced gives
   * the same data back.
   */
  lemma {:induction false} InstanceDataIsNormal(spec: InstanceSpec)
    requires GetInstanceData(spec).Data?
    ensures GetInstanceData(DeclaredAs(spec, GetInstanceData(spec).data)) == GetInstanceData(spec)
  {
    var d := GetInstanceData(spec).data;
    var again := DeclaredAs(spec, d);
    TrimmedIsNormal(d.clusterName);
    TrimmedIsNormal(d.projectName);
    TrimmedIsNormal(d.providerName);
    TrimmedIsNormal(d.instanceSizeName);
    assert ProviderOf(again.cloudProvider) == d.providerName;
    RegionIsNormal(spec.cloudRegion, d.providerName);
    assert SizeOf(again.otherInstanceParams) == d.instanceSizeName;
  }

  /** A trimmed, non-empty value is not blank and trims to itself. */
  lemma TrimmedIsNormal(s: string)
    requires IsTrimmed(s) && s != ""
    ensures !AllSpace(s) && TrimSpace(s) == s
  {
    assert !IsSpace(s[0]);
  }

  /** Declaring the region `RegionOf` produced gives it back. */
  lemma RegionIsNormal(declared: string, provider: string)
    ensures RegionOf(RegionOf(declared, provider), provider) == RegionOf(declared, provider)
  {
    var region := RegionOf(declared, provider);
    if region != "" {
      TrimmedIsNormal(region);
    }
  }

  // ------------------------------------------------------------------ the desired deployment

  predicate IsTenantSize(size: string) {
    size == "M0" || size == "M2" || size == "M5"
  }

  /** Where a Kubernetes object lives and what it says about itself. */
  datatype OwnerReference = OwnerReference(
    uid: string,
    apiVersion: string,
    blockOwnerDeletion: Option<bool>,
    controller: Option<bool>,
    kind: string,
    name: string)

  datatype ObjectMeta = ObjectMeta(
    name: string,
    generateName: string,
    namespace: string,
    labels: map<string, string>,
    annotations: map<string, string>,
    ownerReferences: seq<OwnerReference>)

  datatype AtlasProjectSpec = AtlasProjectSpec(name: string, connectionSecret: Option<string>, ipAccessList: seq<string>)

  /**
   * An AtlasProject object; `checkedCondition` is what its `CheckConditions`
   * reports (that method is not part of this model).
   */
  datatype AtlasProject = AtlasProject(meta: ObjectMeta, spec: AtlasProjectSpec, checkedCondition: Option<Condition>)

  /**
   * `getAtlasDeploymentSpec`: a shared tier (M0, M2, M5) runs on the TENANT
   * provider backed by the declared one; any other size runs directly on the
   * declared provider. The deployment spec has the shape of a plain cluster spec.
   */
  function AtlasDeploymentSpec(project: ObjectMeta, data: InstanceData): (r: AtlasClusterSpec)
    ensures HasProviderSettings(r) && r.clusterSpec.value.name == data.clusterName
    ensures r.project == ResourceRefNamespaced(project.name, project.namespace)
    ensures r.advancedClusterSpec.None? && r.serverlessSpec.None?
    ensures var ps := SettingsOf(r);
      && ps.instanceSizeName == data.instanceSizeName
      && ps.regionName == data.regionName
      && (IsTenantSize(data.instanceSizeName) ==>
            ps.providerName == ProviderTenant && ps.backingProviderName == data.providerName)
      && (!IsTenantSize(data.instanceSizeName) ==>
            ps.providerName == data.providerName && ps.backingProviderName == "")
  {
    var ps := if IsTenantSize(data.instanceSizeName)
      then NoProviderSettings.(instanceSizeName := data.instanceSizeName, backingProviderName := data.providerName,
                               providerName := ProviderTenant, regionName := data.regionName)
      else NoProviderSettings.(instanceSizeName := data.instanceSizeName, providerName := data.providerName,
                               regionName := data.regionName);
    AtlasClusterSpec(
      ResourceRefNamespaced(project.name, project.namespace),
      Some(ClusterSpec("", None, "", "", data.clusterName, None, None, None, None, Some(ps))),
      None, ResourceRefNamespaced("", ""), None, None)
  }

  /**
   * Whatever the size, the inventory reports the declared provider for the
   * deployment this spec asks for.
   */
  lemma DeploymentReportsDeclaredProvider(project: ObjectMeta, data: InstanceData)
    requires data.providerName != ""
    ensures var ps := SettingsOf(AtlasDeploymentSpec(project, data));
      Inventory.ReportedProvider(Inventory.ProviderSettings(ps.backingProviderName, ps.providerName,
                                                            ps.instanceSizeName, ps.regionName)) == data.providerName
  {
  }

  /**
   * Making a dedicated deployment lightweight gives the same settings as
   * asking for an M2 directly in the region M2 is restricted to.
   */
  lemma LightweightIsTenantM2(project: ObjectMeta, data: InstanceData)
    requires !IsTenantSize(data.instanceSizeName)
    ensures LightweightSettings(SettingsOf(AtlasDeploymentSpec(project, data)))
         == SettingsOf(AtlasDeploymentSpec(project, data.(instanceSizeName := "M2",
                                                         regionName := LightweightRegion(data.providerName, data.regionName))))
  {
  }

  // ------------------------------------------------------------------ the owned child

  const InstanceKind := "MongoDBAtlasInstance"
  /** The group/version of the instance API (defined outside this model). */
  const InstanceAPIVersion := "dbaas.redhat.com/v1alpha1"

  /**
   * `getOwnedAtlasDeployment`: the child has the instance's name and
   * namespace, four labels naming its owner, and one controlling owner
   * reference to the instance.
   */
  function OwnedAtlasDeployment(inst: InstanceMeta): (m: ObjectMeta)
    ensures m.name == inst.name && m.namespace == inst.namespace && m.generateName == ""
    ensures m.labels == map["managed-by" := "atlas-operator", "owner" := inst.name,
                            "owner.kind" := inst.kind, "owner.namespace" := inst.namespace]
    ensures m.annotations == map[]
    ensures |m.ownerReferences| == 1
    ensures m.ownerReferences[0] ==
      OwnerReference(inst.uid, InstanceAPIVersion, Some(false), Some(true), InstanceKind, inst.name)
  {
    ObjectMeta(inst.name, "", inst.namespace,
               map["managed-by" := "atlas-operator", "owner" := inst.name,
                   "owner.kind" := inst.kind, "owner.namespace" := inst.namespace],
               map[],
               [OwnerReference(inst.uid, InstanceAPIVersion, Some(false), Some(true), InstanceKind, inst.name)])
  }

  /** The object has a controlling owner reference to this instance (what the child watch maps back). */
  predicate ControlledBy(m: ObjectMeta, inst: InstanceMeta) {
    exists i :: 0 <= i < |m.ownerReferences| && m.ownerReferences[i].controller == Some(true)
      && m.ownerReferences[i].uid == inst.uid && m.ownerReferences[i].kind == InstanceKind
  }

  /** The child is controlled by its instance and by no instance with another UID. */
  lemma OwnedChildIsControlled(inst: InstanceMeta, other: InstanceMeta)
    ensures ControlledBy(OwnedAtlasDeployment(inst), inst)
    ensures other.uid != inst.uid ==> !ControlledBy(OwnedAtlasDeployment(inst), other)
  {
    assert OwnedAtlasDeployment(inst).ownerReferences[0].uid == inst.uid;
  }

  // ------------------------------------------------------------------ the project

  const InstanceNameLabel := "dbaas.redhat.com/instance-name"
  const InstanceNamespaceLabel := "dbaas.redhat.com/instance-namespace"
  // The resource-policy annotation (defined in the custom-resource package, not part of this model).
  const ResourcePolicyAnnotation := "mongodb.com/atlas-resource-policy"
  const ResourcePolicyKeep := "keep"

  datatype ProjectCreation = Prepared(project: AtlasProject) | SecretError(error: string)

  /**
   * `getAtlasProjectForCreation`: fails when the inventory's connection
   * secret cannot be read (`secretError`); otherwise a project in the
   * inventory's namespace, with a generated name, labelled with the
   * instance, kept in Atlas when deleted here, and not owned by the instance.
   */
  function ProjectForCreation(inst: InstanceMeta, data: InstanceData, inv: AtlasInventory, secretError: Option<string>): (r: ProjectCreation)
    ensures secretError.Some? <==> r == SecretError(secretError.GetOr(""))
    ensures r.Prepared? ==>
      var p := r.project;
      && p.meta.name == "" && p.meta.generateName == "atlas-project-" && p.meta.namespace == inv.namespace
      && p.meta.labels == map["created-by" := "atlas-operator", InstanceNameLabel := inst.name,
                              InstanceNamespaceLabel := inst.namespace]
      && p.meta.annotations == map[ResourcePolicyAnnotation := ResourcePolicyKeep]
      && p.meta.ownerReferences == []
      && p.spec == AtlasProjectSpec(data.projectName, Some(inv.credentialsRefName), [])
      && p.checkedCondition.None?
  {
    match secretError
    case Some(e) => SecretError(e)
    case None =>
      Prepared(AtlasProject(
        ObjectMeta("", "atlas-project-", inv.namespace,
                   map["created-by" := "atlas-operator", InstanceNameLabel := inst.name,
                       InstanceNamespaceLabel := inst.namespace],
                   map[ResourcePolicyAnnotation := ResourcePolicyKeep], []),
        AtlasProjectSpec(data.projectName, Some(inv.credentialsRefName), []),
        None))
  }

  /** The label query of `getAtlasProject`: both instance labels equal the instance's name and namespace. */
  predicate SelectedBy(labels: map<string, string>, inst: InstanceMeta) {
    && InstanceNameLabel in labels && labels[InstanceNameLabel] == inst.name
    && InstanceNamespaceLabel in labels && labels[InstanceNamespaceLabel] == inst.namespace
  }

  /** `getAtlasProject`: the first listed project the query selects, if any. */
  function FindProject(items: seq<AtlasProject>, inst: InstanceMeta): (r: Option<AtlasProject>)
    ensures r.Some? ==> r.value in items && SelectedBy(r.value.meta.labels, inst)
    ensures r.None? <==> forall i :: 0 <= i < |items| ==> !SelectedBy(items[i].meta.labels, inst)
    ensures forall k :: 0 <= k < |items| && SelectedBy(items[k].meta.labels, inst)
                        && (forall j :: 0 <= j < k ==> !SelectedBy(items[j].meta.labels, inst))
                        ==> r == Some(items[k])
  {
    if items == [] then None
    else if SelectedBy(items[0].meta.labels, inst) then Some(items[0])
    else
      assert forall k :: 0 < k < |items| ==> items[1..][k - 1] == items[k];
      FindProject(items[1..], inst)
  }

  /** The project as the API server stores it, with the name it generated. */
  function Stored(p: AtlasProject, name: string): AtlasProject {
    p.(meta := p.meta.(name := name))
  }

  lemma {:induction false} FindProjectAppend(items: seq<AtlasProject>, p: AtlasProject, inst: InstanceMeta)
    requires FindProject(items, inst).None?
    ensures FindProject(items + [p], inst) == FindProject([p], inst)
  {
    if items != [] {
      assert (items + [p])[1..] == items[1..] + [p];
      FindProjectAppend(items[1..], p, inst);
    }
  }

  /**
   * Find-or-create closes the loop: once the project created for an
   * instance is stored, the same query finds it, so the next pass does not
   * create another one.
   */
  lemma CreatedProjectIsFound(items: seq<AtlasProject>, inst: InstanceMeta, data: InstanceData, inv: AtlasInventory, name: string)
    requires FindProject(items, inst).None?
    ensures var created := ProjectForCreation(inst, data, inv, None).project;
      FindProject(items + [Stored(created, name)], inst) == Some(Stored(created, name))
  {
    var created := Stored(ProjectForCreation(inst, data, inv, None).project, name);
    FindProjectAppend(items, created, inst);
  }

  /** A project created for one instance is never selected for an instance with another name or namespace. */
  lemma CreatedProjectBelongsToItsInstance(inst: InstanceMeta, other: InstanceMeta, data: InstanceData, inv: AtlasInventory)
    requires other.name != inst.name || other.namespace != inst.namespace
    ensures !SelectedBy(ProjectForCreation(inst, data, inv, None).project.meta.labels, other)
  {
  }
}
