/**
 * Discovery of Atlas clusters for the DBaaS inventory: translating a
 * cluster's remote state name into a provisioning phase, projecting a cluster
 * onto the service-info map, classifying failed Atlas calls, and walking the
 * project list. Atlas HTTP calls are answers held in an `AtlasApi` value.
 */
module Inventory {
  import opened Wrappers
  import opened Text
  import opened Workflow

  /** The DBaaS provisioning phase vocabulary. */
  datatype Phase = Unknown | Pending | Creating | Updating | Deleting | Deleted | Ready | Failed

  function PhaseName(p: Phase): string {
    match p
    case Unknown => "Unknown"
    case Pending => "Pending"
    case Creating => "Creating"
    case Updating => "Updating"
    case Deleting => "Deleting"
    case Deleted => "Deleted"
    case Ready => "Ready"
    case Failed => "Failed"
  }

  /** Reads a phase back from its name. */
  function PhaseByName(name: string): Option<Phase> {
    match name
    case "Unknown" => Some(Unknown)
    case "Pending" => Some(Pending)
    case "Creating" => Some(Creating)
    case "Updating" => Some(Updating)
    case "Deleting" => Some(Deleting)
    case "Deleted" => Some(Deleted)
    case "Ready" => Some(Ready)
    case "Failed" => Some(Failed)
    case _ => None
  }

  /** Phase names are distinct: a name determines its phase. */
  lemma PhaseNameInjective(p: Phase, q: Phase)
    ensures PhaseByName(PhaseName(p)) == Some(p)
    ensures PhaseName(p) == PhaseName(q) <==> p == q
  {
    assert PhaseByName(PhaseName(q)) == Some(q);
  }

  /** `parsePhase`: exact match against the title-cased vocabulary; "Idle" also means Ready. */
  function ParsePhase(state: string): (p: Phase)
    ensures p == Pending <==> state == "Pending"
    ensures p == Creating <==> state == "Creating"
    ensures p == Updating <==> state == "Updating"
    ensures p == Deleting <==> state == "Deleting"
    ensures p == Deleted <==> state == "Deleted"
    ensures p == Ready <==> state == "Ready" || state == "Idle"
    ensures p != Failed
  {
    match state
    case "Pending" => Pending
    case "Creating" => Creating
    case "Updating" => Updating
    case "Deleting" => Deleting
    case "Deleted" => Deleted
    case "Ready" => Ready
    case "Idle" => Ready
    case _ => Unknown
  }

  /** Reference definition: the phase a lower-case state word stands for. */
  function PhaseOfWord(w: string): Phase {
    if w == "pending" then Pending
    else if w == "creating" then Creating
    else if w == "updating" then Updating
    else if w == "deleting" then Deleting
    else if w == "deleted" then Deleted
    else if w == "ready" || w == "idle" then Ready
    else Unknown
  }

  /** The phase `GetInstance` derives from a remote state name. */
  function PhaseOfState(stateName: string): Phase {
    ParsePhase(Title(ToLower(stateName)))
  }

  lemma {:induction false} TitleOfLetters(w: string)
    requires forall i :: 0 <= i < |w| ==> 'a' <= w[i] <= 'z'
    ensures TitleFrom(w, false) == w
  {
    if w != [] {
      TitleOfLetters(w[1..]);
    }
  }

  /** A lower-case word is title-cased by upper-casing its first letter only. */
  lemma TitleOfWord(w: string)
    requires |w| > 0 && forall i :: 0 <= i < |w| ==> 'a' <= w[i] <= 'z'
    ensures Title(w) == [UpperChar(w[0])] + w[1..]
  {
    TitleOfLetters(w[1..]);
  }

  lemma {:induction false} ToLowerOfLetters(w: string)
    requires forall i :: 0 <= i < |w| ==> 'a' <= w[i] <= 'z'
    ensures ToLower(w) == w
  {
    if w != [] {
      ToLowerOfLetters(w[1..]);
    }
  }

  /** Title-casing a lower-case string gives the capitalised `word` exactly when the string is `word`. */
  lemma WordHit(w: string, word: string, cap: string)
    requires w == ToLower(w)
    requires |word| > 0 && forall i :: 0 <= i < |word| ==> 'a' <= word[i] <= 'z'
    requires cap == [UpperChar(word[0])] + word[1..]
    ensures Title(w) == cap <==> w == word
  {
    TitleOfWord(word);
    if Title(w) == cap {
      LowerOfTitleFrom(w, true);
      ToLowerOfLetters(word);
      assert ToLower(cap) == [LowerChar(UpperChar(word[0]))] + ToLower(word[1..]);
      assert ToLower(word) == [LowerChar(word[0])] + ToLower(word[1..]);
    }
  }

  /**
   * The phase does not depend on the case of the state name: "IDLE", "idle"
   * and "Idle" give Ready, "CREATING" gives Creating, anything outside the
   * vocabulary gives Unknown.
   */
  lemma {:induction false} PhaseIsCaseInsensitive(stateName: string)
    ensures PhaseOfState(stateName) == PhaseOfWord(ToLower(stateName))
  {
    var w := ToLower(stateName);
    ToLowerIdempotent(stateName);
    var t := Title(w);
    WordHit(w, "pending", "Pending");
    WordHit(w, "creating", "Creating");
    WordHit(w, "updating", "Updating");
    WordHit(w, "deleting", "Deleting");
    WordHit(w, "deleted", "Deleted");
    WordHit(w, "ready", "Ready");
    WordHit(w, "idle", "Idle");
  }

  /** `getReasonFromResponse`: every failed call is classified into exactly one of three reasons. */
  function ReasonFromResponse(response: Option<int>): (reason: string)
    ensures reason == InventoryBackendError || reason == InventoryAuthenticationError || reason == InventoryEndpointUnreachable
    ensures reason == InventoryAuthenticationError <==> response == Some(401)
    ensures reason == InventoryEndpointUnreachable <==> response == Some(502) || response == Some(503)
  {
    if response.None? then InventoryBackendError
    else if response.value == 401 then InventoryAuthenticationError
    else if response.value == 502 || response.value == 503 then InventoryEndpointUnreachable
    else InventoryBackendError
  }

  /** The answer to one Atlas call: a value, or the HTTP response (nil when none came back) and the error text. */
  datatype Remote<T> = Answer(value: T) | CallFailed(response: Option<int>, error: string)

  datatype Project = Project(id: string, name: string)

  datatype ProviderSettings = ProviderSettings(
    backingProviderName: string,
    providerName: string,
    instanceSizeName: string,
    regionName: string)

  datatype Cluster = Cluster(
    id: string,
    name: string,
    stateName: string,
    providerSettings: ProviderSettings,
    standardSrv: string)

  datatype DatabaseService = DatabaseService(
    serviceID: string,
    serviceName: string,
    serviceType: string,
    serviceInfo: map<string, string>)

  /** What Atlas answers: the project list, projects by name, clusters per project ID, a cluster by project ID and name. */
  datatype AtlasApi = AtlasApi(
    allProjects: Remote<seq<Project>>,
    projectByName: string -> Remote<Project>,
    clustersOf: string -> Remote<seq<Cluster>>,
    cluster: (string, string) -> Remote<Cluster>)

  // Keys of the service-info map (defined by the DBaaS API package, which is not part of this model).
  const InstanceSizeNameKey := "instanceSizeName"
  const CloudProviderKey := "cloudProvider"
  const CloudRegionKey := "cloudRegion"
  const ProjectIDKey := "projectID"
  const ProjectNameKey := "projectName"
  const ConnectionStringsStandardSrvKey := "connectionStringsStandardSrv"
  const ProvisionPhaseKey := "provisionPhase"
  const InstanceDatabaseService := "instance"

  const ServiceInfoKeys: set<string> :=
    {InstanceSizeNameKey, CloudProviderKey, CloudRegionKey, ProjectIDKey, ProjectNameKey,
     ConnectionStringsStandardSrvKey, ProvisionPhaseKey}

  /** The seven keys are distinct. */
  lemma ServiceInfoKeysCount()
    ensures |ServiceInfoKeys| == 7
  {
    assert CloudRegionKey[0] != ProjectNameKey[0];
  }

  /** The cloud provider reported for a cluster: the backing provider of a shared tier, else the provider. */
  function ReportedProvider(ps: ProviderSettings): (provider: string)
    ensures provider == ps.backingProviderName || provider == ps.providerName
    ensures provider == "" ==> ps.backingProviderName == "" && ps.providerName == ""
    ensures ps.backingProviderName != "" ==> provider == ps.backingProviderName
  {
    if |ps.backingProviderName| == 0 then ps.providerName else ps.backingProviderName
  }

  /** `GetInstance`: the DBaaS view of one cluster of one project. */
  function GetInstance(project: Project, cluster: Cluster): (r: DatabaseService)
    ensures r.serviceID == cluster.id && r.serviceName == cluster.name
    ensures r.serviceType == InstanceDatabaseService
    ensures r.serviceInfo.Keys == ServiceInfoKeys && |r.serviceInfo| == 7
    ensures r.serviceInfo[CloudProviderKey] == ReportedProvider(cluster.providerSettings)
    ensures r.serviceInfo[ProvisionPhaseKey] == PhaseName(PhaseOfState(cluster.stateName))
    ensures r.serviceInfo[ProjectIDKey] == project.id && r.serviceInfo[ProjectNameKey] == project.name
    ensures r.serviceInfo[InstanceSizeNameKey] == cluster.providerSettings.instanceSizeName
    ensures r.serviceInfo[CloudRegionKey] == cluster.providerSettings.regionName
    ensures r.serviceInfo[ConnectionStringsStandardSrvKey] == cluster.standardSrv
  {
    var phase := ParsePhase(Title(ToLower(cluster.stateName)));
    var provider := ReportedProvider(cluster.providerSettings);
    var info := map[
      InstanceSizeNameKey := cluster.providerSettings.instanceSizeName,
      CloudProviderKey := provider,
      CloudRegionKey := cluster.providerSettings.regionName,
      ProjectIDKey := project.id,
      ProjectNameKey := project.name,
      ConnectionStringsStandardSrvKey := cluster.standardSrv,
      ProvisionPhaseKey := PhaseName(phase)];
    assert info.Keys == ServiceInfoKeys;
    ServiceInfoKeysCount();
    DatabaseService(cluster.id, cluster.name, InstanceDatabaseService, info)
  }

  /** The instance reports Ready exactly when Atlas calls the cluster "ready" or "idle", in any case. */
  lemma InstanceReadyIffIdle(project: Project, cluster: Cluster)
    ensures GetInstance(project, cluster).serviceInfo[ProvisionPhaseKey] == "Ready"
        <==> EqualFold(cluster.stateName, "ready") || EqualFold(cluster.stateName, "idle")
  {
    PhaseIsCaseInsensitive(cluster.stateName);
    PhaseNameInjective(PhaseOfState(cluster.stateName), Ready);
    assert ToLower("ready") == "ready";
    assert ToLower("idle") == "idle";
  }

  /** The projects of `ps` whose ID is neither in `seen` nor on an earlier project, in list order. */
  function FirstsFrom(ps: seq<Project>, seen: set<string>): seq<Project>
    decreases |ps|
  {
    if ps == [] then []
    else if ps[0].id in seen then FirstsFrom(ps[1..], seen)
    else [ps[0]] + FirstsFrom(ps[1..], seen + {ps[0].id})
  }

  /** The first project of each distinct ID, in list order. */
  function Firsts(ps: seq<Project>): seq<Project> {
    FirstsFrom(ps, {})
  }

  predicate DistinctIds(ps: seq<Project>) {
    forall i, j :: 0 <= i < j < |ps| ==> ps[i].id != ps[j].id
  }

  function Ids(ps: seq<Project>): set<string> {
    set p | p in ps :: p.id
  }

  lemma IdsOfCons(p: Project, rest: seq<Project>)
    ensures Ids([p] + rest) == {p.id} + Ids(rest)
  {
    assert forall q :: q in [p] + rest <==> q == p || q in rest;
  }

  /** The IDs kept are the IDs not yet seen, and every project kept is a listed one. */
  lemma {:induction false} FirstsFromIds(ps: seq<Project>, seen: set<string>)
    ensures Ids(FirstsFrom(ps, seen)) == Ids(ps) - seen
    ensures forall p :: p in FirstsFrom(ps, seen) ==> p in ps
    decreases |ps|
  {
    if ps != [] {
      var rest := ps[1..];
      assert ps == [ps[0]] + rest;
      IdsOfCons(ps[0], rest);
      if ps[0].id in seen {
        FirstsFromIds(rest, seen);
      } else {
        FirstsFromIds(rest, seen + {ps[0].id});
        IdsOfCons(ps[0], FirstsFrom(rest, seen + {ps[0].id}));
      }
    }
  }

  /** No ID is kept twice. */
  lemma {:induction false} FirstsFromDistinct(ps: seq<Project>, seen: set<string>)
    ensures DistinctIds(FirstsFrom(ps, seen))
    decreases |ps|
  {
    if ps != [] {
      var rest := ps[1..];
      if ps[0].id in seen {
        FirstsFromDistinct(rest, seen);
      } else {
        var seen' := seen + {ps[0].id};
        FirstsFromDistinct(rest, seen');
        FirstsFromIds(rest, seen');
        var tail := FirstsFrom(rest, seen');
        var out := [ps[0]] + tail;
        assert forall j :: 0 < j < |out| ==> out[j] == tail[j - 1] && out[j].id in Ids(tail);
      }
    }
  }

  lemma FirstsFromShape(ps: seq<Project>, seen: set<string>)
    ensures DistinctIds(FirstsFrom(ps, seen))
    ensures Ids(FirstsFrom(ps, seen)) == Ids(ps) - seen
    ensures forall p :: p in FirstsFrom(ps, seen) ==> p in ps
  {
    FirstsFromDistinct(ps, seen);
    FirstsFromIds(ps, seen);
  }

  /**
   * Each project ID is listed at most once: the projects whose clusters are
   * listed have pairwise distinct IDs and cover every ID of the project list.
   */
  lemma ListedAtMostOnce(ps: seq<Project>)
    ensures DistinctIds(Firsts(ps))
    ensures Ids(Firsts(ps)) == Ids(ps)
    ensures forall p :: p in Firsts(ps) ==> p in ps
  {
    FirstsFromShape(ps, {});
  }

  function InstancesOf(project: Project, clusters: seq<Cluster>): (r: seq<DatabaseService>)
    ensures |r| == |clusters|
    ensures forall i :: 0 <= i < |clusters| ==> r[i] == GetInstance(project, clusters[i])
  {
    if clusters == [] then [] else [GetInstance(project, clusters[0])] + InstancesOf(project, clusters[1..])
  }

  /**
   * Listing the clusters of `ps` in order: the concatenation of the instances
   * of every project, or the first failed listing.
   */
  function ListAll(ps: seq<Project>, clustersOf: string -> Remote<seq<Cluster>>): Remote<seq<DatabaseService>>
  {
    if ps == [] then Answer([])
    else match clustersOf(ps[0].id)
      case CallFailed(resp, err) => CallFailed(resp, err)
      case Answer(cs) =>
        match ListAll(ps[1..], clustersOf)
        case CallFailed(resp, err) => CallFailed(resp, err)
        case Answer(rest) => Answer(InstancesOf(ps[0], cs) + rest)
  }

  /** The listing succeeds exactly when every project's cluster call succeeds; a failure is one of those calls' failures. */
  lemma {:induction false} ListAllFound(ps: seq<Project>, clustersOf: string -> Remote<seq<Cluster>>)
    ensures ListAll(ps, clustersOf).Answer? <==> forall p :: p in ps ==> clustersOf(p.id).Answer?
    ensures ListAll(ps, clustersOf).CallFailed? ==>
      exists p :: p in ps && clustersOf(p.id).CallFailed? &&
        clustersOf(p.id).response == ListAll(ps, clustersOf).response &&
        clustersOf(p.id).error == ListAll(ps, clustersOf).error
  {
    if ps != [] {
      ListAllFound(ps[1..], clustersOf);
      if ListAll(ps, clustersOf).CallFailed? && clustersOf(ps[0].id).Answer? {
        var p :| p in ps[1..] && clustersOf(p.id).CallFailed? &&
          clustersOf(p.id).response == ListAll(ps[1..], clustersOf).response &&
          clustersOf(p.id).error == ListAll(ps[1..], clustersOf).error;
        assert p in ps;
      }
      assert forall p :: p in ps ==> p == ps[0] || p in ps[1..];
    }
  }

  /** The Terminate result for a failed call: the classified reason and the error text. */
  function TerminateFor<T>(r: Remote<T>): (result: Result)
    requires r.CallFailed?
    ensures result.Terminate? && result.message == r.error
  {
    Terminate(ReasonFromResponse(r.response), r.error)
  }

  /** How a listing is reported: the payload and OK, or no payload and a Terminate carrying the classified reason. */
  function Report<T>(r: Remote<T>): (out: (Option<T>, Result))
    ensures out.1.Ok? <==> r.Answer?
    ensures r.Answer? ==> out.0 == Some(r.value)
    ensures r.CallFailed? ==> out.0 == None && out.1 == TerminateFor(r)
  {
    match r
    case Answer(v) => (Some(v), Ok)
    case CallFailed(resp, err) => (None, Terminate(ReasonFromResponse(resp), err))
  }

  /** Combines what was listed before with the rest of the listing. */
  function Prepend(acc: seq<DatabaseService>, r: Remote<seq<DatabaseService>>): Remote<seq<DatabaseService>> {
    match r
    case Answer(xs) => Answer(acc + xs)
    case CallFailed(resp, err) => CallFailed(resp, err)
  }

  lemma PrependNothing(r: Remote<seq<DatabaseService>>)
    ensures Prepend([], r) == r
  {
    if r.Answer? {
      assert [] + r.value == r.value;
    }
  }

  /** One step of the walk over the project list, as `FirstsFrom` sees it. */
  lemma FirstsFromStep(ps: seq<Project>, i: nat, seen: set<string>)
    requires i < |ps|
    ensures ps[i].id in seen ==> FirstsFrom(ps[i..], seen) == FirstsFrom(ps[i + 1..], seen)
    ensures ps[i].id !in seen ==> FirstsFrom(ps[i..], seen) == [ps[i]] + FirstsFrom(ps[i + 1..], seen + {ps[i].id})
  {
    assert ps[i..][0] == ps[i] && ps[i..][1..] == ps[i + 1..];
  }

  /** Listing one more project whose call succeeded moves its instances into what was listed before. */
  lemma PrependStep(acc: seq<DatabaseService>, p: Project, cs: seq<Cluster>, rest: seq<Project>,
                    clustersOf: string -> Remote<seq<Cluster>>)
    requires clustersOf(p.id) == Answer(cs)
    ensures Prepend(acc, ListAll([p] + rest, clustersOf)) == Prepend(acc + InstancesOf(p, cs), ListAll(rest, clustersOf))
  {
    assert ([p] + rest)[0] == p && ([p] + rest)[1..] == rest;
    var r := ListAll(rest, clustersOf);
    if r.Answer? {
      assert acc + (InstancesOf(p, cs) + r.value) == (acc + InstancesOf(p, cs)) + r.value;
    }
  }

  /** A failed call ends the listing with that call's failure. */
  lemma ListAllStops(p: Project, rest: seq<Project>, clustersOf: string -> Remote<seq<Cluster>>)
    requires clustersOf(p.id).CallFailed?
    ensures ListAll([p] + rest, clustersOf) == CallFailed(clustersOf(p.id).response, clustersOf(p.id).error)
  {
    assert ([p] + rest)[0] == p;
  }

  /**
   * `discoverInstances`: list every project, then the clusters of each
   * project ID not processed yet. Any failed call ends the walk with no
   * payload and a Terminate result; there is no partial list.
   */
  method DiscoverInstances(api: AtlasApi) returns (instances: Option<seq<DatabaseService>>, result: Result)
    ensures api.allProjects.CallFailed? ==> instances == None && result == TerminateFor(api.allProjects)
    ensures api.allProjects.Answer? ==> (instances, result) == Report(ListAll(Firsts(api.allProjects.value), api.clustersOf))
  {
    if api.allProjects.CallFailed? {
      return None, Terminate(ReasonFromResponse(api.allProjects.response), api.allProjects.error);
    }
    var projects := api.allProjects.value;
    var processed: set<string> := {};
    var instanceList: seq<DatabaseService> := [];
    var i := 0;
    assert projects[0..] == projects;
    PrependNothing(ListAll(Firsts(projects), api.clustersOf));
    while i < |projects|
      invariant 0 <= i <= |projects|
      invariant ListAll(Firsts(projects), api.clustersOf)
             == Prepend(instanceList, ListAll(FirstsFrom(projects[i..], processed), api.clustersOf))
    {
      var p := projects[i];
      FirstsFromStep(projects, i, processed);
      if p.id in processed {
        i := i + 1;
        continue;
      }
      var listing := api.clustersOf(p.id);
      if listing.CallFailed? {
        ListAllStops(p, FirstsFrom(projects[i + 1..], processed + {p.id}), api.clustersOf);
        return None, Terminate(ReasonFromResponse(listing.response), listing.error);
      }
      PrependStep(instanceList, p, listing.value, FirstsFrom(projects[i + 1..], processed + {p.id}), api.clustersOf);
      instanceList := instanceList + InstancesOf(p, listing.value);
      processed := processed + {p.id};
      i := i + 1;
    }
    assert projects[i..] == [];
    assert instanceList + [] == instanceList;
    return Some(instanceList), Ok;
  }

  /** Both lookups of `GetClusterInfo` answer: the project by name, then the cluster in it. */
  predicate ClusterKnown(api: AtlasApi, projectName: string, clusterName: string) {
    api.projectByName(projectName).Answer? && api.cluster(api.projectByName(projectName).value.id, clusterName).Answer?
  }

  /**
   * `GetClusterInfo`: look the project up by name, then the cluster by
   * project ID and name; either failure ends early with a Terminate result.
   */
  function GetClusterInfo(api: AtlasApi, projectName: string, clusterName: string): (r: (Option<DatabaseService>, Result))
    ensures r.1.Ok? <==> ClusterKnown(api, projectName, clusterName)
    ensures r.1.Ok? ==>
      r.0 == Some(GetInstance(api.projectByName(projectName).value,
                              api.cluster(api.projectByName(projectName).value.id, clusterName).value))
    ensures api.projectByName(projectName).CallFailed? ==>
      r == (None, TerminateFor(api.projectByName(projectName)))
    ensures api.projectByName(projectName).Answer? && api.cluster(api.projectByName(projectName).value.id, clusterName).CallFailed? ==>
      r == (None, TerminateFor(api.cluster(api.projectByName(projectName).value.id, clusterName)))
    ensures !r.1.Ok? ==> r.0 == None && r.1.Terminate?
  {
    match api.projectByName(projectName)
    case CallFailed(resp, err) => (None, Terminate(ReasonFromResponse(resp), err))
    case Answer(project) =>
      match api.cluster(project.id, clusterName)
      case CallFailed(resp, err) => (None, Terminate(ReasonFromResponse(resp), err))
      case Answer(cluster) => (Some(GetInstance(project, cluster)), Ok)
  }
}
