/**
 * The MongoDBAtlasInstance reconciler: the status state machine that reads
 * the remote cluster and the child AtlasDeployment's conditions, and one
 * reconcile pass as a step from (instance status, observations) to (new
 * status, directive, effects on other objects). Store and Atlas calls are
 * inputs: their answers are fields of `Observations` and an `AtlasApi`.
 */
module InstanceController {
  import opened Wrappers
  import opened Text
  import opened Conditions
  import opened Workflow
  import opened AtlasClusterTypes
  import opened InstanceSpecs
  import Inventory

  // Condition types (defined in packages that are not part of this model; the
  // model only needs them to be pairwise distinct).
  const ProviderSyncType := "ProvisionReady"
  const DeploymentReadyType := "DeploymentReady"
  const IPAccessListReadyType := "IPAccessListReady"

  const InstancePhaseChangedInAtlas := "InstancePhaseChangedInAtlas"
  const InstancePhaseChangedInAtlasMsg := "db instance phase has changed in Atlas"
  const FreeClusterFailed := "CANNOT_CREATE_FREE_CLUSTER_VIA_PUBLIC_API"
  const ClusterAlreadyExistsInAtlas := "ClusterAlreadyExistsInAtlas"
  const ClusterAlreadyExistsInAtlasMsg := "Can not create the cluster as it already exists in Atlas"
  const WaitingForCreationMsg := "Waiting for cluster creation to start"
  const ReadyReason := "Ready"

  // Instance phases: the names of the inventory's phases.
  const PhasePending := Inventory.PhaseName(Inventory.Phase.Pending)
  const PhaseReady := Inventory.PhaseName(Inventory.Phase.Ready)
  const PhaseFailed := Inventory.PhaseName(Inventory.Phase.Failed)
  const PhaseUnknown := Inventory.PhaseName(Inventory.Phase.Unknown)

  /** The status of a MongoDBAtlasInstance; a nil info map is `None`. */
  datatype InstanceStatus = InstanceStatus(
    phase: string,
    instanceID: string,
    instanceInfo: Option<map<string, string>>,
    conditions: seq<Condition>)

  /** `SetInstanceCondition` for the provider-sync condition: an upsert by type. */
  function SetSync(s: InstanceStatus, status: ConditionStatus, reason: string, message: string): InstanceStatus {
    s.(conditions := SetCondition(s.conditions, Condition(ProviderSyncType, status, reason, message)))
  }

  /** The provider-sync condition of a status. */
  function Sync(s: InstanceStatus): Option<Condition> {
    GetCondition(s.conditions, ProviderSyncType)
  }

  // ------------------------------------------------------------------ status from deployment info

  /**
   * The first half of `setInstanceStatusWithDeploymentInfo`: a successful
   * lookup stores the phase from the info map and the rest of the map; a
   * failed one resets to Pending with no ID and no map.
   */
  function AfterLookup(s: InstanceStatus, lookup: (Option<Inventory.DatabaseService>, Result)): (r: InstanceStatus)
    requires lookup.1.IsOk() ==> lookup.0.Some?
    ensures r.conditions == s.conditions
    ensures lookup.1.IsOk() ==>
      var info := lookup.0.value.serviceInfo;
      && r.phase == (if Inventory.ProvisionPhaseKey in info then info[Inventory.ProvisionPhaseKey] else "")
      && r.instanceID == lookup.0.value.serviceID
      && r.instanceInfo == Some(info - {Inventory.ProvisionPhaseKey})
    ensures !lookup.1.IsOk() ==> r.phase == PhasePending && r.instanceID == "" && r.instanceInfo.None?
  {
    if lookup.1.IsOk() then
      var info := lookup.0.value.serviceInfo;
      s.(phase := if Inventory.ProvisionPhaseKey in info then info[Inventory.ProvisionPhaseKey] else "",
         instanceID := lookup.0.value.serviceID,
         instanceInfo := Some(info - {Inventory.ProvisionPhaseKey}))
    else
      s.(phase := PhasePending, instanceID := "", instanceInfo := None)
  }

  datatype Walked = Walked(status: InstanceStatus, changedInAtlas: bool)

  /**
   * The loop of `setInstanceStatusWithDeploymentInfo` over the child's
   * conditions; `found` records that a DeploymentReady condition was seen.
   */
  function WalkConditions(s: InstanceStatus, conds: seq<Condition>, found: bool): (w: Walked)
    ensures w.status.instanceID == s.instanceID && w.status.instanceInfo == s.instanceInfo
    ensures w.status.phase == s.phase || w.status.phase == PhaseFailed
    ensures w.changedInAtlas ==> w.status.phase != PhaseReady
    decreases |conds|
  {
    if conds == [] then
      Walked(if found then s else SetSync(s, False, PhasePending, WaitingForCreationMsg), false)
    else
      var c := conds[0];
      if c.condType != DeploymentReadyType then WalkConditions(s, conds[1..], found)
      else if c.status == True then
        if s.phase == PhaseReady then Walked(SetSync(s, c.status, ReadyReason, c.message), false)
        else Walked(SetSync(s, False, InstancePhaseChangedInAtlas, InstancePhaseChangedInAtlasMsg), true)
      else
        var s' := if Contains(c.message, FreeClusterFailed) then s.(phase := PhaseFailed) else s;
        WalkConditions(SetSync(s', c.status, c.reason, c.message), conds[1..], true)
  }

  datatype StatusUpdate = StatusUpdate(status: InstanceStatus, changedInAtlas: bool, result: Result)

  /** `setInstanceStatusWithDeploymentInfo`, looking the cluster up by project name and instance name. */
  function DeploymentInfo(s: InstanceStatus, api: Inventory.AtlasApi, projectName: string, clusterName: string,
                          conds: seq<Condition>): (u: StatusUpdate)
    ensures var lookup := Inventory.GetClusterInfo(api, projectName, clusterName);
      && (lookup.1.IsOk() ==>
            && u.result.IsOk()
            && u.status.instanceID == lookup.0.value.serviceID
            && u.status.instanceInfo == Some(lookup.0.value.serviceInfo - {Inventory.ProvisionPhaseKey}))
      && (!lookup.1.IsOk() ==>
            && !u.result.IsOk()
            && u.status.instanceID == "" && u.status.instanceInfo.None?
            && (u.status.phase == PhasePending || u.status.phase == PhaseFailed))
    ensures u.changedInAtlas ==> u.status.phase != PhaseReady
  {
    var lookup := Inventory.GetClusterInfo(api, projectName, clusterName);
    var w := WalkConditions(AfterLookup(s, lookup), conds, false);
    StatusUpdate(w.status, w.changedInAtlas, lookup.1)
  }

  /**
   * What the walk decides from the phase alone, as one decision: the final
   * phase, the last sync condition it sets, and the flag.
   */
  datatype Decision = Decision(phase: string, sync: Option<Condition>, changedInAtlas: bool)

  function Decide(phase: string, conds: seq<Condition>, found: bool): (d: Decision)
    ensures d.phase == phase || d.phase == PhaseFailed
    ensures d.sync.Some? ==> d.sync.value.condType == ProviderSyncType
    ensures !found ==> d.sync.Some?
    decreases |conds|
  {
    if conds == [] then
      Decision(phase, if found then None else Some(Condition(ProviderSyncType, False, PhasePending, WaitingForCreationMsg)), false)
    else
      var c := conds[0];
      if c.condType != DeploymentReadyType then Decide(phase, conds[1..], found)
      else if c.status == True then
        if phase == PhaseReady then Decision(phase, Some(Condition(ProviderSyncType, True, ReadyReason, c.message)), false)
        else Decision(phase, Some(Condition(ProviderSyncType, False, InstancePhaseChangedInAtlas, InstancePhaseChangedInAtlasMsg)), true)
      else
        var phase' := if Contains(c.message, FreeClusterFailed) then PhaseFailed else phase;
        var rest := Decide(phase', conds[1..], true);
        Decision(rest.phase, Some(rest.sync.GetOr(Condition(ProviderSyncType, c.status, c.reason, c.message))), rest.changedInAtlas)
  }

  function Upsert(cs: seq<Condition>, c: Option<Condition>): seq<Condition> {
    if c.Some? then SetCondition(cs, c.value) else cs
  }

  /**
   * However many DeploymentReady conditions the child has, the walk amounts
   * to one decision on the phase and one upsert of the sync condition: only
   * the last condition set survives.
   */
  lemma {:induction false} WalkIsOneDecision(s: InstanceStatus, conds: seq<Condition>, found: bool)
    ensures var d := Decide(s.phase, conds, found);
      WalkConditions(s, conds, found) == Walked(s.(phase := d.phase, conditions := Upsert(s.conditions, d.sync)), d.changedInAtlas)
    decreases |conds|
  {
    if conds != [] {
      var c := conds[0];
      if c.condType != DeploymentReadyType {
        WalkIsOneDecision(s, conds[1..], found);
      } else if c.status != True {
        var s' := if Contains(c.message, FreeClusterFailed) then s.(phase := PhaseFailed) else s;
        var first := Condition(ProviderSyncType, c.status, c.reason, c.message);
        WalkIsOneDecision(SetSync(s', c.status, c.reason, c.message), conds[1..], true);
        var rest := Decide(s'.phase, conds[1..], true);
        if rest.sync.Some? {
          SetOverrides(s.conditions, first, rest.sync.value);
        }
      }
    }
  }

  /**
   * Every outcome of the walk: the sync condition is always set; it is True
   * only when the phase is Ready; a raised flag comes with a sync condition
   * reporting a phase changed in Atlas and a phase that is not Ready; the phase is kept
   * or becomes Failed; the ID and the info map are untouched.
   */
  lemma {:induction false} WalkOutcome(s: InstanceStatus, conds: seq<Condition>)
    ensures var w := WalkConditions(s, conds, false);
      && Sync(w.status).Some?
      && (Sync(w.status).value.status == True ==> w.status.phase == PhaseReady && !w.changedInAtlas)
      && (w.changedInAtlas ==>
            Sync(w.status) == Some(Condition(ProviderSyncType, False, InstancePhaseChangedInAtlas, InstancePhaseChangedInAtlasMsg))
            && w.status.phase != PhaseReady)
      && (w.status.phase == s.phase || w.status.phase == PhaseFailed)
      && w.status.instanceID == s.instanceID && w.status.instanceInfo == s.instanceInfo
  {
    WalkIsOneDecision(s, conds, false);
    var d := Decide(s.phase, conds, false);
    DecisionOutcome(s.phase, conds, false);
    GetAfterSet(s.conditions, d.sync.value);
  }

  lemma {:induction false} DecisionOutcome(phase: string, conds: seq<Condition>, found: bool)
    ensures var d := Decide(phase, conds, found);
      && (d.sync.Some? && d.sync.value.status == True ==> d.phase == PhaseReady && !d.changedInAtlas)
      && (d.changedInAtlas ==>
            d.sync == Some(Condition(ProviderSyncType, False, InstancePhaseChangedInAtlas, InstancePhaseChangedInAtlasMsg))
            && d.phase != PhaseReady)
      && (d.phase == phase || d.phase == PhaseFailed)
    decreases |conds|
  {
    if conds != [] {
      var c := conds[0];
      if c.condType != DeploymentReadyType {
        DecisionOutcome(phase, conds[1..], found);
      } else if c.status != True {
        var phase' := if Contains(c.message, FreeClusterFailed) then PhaseFailed else phase;
        DecisionOutcome(phase', conds[1..], true);
      }
    }
  }

  /** With no DeploymentReady condition the instance waits for creation to start. */
  lemma {:induction false} NoDeploymentReadyMeansWaiting(s: InstanceStatus, conds: seq<Condition>, found: bool)
    requires forall i :: 0 <= i < |conds| ==> conds[i].condType != DeploymentReadyType
    ensures WalkConditions(s, conds, found) ==
      Walked(if found then s else SetSync(s, False, PhasePending, WaitingForCreationMsg), false)
    decreases |conds|
  {
    if conds != [] {
      NoDeploymentReadyMeansWaiting(s, conds[1..], found);
    }
  }

  lemma {:induction false} SkipOtherConditions(s: InstanceStatus, others: seq<Condition>, rest: seq<Condition>, found: bool)
    requires forall i :: 0 <= i < |others| ==> others[i].condType != DeploymentReadyType
    ensures WalkConditions(s, others + rest, found) == WalkConditions(s, rest, found)
    decreases |others|
  {
    if others != [] {
      assert (others + rest)[0] == others[0];
      assert (others + rest)[1..] == others[1..] + rest;
      SkipOtherConditions(s, others[1..], rest, found);
    } else {
      assert others + rest == rest;
    }
  }

  /**
   * The table for a child with exactly one DeploymentReady condition `c`:
   * True with a Ready phase reports Ready; True otherwise reports a phase
   * changed in Atlas and raises the flag; anything else is copied, and a
   * free-cluster refusal fails the instance.
   */
  lemma {:induction false} DeploymentReadyTable(s: InstanceStatus, before: seq<Condition>, c: Condition, after: seq<Condition>)
    requires c.condType == DeploymentReadyType
    requires forall i :: 0 <= i < |before| ==> before[i].condType != DeploymentReadyType
    requires forall i :: 0 <= i < |after| ==> after[i].condType != DeploymentReadyType
    ensures c.status == True && s.phase == PhaseReady ==>
      WalkConditions(s, before + [c] + after, false) == Walked(SetSync(s, True, ReadyReason, c.message), false)
    ensures c.status == True && s.phase != PhaseReady ==>
      WalkConditions(s, before + [c] + after, false)
        == Walked(SetSync(s, False, InstancePhaseChangedInAtlas, InstancePhaseChangedInAtlasMsg), true)
    ensures c.status != True ==>
      WalkConditions(s, before + [c] + after, false)
        == Walked(SetSync(if Contains(c.message, FreeClusterFailed) then s.(phase := PhaseFailed) else s,
                          c.status, c.reason, c.message), false)
  {
    assert before + [c] + after == before + ([c] + after);
    SkipOtherConditions(s, before, [c] + after, false);
    WalkFromDeploymentReady(s, c, after);
  }

  /** The walk from the one DeploymentReady condition onwards. */
  lemma {:induction false} WalkFromDeploymentReady(s: InstanceStatus, c: Condition, after: seq<Condition>)
    requires c.condType == DeploymentReadyType
    requires forall i :: 0 <= i < |after| ==> after[i].condType != DeploymentReadyType
    ensures WalkConditions(s, [c] + after, false) ==
      if c.status == True then
        if s.phase == PhaseReady then Walked(SetSync(s, True, ReadyReason, c.message), false)
        else Walked(SetSync(s, False, InstancePhaseChangedInAtlas, InstancePhaseChangedInAtlasMsg), true)
      else
        Walked(SetSync(if Contains(c.message, FreeClusterFailed) then s.(phase := PhaseFailed) else s,
                       c.status, c.reason, c.message), false)
  {
    assert ([c] + after)[0] == c && ([c] + after)[1..] == after;
    if c.status != True {
      var s' := if Contains(c.message, FreeClusterFailed) then s.(phase := PhaseFailed) else s;
      NoDeploymentReadyMeansWaiting(SetSync(s', c.status, c.reason, c.message), after, true);
    }
  }

  /**
   * The status update is idempotent: on the same remote answers and the same
   * child conditions, a second update leaves the status as the first left it.
   */
  lemma {:induction false} DeploymentInfoIdempotent(s: InstanceStatus, api: Inventory.AtlasApi, projectName: string, clusterName: string,
                                 conds: seq<Condition>)
    ensures var u := DeploymentInfo(s, api, projectName, clusterName, conds);
      DeploymentInfo(u.status, api, projectName, clusterName, conds) == u
  {
    var lookup := Inventory.GetClusterInfo(api, projectName, clusterName);
    var t := AfterLookup(s, lookup);
    WalkIsOneDecision(t, conds, false);
    var d := Decide(t.phase, conds, false);
    var u := DeploymentInfo(s, api, projectName, clusterName, conds);
    var t2 := AfterLookup(u.status, lookup);
    assert t2 == t.(conditions := Upsert(t.conditions, d.sync));
    WalkIsOneDecision(t2, conds, false);
    SetOverrides(t.conditions, d.sync.value, d.sync.value);
  }

  // ------------------------------------------------------------------ one reconcile pass

  datatype Fetch<T> = Found(value: T) | NotFound | FetchError(error: string)

  datatype ProjectList = Listed(items: seq<AtlasProject>) | ListError(error: string)

  datatype CreateOutcome = CreatedAs(name: string) | CreateError(error: string)

  /**
   * What one pass reads from the store and the Atlas connection, as answers:
   * the inventory at a key, the project list for the instance's labels, the
   * connection secret read, the project create (and the name the server
   * generates), the connection and client setup, the child before and after
   * the create-or-update, and that write.
   */
  datatype Observations = Observations(
    inventoryAt: NamespacedName -> Fetch<AtlasInventory>,
    projects: ProjectList,
    secretError: Option<string>,
    projectCreate: CreateOutcome,
    connectionError: Option<string>,
    clientError: Option<string>,
    childBefore: Fetch<ObjectMeta>,
    childWriteError: Option<string>,
    childAfter: Fetch<seq<Condition>>)

  /** Writes a pass issues to other objects. */
  datatype Effect =
    | CreateProject(project: AtlasProject)
    | WriteChild(meta: ObjectMeta, spec: AtlasClusterSpec)
    | NudgeChild(meta: ObjectMeta)
    | DeleteProject(project: AtlasProject)

  /** What the pass returns to the controller runtime. */
  datatype Directive = Done | Requeue | Fail(message: string) | FromResult(result: Result)

  datatype Step = Step(status: InstanceStatus, directive: Directive, effects: seq<Effect>)

  /**
   * Which reading of the two guarded branches a pass uses: `keepConflict`
   * keeps the already-exists guard closed once it has fired, `nudgeWhenOk`
   * nudges the child whenever the phase changed in Atlas.
   */
  datatype Policy = Policy(keepConflict: bool, nudgeWhenOk: bool)

  const AsWritten := Policy(false, false)
  const Corrected := Policy(true, true)

  /** The inventory key: the declared namespace, or the instance's own when none is declared. */
  function InventoryKey(inst: InstanceMeta, spec: InstanceSpec): (k: NamespacedName)
    ensures k.name == spec.inventoryRef.name
    ensures k.namespace == (if spec.inventoryRef.namespace == "" then inst.namespace else spec.inventoryRef.namespace)
    ensures k.namespace == "" ==> inst.namespace == "" && spec.inventoryRef.namespace == ""
  {
    NamespacedName(spec.inventoryRef.name, if |spec.inventoryRef.namespace| == 0 then inst.namespace else spec.inventoryRef.namespace)
  }

  /** Effects before the child is touched: at most the creation of the project. */
  predicate OnlyCreates(effects: seq<Effect>) {
    |effects| <= 1 && forall i :: 0 <= i < |effects| ==> effects[i].CreateProject?
  }

  datatype Resolution = Resolved(project: AtlasProject, effects: seq<Effect>) | Unresolved(error: string)

  /**
   * `reconcileAtlasProject`: the project the label query finds, or else the
   * project prepared for this instance once the store has created it.
   */
  function ReconcileAtlasProject(inst: InstanceMeta, data: InstanceData, inv: AtlasInventory, obs: Observations): (r: Resolution)
    ensures r.Resolved? ==> SelectedBy(r.project.meta.labels, inst) && OnlyCreates(r.effects)
    ensures r.Resolved? && r.effects == [] ==>
      && obs.projects.Listed? && r.project in obs.projects.items
      && FindProject(obs.projects.items, inst) == Some(r.project)
    ensures r.Resolved? && r.effects != [] ==>
      && obs.projects.Listed? && FindProject(obs.projects.items, inst).None?
      && r.project.spec.name == data.projectName && r.project.meta.namespace == inv.namespace
      && r.effects == [CreateProject(ProjectForCreation(inst, data, inv, None).project)]
    ensures obs.projects.ListError? ==> r == Unresolved(obs.projects.error)
  {
    match obs.projects
    case ListError(e) => Unresolved(e)
    case Listed(items) =>
      match FindProject(items, inst)
      case Some(p) => Resolved(p, [])
      case None =>
        match ProjectForCreation(inst, data, inv, obs.secretError)
        case SecretError(e) => Unresolved(e)
        case Prepared(p) =>
          match obs.projectCreate
          case CreateError(e) => Unresolved(e)
          case CreatedAs(name) => Resolved(Stored(p, name), [CreateProject(p)])
  }

  /** How `Reconcile` gets as far as the deployment: where it stops before touching the child, or with what. */
  datatype Prelude =
    | InventoryMissing
    | Broken(error: string)
    | ProjectPending(effects: seq<Effect>)
    | ProjectFailed(cond: Condition, effects: seq<Effect>)
    | ProjectReady(data: InstanceData, inv: AtlasInventory, project: AtlasProject, effects: seq<Effect>)

  /** The project's readiness check in `Reconcile`, once the project is resolved. */
  function ProjectStage(data: InstanceData, inv: AtlasInventory, resolution: Resolution): (r: Prelude)
    ensures resolution.Unresolved? ==> r == Broken(resolution.error)
    ensures resolution.Resolved? ==> !r.Broken? && !r.InventoryMissing? && r.effects == resolution.effects
    ensures r.ProjectFailed? ==> r.cond.status == False && r.cond.condType != IPAccessListReadyType
    ensures r.ProjectReady? ==>
      && r.data == data && r.inv == inv && r.project == resolution.project
      && r.project.checkedCondition.Some?
      && r.project.checkedCondition.value.status != False
      && r.project.checkedCondition.value.condType != IPAccessListReadyType
  {
    match resolution
    case Unresolved(e) => Broken(e)
    case Resolved(p, effects) =>
      if p.checkedCondition.None? || p.checkedCondition.value.condType == IPAccessListReadyType then
        ProjectPending(effects)
      else if p.checkedCondition.value.status == False then
        ProjectFailed(p.checkedCondition.value, effects)
      else
        ProjectReady(data, inv, p, effects)
  }

  /** The part of `Reconcile` before `reconcileAtlasDeployment`; it does not read the instance status. */
  function ReconcilePrelude(inst: InstanceMeta, spec: InstanceSpec, obs: Observations): (r: Prelude)
    ensures obs.inventoryAt(InventoryKey(inst, spec)).NotFound? <==> r.InventoryMissing?
    ensures (r.ProjectPending? || r.ProjectFailed? || r.ProjectReady?) ==> OnlyCreates(r.effects)
    ensures r.ProjectFailed? ==> r.cond.status == False && r.cond.condType != IPAccessListReadyType
    ensures r.ProjectReady? ==>
      && GetInstanceData(spec) == Data(r.data)
      && SelectedBy(r.project.meta.labels, inst)
      && r.project.checkedCondition.Some?
      && r.project.checkedCondition.value.status != False
      && r.project.checkedCondition.value.condType != IPAccessListReadyType
  {
    match obs.inventoryAt(InventoryKey(inst, spec))
    case NotFound => InventoryMissing
    case FetchError(e) => Broken(e)
    case Found(inv) =>
      var dataResult := GetInstanceData(spec);
      if dataResult.Invalid? then Broken(dataResult.message)
      else ProjectStage(dataResult.data, inv, ReconcileAtlasProject(inst, dataResult.data, inv, obs))
  }

  /**
   * The phases in which a missing child means "not provisioned yet", so an
   * existing Atlas cluster is a conflict; under `keepConflict` also a status
   * that already reports that conflict.
   */
  predicate GuardPhase(s: InstanceStatus, policy: Policy) {
    || s.phase == "" || s.phase == PhasePending || s.phase == PhaseUnknown
    || (policy.keepConflict && Sync(s).Some? && Sync(s).value.reason == ClusterAlreadyExistsInAtlas)
  }

  /** The effects after a successful create-or-update of the child. */
  function Written(inst: InstanceMeta, data: InstanceData, project: AtlasProject, effects: seq<Effect>): seq<Effect> {
    effects + [WriteChild(OwnedAtlasDeployment(inst), AtlasDeploymentSpec(project.meta, data))]
  }

  /** `reconcileAtlasDeployment`. */
  function DeploymentPass(inst: InstanceMeta, spec: InstanceSpec, s: InstanceStatus, data: InstanceData,
                          project: AtlasProject, effects: seq<Effect>, obs: Observations,
                          api: Inventory.AtlasApi, policy: Policy): (r: Step)
    ensures r.directive != Requeue
    ensures effects <= r.effects && |r.effects| <= |effects| + 2
    ensures |r.effects| > |effects| ==>
      r.effects[|effects|] == WriteChild(OwnedAtlasDeployment(inst), AtlasDeploymentSpec(project.meta, data))
    ensures |r.effects| == |effects| + 2 ==> r.effects[|effects| + 1] == NudgeChild(OwnedAtlasDeployment(inst))
  {
    if obs.connectionError.Some? || obs.clientError.Some? then
      var e := if obs.connectionError.Some? then obs.connectionError.value else obs.clientError.value;
      var result := Terminate(InventoryInputError, e);
      Step(SetSync(s, False, result.Reason(), result.Message()), FromResult(result), effects)
    else if obs.childBefore.FetchError? then
      Step(s, Fail(obs.childBefore.error), effects)
    else if obs.childBefore.NotFound? && GuardPhase(s, policy)
         && Inventory.ClusterKnown(api, project.spec.name, spec.name) then
      Step(SetSync(s.(phase := PhaseFailed), False, ClusterAlreadyExistsInAtlas, ClusterAlreadyExistsInAtlasMsg), Done, effects)
    else if obs.childWriteError.Some? then
      Step(s, Fail(obs.childWriteError.value), effects)
    else
      var written := Written(inst, data, project, effects);
      match obs.childAfter
      case NotFound =>
        var result := InProgress(InstanceClusterNotFound, "AtlasDeployment not found");
        Step(SetSync(s, False, result.Reason(), result.Message()), Done, written)
      case FetchError(e) => Step(s, Fail(e), written)
      case Found(conds) =>
        var u := DeploymentInfo(s, api, data.projectName, spec.name, conds);
        var nudge := if u.changedInAtlas && (!u.result.IsOk() || policy.nudgeWhenOk)
                     then [NudgeChild(OwnedAtlasDeployment(inst))] else [];
        Step(u.status, if u.result.IsOk() then Done else Fail(u.result.Message()), written + nudge)
  }

  /** One pass of `Reconcile` for an instance that exists. */
  function Pass(inst: InstanceMeta, spec: InstanceSpec, s: InstanceStatus, obs: Observations,
                api: Inventory.AtlasApi, policy: Policy): (r: Step)
    ensures r.directive == Requeue <==> ReconcilePrelude(inst, spec, obs).ProjectPending?
  {
    PassFrom(inst, spec, s, ReconcilePrelude(inst, spec, obs), obs, api, policy)
  }

  /** The rest of the pass, once the prelude has settled the inventory, the data and the project. */
  function PassFrom(inst: InstanceMeta, spec: InstanceSpec, s: InstanceStatus, pre: Prelude, obs: Observations,
                    api: Inventory.AtlasApi, policy: Policy): (r: Step)
    ensures r.directive == Requeue <==> pre.ProjectPending?
    ensures pre.InventoryMissing? || pre.Broken? ==> r.effects == []
    ensures !pre.InventoryMissing? && !pre.Broken? ==> pre.effects <= r.effects
  {
    match pre
    case InventoryMissing =>
      var result := InProgress(InstanceInventoryNotFound, "inventory not found");
      Step(SetSync(s, False, result.Reason(), result.Message()), Done, [])
    case Broken(e) => Step(s, Fail(e), [])
    case ProjectPending(effects) => Step(s.(phase := PhasePending), Requeue, effects)
    case ProjectFailed(c, effects) => Step(SetSync(s, False, c.reason, c.message), Done, effects)
    case ProjectReady(data, inv, project, effects) =>
      DeploymentPass(inst, spec, s, data, project, effects, obs, api, policy)
  }

  // ------------------------------------------------------------------ properties of a pass

  predicate WritesChild(effects: seq<Effect>) {
    exists i :: 0 <= i < |effects| && effects[i].WriteChild?
  }

  predicate Nudges(effects: seq<Effect>) {
    exists i :: 0 <= i < |effects| && effects[i].NudgeChild?
  }

  /** Once the project is ready, a pass is the deployment pass. */
  lemma {:induction false} PassOnReadyProject(inst: InstanceMeta, spec: InstanceSpec, s: InstanceStatus, obs: Observations,
                           api: Inventory.AtlasApi, policy: Policy)
    ensures match ReconcilePrelude(inst, spec, obs)
      case ProjectReady(data, _, project, effects) =>
        Pass(inst, spec, s, obs, api, policy) == DeploymentPass(inst, spec, s, data, project, effects, obs, api, policy)
      case _ => true
  {
  }

  /** A project that is not ready yet (no condition, or still on its access list) makes the instance Pending and requeues. */
  lemma {:induction false} ProjectPendingRequeues(inst: InstanceMeta, spec: InstanceSpec, s: InstanceStatus, obs: Observations,
                               api: Inventory.AtlasApi, policy: Policy)
    requires ReconcilePrelude(inst, spec, obs).ProjectPending?
    ensures var step := Pass(inst, spec, s, obs, api, policy);
      && step.status == s.(phase := PhasePending) && step.directive == Requeue
      && !WritesChild(step.effects) && !Nudges(step.effects)
  {
    var pre := ReconcilePrelude(inst, spec, obs);
    assert Pass(inst, spec, s, obs, api, policy) == Step(s.(phase := PhasePending), Requeue, pre.effects);
    assert forall i :: 0 <= i < |pre.effects| ==> pre.effects[i].CreateProject?;
  }

  /** A failed project's reason and message are copied to the instance, and the pass stops. */
  lemma {:induction false} ProjectFailureIsCopied(inst: InstanceMeta, spec: InstanceSpec, s: InstanceStatus, obs: Observations,
                               api: Inventory.AtlasApi, policy: Policy)
    requires ReconcilePrelude(inst, spec, obs).ProjectFailed?
    ensures var step := Pass(inst, spec, s, obs, api, policy);
      var c := ReconcilePrelude(inst, spec, obs).cond;
      && Sync(step.status) == Some(Condition(ProviderSyncType, False, c.reason, c.message))
      && step.status.phase == s.phase && step.directive == Done && !WritesChild(step.effects)
  {
    var c := ReconcilePrelude(inst, spec, obs).cond;
    GetAfterSet(s.conditions, Condition(ProviderSyncType, False, c.reason, c.message));
  }

  /** The deployment pass adds at most the write of the owned child and a nudge to the effects it is given. */
  lemma {:induction false} DeploymentPassEffects(inst: InstanceMeta, spec: InstanceSpec, s: InstanceStatus, data: InstanceData,
                              project: AtlasProject, effects: seq<Effect>, obs: Observations,
                              api: Inventory.AtlasApi, policy: Policy)
    ensures var step := DeploymentPass(inst, spec, s, data, project, effects, obs, api, policy);
      var written := Written(inst, data, project, effects);
      || step.effects == effects
      || step.effects == written
      || step.effects == written + [NudgeChild(OwnedAtlasDeployment(inst))]
  {
  }

  /**
   * The child is written only against a ready project, and only as the
   * deployment owned by the instance with the spec its data asks for.
   */
  lemma {:induction false} ChildWrittenOnlyWhenReady(inst: InstanceMeta, spec: InstanceSpec, s: InstanceStatus, obs: Observations,
                                  api: Inventory.AtlasApi, policy: Policy)
    ensures var step := Pass(inst, spec, s, obs, api, policy);
      WritesChild(step.effects) ==>
        var pre := ReconcilePrelude(inst, spec, obs);
        && pre.ProjectReady?
        && pre.project.checkedCondition.Some?
        && pre.project.checkedCondition.value.status != False
        && pre.project.checkedCondition.value.condType != IPAccessListReadyType
        && WriteChild(OwnedAtlasDeployment(inst), AtlasDeploymentSpec(pre.project.meta, pre.data)) in step.effects
        && ControlledBy(OwnedAtlasDeployment(inst), inst)
  {
    OwnedChildIsControlled(inst, inst);
    var pre := ReconcilePrelude(inst, spec, obs);
    var step := Pass(inst, spec, s, obs, api, policy);
    if pre.ProjectReady? {
      PassOnReadyProject(inst, spec, s, obs, api, policy);
      DeploymentPassEffects(inst, spec, s, pre.data, pre.project, pre.effects, obs, api, policy);
      var written := Written(inst, pre.data, pre.project, pre.effects);
      if step.effects == pre.effects {
        assert !WritesChild(step.effects);
      } else {
        assert step.effects[|pre.effects|] == written[|pre.effects|];
      }
    }
  }

  /**
   * The guard against double provisioning: with no child, a phase that says
   * "never provisioned" and the cluster already in Atlas, the instance fails
   * with ClusterAlreadyExistsInAtlas and no child is written.
   */
  lemma {:induction false} DeploymentConflictGuard(inst: InstanceMeta, spec: InstanceSpec, s: InstanceStatus, data: InstanceData,
                                project: AtlasProject, effects: seq<Effect>, obs: Observations,
                                api: Inventory.AtlasApi, policy: Policy)
    requires OnlyCreates(effects)
    requires obs.connectionError.None? && obs.clientError.None? && obs.childBefore.NotFound?
    requires GuardPhase(s, policy) && Inventory.ClusterKnown(api, project.spec.name, spec.name)
    ensures var step := DeploymentPass(inst, spec, s, data, project, effects, obs, api, policy);
      && step.status.phase == PhaseFailed && step.directive == Done
      && Sync(step.status) == Some(Condition(ProviderSyncType, False, ClusterAlreadyExistsInAtlas, ClusterAlreadyExistsInAtlasMsg))
      && step.effects == effects && !WritesChild(step.effects)
  {
    GetAfterSet(s.(phase := PhaseFailed).conditions,
                Condition(ProviderSyncType, False, ClusterAlreadyExistsInAtlas, ClusterAlreadyExistsInAtlasMsg));
  }

  lemma {:induction false} ConflictGuard(inst: InstanceMeta, spec: InstanceSpec, s: InstanceStatus, obs: Observations,
                      api: Inventory.AtlasApi, policy: Policy)
    requires ReconcilePrelude(inst, spec, obs).ProjectReady?
    requires obs.connectionError.None? && obs.clientError.None? && obs.childBefore.NotFound?
    requires GuardPhase(s, policy)
    requires Inventory.ClusterKnown(api, ReconcilePrelude(inst, spec, obs).project.spec.name, spec.name)
    ensures var step := Pass(inst, spec, s, obs, api, policy);
      && step.status.phase == PhaseFailed && step.directive == Done
      && Sync(step.status) == Some(Condition(ProviderSyncType, False, ClusterAlreadyExistsInAtlas, ClusterAlreadyExistsInAtlasMsg))
      && !WritesChild(step.effects)
  {
    var pre := ReconcilePrelude(inst, spec, obs);
    PassOnReadyProject(inst, spec, s, obs, api, policy);
    DeploymentConflictGuard(inst, spec, s, pre.data, pre.project, pre.effects, obs, api, policy);
  }

  lemma {:induction false} DeploymentNudgeOnlyOnFailedLookup(inst: InstanceMeta, spec: InstanceSpec, s: InstanceStatus, data: InstanceData,
                                          project: AtlasProject, effects: seq<Effect>, obs: Observations,
                                          api: Inventory.AtlasApi)
    requires OnlyCreates(effects)
    ensures var step := DeploymentPass(inst, spec, s, data, project, effects, obs, api, AsWritten);
      Nudges(step.effects) ==>
        && step.directive.Fail?
        && Sync(step.status) == Some(Condition(ProviderSyncType, False, InstancePhaseChangedInAtlas, InstancePhaseChangedInAtlasMsg))
  {
    var step := DeploymentPass(inst, spec, s, data, project, effects, obs, api, AsWritten);
    var written := Written(inst, data, project, effects);
    WrittenNudges(inst, data, project, effects);
    if ReadsBack(spec, s, project, obs, api, AsWritten) {
      DeploymentPassAfterWrite(inst, spec, s, data, project, effects, obs, api, AsWritten);
      var u := DeploymentInfo(s, api, data.projectName, spec.name, obs.childAfter.value);
      var lookup := Inventory.GetClusterInfo(api, data.projectName, spec.name);
      WalkOutcome(AfterLookup(s, lookup), obs.childAfter.value);
      if !(u.changedInAtlas && !u.result.IsOk()) {
        assert step.effects == written + [];
        assert written + [] == written;
      }
    } else {
      DeploymentPassShort(inst, spec, s, data, project, effects, obs, api, AsWritten);
      assert forall i :: 0 <= i < |effects| ==> !effects[i].NudgeChild?;
    }
  }

  /** As written, the child is nudged only when the remote lookup failed and the phase changed in Atlas. */
  lemma {:induction false} NudgeOnlyOnFailedLookup(inst: InstanceMeta, spec: InstanceSpec, s: InstanceStatus, obs: Observations,
                                api: Inventory.AtlasApi)
    ensures var step := Pass(inst, spec, s, obs, api, AsWritten);
      Nudges(step.effects) ==>
        && step.directive.Fail?
        && Sync(step.status) == Some(Condition(ProviderSyncType, False, InstancePhaseChangedInAtlas, InstancePhaseChangedInAtlasMsg))
  {
    var pre := ReconcilePrelude(inst, spec, obs);
    if pre.ProjectReady? {
      PassOnReadyProject(inst, spec, s, obs, api, AsWritten);
      DeploymentNudgeOnlyOnFailedLookup(inst, spec, s, pre.data, pre.project, pre.effects, obs, api);
    }
  }

  // ------------------------------------------------------------------ the two guarded branches

  /**
   * As written, the conflict guard fires once: it marks the instance Failed,
   * and Failed is not one of the phases it checks, so the next pass on the
   * same observations creates the child for the cluster that already exists.
   */
  lemma {:induction false} DeploymentConflictGuardIsOneShot(inst: InstanceMeta, spec: InstanceSpec, s: InstanceStatus, data: InstanceData,
                                         project: AtlasProject, effects: seq<Effect>, obs: Observations,
                                         api: Inventory.AtlasApi)
    requires OnlyCreates(effects)
    requires obs.connectionError.None? && obs.clientError.None? && obs.childBefore.NotFound?
    requires obs.childWriteError.None?
    requires GuardPhase(s, AsWritten) && Inventory.ClusterKnown(api, project.spec.name, spec.name)
    ensures var first := DeploymentPass(inst, spec, s, data, project, effects, obs, api, AsWritten);
      && !WritesChild(first.effects)
      && WritesChild(DeploymentPass(inst, spec, first.status, data, project, effects, obs, api, AsWritten).effects)
  {
    var first := DeploymentPass(inst, spec, s, data, project, effects, obs, api, AsWritten);
    assert first.effects == effects;
    assert first.status.phase == PhaseFailed;
    assert PhaseFailed[0] != PhasePending[0] && PhaseFailed[0] != PhaseUnknown[0];
    assert !GuardPhase(first.status, AsWritten);
    DeploymentPassEffects(inst, spec, first.status, data, project, effects, obs, api, AsWritten);
    var written := Written(inst, data, project, effects);
    var second := DeploymentPass(inst, spec, first.status, data, project, effects, obs, api, AsWritten);
    assert second.effects != effects;
    assert second.effects[|effects|] == written[|effects|];
  }

  lemma {:induction false} ConflictGuardIsOneShot(inst: InstanceMeta, spec: InstanceSpec, s: InstanceStatus, obs: Observations,
                               api: Inventory.AtlasApi)
    requires ReconcilePrelude(inst, spec, obs).ProjectReady?
    requires obs.connectionError.None? && obs.clientError.None? && obs.childBefore.NotFound?
    requires obs.childWriteError.None?
    requires GuardPhase(s, AsWritten)
    requires Inventory.ClusterKnown(api, ReconcilePrelude(inst, spec, obs).project.spec.name, spec.name)
    ensures var first := Pass(inst, spec, s, obs, api, AsWritten);
      && !WritesChild(first.effects)
      && WritesChild(Pass(inst, spec, first.status, obs, api, AsWritten).effects)
  {
    var pre := ReconcilePrelude(inst, spec, obs);
    PassOnReadyProject(inst, spec, s, obs, api, AsWritten);
    var first := Pass(inst, spec, s, obs, api, AsWritten);
    PassOnReadyProject(inst, spec, first.status, obs, api, AsWritten);
    DeploymentConflictGuardIsOneShot(inst, spec, s, pre.data, pre.project, pre.effects, obs, api);
  }

  /**
   * Keeping the guard closed once it has fired makes the failed status a
   * fixed point: every further pass on the same observations returns the
   * same step, and none writes the child.
   */
  lemma {:induction false} DeploymentConflictGuardHolds(inst: InstanceMeta, spec: InstanceSpec, s: InstanceStatus, data: InstanceData,
                                     project: AtlasProject, effects: seq<Effect>, obs: Observations,
                                     api: Inventory.AtlasApi)
    requires OnlyCreates(effects)
    requires obs.connectionError.None? && obs.clientError.None? && obs.childBefore.NotFound?
    requires GuardPhase(s, Corrected) && Inventory.ClusterKnown(api, project.spec.name, spec.name)
    ensures var first := DeploymentPass(inst, spec, s, data, project, effects, obs, api, Corrected);
      && !WritesChild(first.effects)
      && DeploymentPass(inst, spec, first.status, data, project, effects, obs, api, Corrected) == first
  {
    var c := Condition(ProviderSyncType, False, ClusterAlreadyExistsInAtlas, ClusterAlreadyExistsInAtlasMsg);
    GetAfterSet(s.(phase := PhaseFailed).conditions, c);
    SetOverrides(s.(phase := PhaseFailed).conditions, c, c);
  }

  lemma {:induction false} ConflictGuardHolds(inst: InstanceMeta, spec: InstanceSpec, s: InstanceStatus, obs: Observations,
                           api: Inventory.AtlasApi)
    requires ReconcilePrelude(inst, spec, obs).ProjectReady?
    requires obs.connectionError.None? && obs.clientError.None? && obs.childBefore.NotFound?
    requires GuardPhase(s, Corrected)
    requires Inventory.ClusterKnown(api, ReconcilePrelude(inst, spec, obs).project.spec.name, spec.name)
    ensures var first := Pass(inst, spec, s, obs, api, Corrected);
      && !WritesChild(first.effects)
      && Pass(inst, spec, first.status, obs, api, Corrected) == first
  {
    var pre := ReconcilePrelude(inst, spec, obs);
    PassOnReadyProject(inst, spec, s, obs, api, Corrected);
    var first := Pass(inst, spec, s, obs, api, Corrected);
    PassOnReadyProject(inst, spec, first.status, obs, api, Corrected);
    DeploymentConflictGuardHolds(inst, spec, s, pre.data, pre.project, pre.effects, obs, api);
  }

  /**
   * The deployment pass on a child whose only DeploymentReady condition is
   * True while Atlas reports a phase other than Ready: the instance reports
   * a phase changed in Atlas and the pass is Done; the child is nudged
   * exactly when the policy nudges on a successful lookup.
   */
  /** The deployment pass once the child is written and read back. */
  /** The deployment pass gets past every guard and reads the written child back. */
  predicate ReadsBack(spec: InstanceSpec, s: InstanceStatus, project: AtlasProject, obs: Observations,
                      api: Inventory.AtlasApi, policy: Policy)
  {
    && obs.connectionError.None? && obs.clientError.None? && !obs.childBefore.FetchError?
    && !(obs.childBefore.NotFound? && GuardPhase(s, policy) && Inventory.ClusterKnown(api, project.spec.name, spec.name))
    && obs.childWriteError.None? && obs.childAfter.Found?
  }

  /** A pass that does not read the child back ends with the effects so far, or with the write. */
  lemma {:induction false} DeploymentPassShort(inst: InstanceMeta, spec: InstanceSpec, s: InstanceStatus, data: InstanceData,
                            project: AtlasProject, effects: seq<Effect>, obs: Observations,
                            api: Inventory.AtlasApi, policy: Policy)
    requires !ReadsBack(spec, s, project, obs, api, policy)
    ensures var step := DeploymentPass(inst, spec, s, data, project, effects, obs, api, policy);
      step.effects == effects || step.effects == Written(inst, data, project, effects)
  {
  }

  lemma {:induction false} DeploymentPassAfterWrite(inst: InstanceMeta, spec: InstanceSpec, s: InstanceStatus, data: InstanceData,
                                 project: AtlasProject, effects: seq<Effect>, obs: Observations,
                                 api: Inventory.AtlasApi, policy: Policy)
    requires ReadsBack(spec, s, project, obs, api, policy)
    ensures var u := DeploymentInfo(s, api, data.projectName, spec.name, obs.childAfter.value);
      var step := DeploymentPass(inst, spec, s, data, project, effects, obs, api, policy);
      && step.status == u.status
      && step.directive == (if u.result.IsOk() then Done else Fail(u.result.Message()))
      && step.effects == Written(inst, data, project, effects)
           + (if u.changedInAtlas && (!u.result.IsOk() || policy.nudgeWhenOk) then [NudgeChild(OwnedAtlasDeployment(inst))] else [])
  {
  }

  lemma {:induction false} DeploymentPhaseChange(inst: InstanceMeta, spec: InstanceSpec, s: InstanceStatus, data: InstanceData,
                              project: AtlasProject, effects: seq<Effect>, obs: Observations,
                              api: Inventory.AtlasApi, policy: Policy, c: Condition)
    requires OnlyCreates(effects)
    requires obs.connectionError.None? && obs.clientError.None? && obs.childBefore.Found?
    requires obs.childWriteError.None? && obs.childAfter == Found([c])
    requires c.condType == DeploymentReadyType && c.status == True
    requires var lookup := Inventory.GetClusterInfo(api, data.projectName, spec.name);
      lookup.1.IsOk() && AfterLookup(s, lookup).phase != PhaseReady
    ensures var step := DeploymentPass(inst, spec, s, data, project, effects, obs, api, policy);
      && step.directive == Done
      && step.effects == Written(inst, data, project, effects) + (if policy.nudgeWhenOk then [NudgeChild(OwnedAtlasDeployment(inst))] else [])
      && Sync(step.status) == Some(Condition(ProviderSyncType, False, InstancePhaseChangedInAtlas, InstancePhaseChangedInAtlasMsg))
  {
    PhaseChangedInfo(s, api, data.projectName, spec.name, c);
    DeploymentPassAfterWrite(inst, spec, s, data, project, effects, obs, api, policy);
  }

  /** The effects of a write that created at most a project hold no nudge; appending one adds it. */
  lemma {:induction false} WrittenNudges(inst: InstanceMeta, data: InstanceData, project: AtlasProject, effects: seq<Effect>)
    requires OnlyCreates(effects)
    ensures !Nudges(Written(inst, data, project, effects))
    ensures var nudge := NudgeChild(OwnedAtlasDeployment(inst));
      nudge in Written(inst, data, project, effects) + [nudge]
  {
    var written := Written(inst, data, project, effects);
    assert forall i :: 0 <= i < |written| ==> written[i] == (if i < |effects| then effects[i] else written[|effects|]);
    var nudge := NudgeChild(OwnedAtlasDeployment(inst));
    assert (written + [nudge])[|written|] == nudge;
  }

  /** The status update for that child: the changed-in-Atlas report, the flag, and the lookup's Ok. */
  lemma {:induction false} PhaseChangedInfo(s: InstanceStatus, api: Inventory.AtlasApi, projectName: string, clusterName: string, c: Condition)
    requires c.condType == DeploymentReadyType && c.status == True
    requires var lookup := Inventory.GetClusterInfo(api, projectName, clusterName);
      lookup.1.IsOk() && AfterLookup(s, lookup).phase != PhaseReady
    ensures var u := DeploymentInfo(s, api, projectName, clusterName, [c]);
      && u.changedInAtlas && u.result.IsOk()
      && Sync(u.status) == Some(Condition(ProviderSyncType, False, InstancePhaseChangedInAtlas, InstancePhaseChangedInAtlasMsg))
  {
    var lookup := Inventory.GetClusterInfo(api, projectName, clusterName);
    var t := AfterLookup(s, lookup);
    DeploymentReadyTable(t, [], c, []);
    assert [] + [c] + [] == [c];
    GetAfterSet(t.conditions, Condition(ProviderSyncType, False, InstancePhaseChangedInAtlas, InstancePhaseChangedInAtlasMsg));
  }

  /**
   * As written, a phase changed in Atlas is not passed on when the lookup
   * succeeds: a child reporting DeploymentReady True while Atlas reports a
   * phase other than Ready ends the pass with Done and no nudge of the child.
   */
  lemma {:induction false} PhaseChangeWithoutNudge(inst: InstanceMeta, spec: InstanceSpec, s: InstanceStatus, obs: Observations,
                                api: Inventory.AtlasApi, c: Condition)
    requires ReconcilePrelude(inst, spec, obs).ProjectReady?
    requires obs.connectionError.None? && obs.clientError.None? && obs.childBefore.Found?
    requires obs.childWriteError.None? && obs.childAfter == Found([c])
    requires c.condType == DeploymentReadyType && c.status == True
    requires var lookup := Inventory.GetClusterInfo(api, ReconcilePrelude(inst, spec, obs).data.projectName, spec.name);
      lookup.1.IsOk() && AfterLookup(s, lookup).phase != PhaseReady
    ensures var step := Pass(inst, spec, s, obs, api, AsWritten);
      && step.directive == Done && !Nudges(step.effects)
      && Sync(step.status) == Some(Condition(ProviderSyncType, False, InstancePhaseChangedInAtlas, InstancePhaseChangedInAtlasMsg))
  {
    var pre := ReconcilePrelude(inst, spec, obs);
    PassOnReadyProject(inst, spec, s, obs, api, AsWritten);
    DeploymentPhaseChange(inst, spec, s, pre.data, pre.project, pre.effects, obs, api, AsWritten, c);
    WrittenNudges(inst, pre.data, pre.project, pre.effects);
    var written := Written(inst, pre.data, pre.project, pre.effects);
    assert !AsWritten.nudgeWhenOk;
    assert written + [] == written;
  }

  /** Nudging on every phase change in Atlas passes the same change on to the child. */
  lemma {:induction false} PhaseChangeNudges(inst: InstanceMeta, spec: InstanceSpec, s: InstanceStatus, obs: Observations,
                          api: Inventory.AtlasApi, c: Condition)
    requires ReconcilePrelude(inst, spec, obs).ProjectReady?
    requires obs.connectionError.None? && obs.clientError.None? && obs.childBefore.Found?
    requires obs.childWriteError.None? && obs.childAfter == Found([c])
    requires c.condType == DeploymentReadyType && c.status == True
    requires var lookup := Inventory.GetClusterInfo(api, ReconcilePrelude(inst, spec, obs).data.projectName, spec.name);
      lookup.1.IsOk() && AfterLookup(s, lookup).phase != PhaseReady
    ensures var step := Pass(inst, spec, s, obs, api, Corrected);
      && step.directive == Done
      && NudgeChild(OwnedAtlasDeployment(inst)) in step.effects
      && Sync(step.status) == Some(Condition(ProviderSyncType, False, InstancePhaseChangedInAtlas, InstancePhaseChangedInAtlasMsg))
  {
    var pre := ReconcilePrelude(inst, spec, obs);
    PassOnReadyProject(inst, spec, s, obs, api, Corrected);
    DeploymentPhaseChange(inst, spec, s, pre.data, pre.project, pre.effects, obs, api, Corrected, c);
    WrittenNudges(inst, pre.data, pre.project, pre.effects);
  }

  // ------------------------------------------------------------------ the Delete handler

  datatype DeleteOutcome = DeleteOutcome(effects: seq<Effect>, error: Option<string>)

  /**
   * The Delete event handler: a malformed event is ignored; otherwise the
   * first project the label query finds is deleted from the store (the
   * project itself stays in Atlas), and the list or delete error is returned.
   */
  function Delete(isInstance: bool, inst: InstanceMeta, projects: ProjectList, deleteError: Option<string>): (r: DeleteOutcome)
    ensures !isInstance ==> r == DeleteOutcome([], None)
    ensures isInstance && projects.ListError? ==> r == DeleteOutcome([], Some(projects.error))
    ensures r.effects != [] ==>
      && projects.Listed? && |r.effects| == 1 && r.effects[0].DeleteProject?
      && r.effects[0].project in projects.items && SelectedBy(r.effects[0].project.meta.labels, inst)
      && r.effects == [DeleteProject(FindProject(projects.items, inst).value)]
      && r.error == deleteError
    ensures isInstance && projects.Listed? ==>
      (r.effects == [] <==> forall i :: 0 <= i < |projects.items| ==> !SelectedBy(projects.items[i].meta.labels, inst))
    ensures r.effects == [] ==> r.error.Some? ==> isInstance && projects.ListError?
  {
    if !isInstance then DeleteOutcome([], None)
    else match projects
      case ListError(e) => DeleteOutcome([], Some(e))
      case Listed(items) =>
        match FindProject(items, inst)
        case None => DeleteOutcome([], None)
        case Some(p) => DeleteOutcome([DeleteProject(p)], deleteError)
  }

  /**
   * The project a pass created for an instance is the one its deletion
   * removes, once the store lists it after projects the query does not select.
   */
  lemma {:induction false} CreatedProjectIsDeleted(inst: InstanceMeta, data: InstanceData, inv: AtlasInventory, obs: Observations,
                                others: seq<AtlasProject>, name: string, deleteError: Option<string>)
    requires ReconcileAtlasProject(inst, data, inv, obs).Resolved?
    requires ReconcileAtlasProject(inst, data, inv, obs).effects != []
    requires FindProject(others, inst).None?
    ensures var created := ReconcileAtlasProject(inst, data, inv, obs).effects[0].project;
      Delete(true, inst, Listed(others + [Stored(created, name)]), deleteError)
        == DeleteOutcome([DeleteProject(Stored(created, name))], deleteError)
  {
    CreatedProjectIsFound(others, inst, data, inv, name);
  }

  // ------------------------------------------------------------------ the instance object

  /**
   * A MongoDBAtlasInstance as the reconciler holds it: the metadata and spec
   * it reads, and the status fields it writes in place.
   */
  class MongoDBAtlasInstance {
    const meta: InstanceMeta
    const spec: InstanceSpec
    var phase: string
    var instanceID: string
    var instanceInfo: Option<map<string, string>>
    var conditions: seq<Condition>

    function Status(): InstanceStatus
      reads this
    {
      InstanceStatus(phase, instanceID, instanceInfo, conditions)
    }

    constructor (meta: InstanceMeta, spec: InstanceSpec, status: InstanceStatus)
      ensures this.meta == meta && this.spec == spec && Status() == status
    {
      this.meta := meta;
      this.spec := spec;
      phase := status.phase;
      instanceID := status.instanceID;
      instanceInfo := status.instanceInfo;
      conditions := status.conditions;
    }

    /** `SetInstanceCondition` for the provider-sync condition. */
    method SetSyncCondition(status: ConditionStatus, reason: string, message: string)
      modifies this`conditions
      ensures Status() == SetSync(old(Status()), status, reason, message)
    {
      conditions := SetCondition(conditions, Condition(ProviderSyncType, status, reason, message));
    }

    /**
     * `setInstanceStatusWithDeploymentInfo`: looks the cluster up, stores
     * what Atlas reports, then walks the child's conditions, returning at
     * the first DeploymentReady condition that is True.
     */
    method SetInstanceStatusWithDeploymentInfo(api: Inventory.AtlasApi, project: string, conds: seq<Condition>)
      returns (changedInAtlas: bool, result: Result)
      modifies this`phase, this`instanceID, this`instanceInfo, this`conditions
      ensures StatusUpdate(Status(), changedInAtlas, result) == DeploymentInfo(old(Status()), api, project, spec.name, conds)
    {
      var lookup := Inventory.GetClusterInfo(api, project, spec.name);
      result := lookup.1;
      if result.IsOk() {
        var info := lookup.0.value.serviceInfo;
        phase := if Inventory.ProvisionPhaseKey in info then info[Inventory.ProvisionPhaseKey] else "";
        instanceID := lookup.0.value.serviceID;
        instanceInfo := Some(info - {Inventory.ProvisionPhaseKey});
      } else {
        phase := PhasePending;
        instanceID := "";
        instanceInfo := None;
      }
      ghost var walk := WalkConditions(AfterLookup(old(Status()), lookup), conds, false);
      var statusFound := false;
      var i := 0;
      while i < |conds|
        invariant 0 <= i <= |conds|
        invariant WalkConditions(Status(), conds[i..], statusFound) == walk
      {
        var c := conds[i];
        assert conds[i..][0] == c && conds[i..][1..] == conds[i + 1..];
        if c.condType == DeploymentReadyType {
          statusFound := true;
          if c.status == True {
            if phase == PhaseReady {
              SetSyncCondition(c.status, ReadyReason, c.message);
              return false, result;
            }
            SetSyncCondition(False, InstancePhaseChangedInAtlas, InstancePhaseChangedInAtlasMsg);
            return true, result;
          } else {
            if Contains(c.message, FreeClusterFailed) {
              phase := PhaseFailed;
            }
            SetSyncCondition(c.status, c.reason, c.message);
          }
        }
        i := i + 1;
      }
      if !statusFound {
        SetSyncCondition(False, PhasePending, WaitingForCreationMsg);
      }
      changedInAtlas := false;
    }

    /** `reconcileAtlasDeployment`, against a project that is ready. */
    method ReconcileAtlasDeployment(data: InstanceData, project: AtlasProject, effects: seq<Effect>, obs: Observations,
                                    api: Inventory.AtlasApi, policy: Policy)
      returns (directive: Directive, effects': seq<Effect>)
      modifies this`phase, this`instanceID, this`instanceInfo, this`conditions
      ensures Step(Status(), directive, effects') == DeploymentPass(meta, spec, old(Status()), data, project, effects, obs, api, policy)
    {
      if obs.connectionError.Some? || obs.clientError.Some? {
        var e := if obs.connectionError.Some? then obs.connectionError.value else obs.clientError.value;
        var result := Terminate(InventoryInputError, e);
        SetSyncCondition(False, result.Reason(), result.Message());
        return FromResult(result), effects;
      }
      if obs.childBefore.FetchError? {
        return Fail(obs.childBefore.error), effects;
      }
      if obs.childBefore.NotFound? && GuardPhase(Status(), policy)
         && Inventory.ClusterKnown(api, project.spec.name, spec.name) {
        phase := PhaseFailed;
        SetSyncCondition(False, ClusterAlreadyExistsInAtlas, ClusterAlreadyExistsInAtlasMsg);
        return Done, effects;
      }
      if obs.childWriteError.Some? {
        return Fail(obs.childWriteError.value), effects;
      }
      effects' := Written(meta, data, project, effects);
      match obs.childAfter
      case NotFound =>
        var result := InProgress(InstanceClusterNotFound, "AtlasDeployment not found");
        SetSyncCondition(False, result.Reason(), result.Message());
        directive := Done;
      case FetchError(e) =>
        directive := Fail(e);
      case Found(conds) =>
        var changedInAtlas, result := SetInstanceStatusWithDeploymentInfo(api, data.projectName, conds);
        if changedInAtlas && (!result.IsOk() || policy.nudgeWhenOk) {
          effects' := effects' + [NudgeChild(OwnedAtlasDeployment(meta))];
        }
        directive := if result.IsOk() then Done else Fail(result.Message());
    }

    /** `Reconcile` for an instance that exists: the pass, with the status written back to this object. */
    method Reconcile(obs: Observations, api: Inventory.AtlasApi, policy: Policy)
      returns (directive: Directive, effects: seq<Effect>)
      modifies this`phase, this`instanceID, this`instanceInfo, this`conditions
      ensures Step(Status(), directive, effects) == Pass(meta, spec, old(Status()), obs, api, policy)
    {
      match ReconcilePrelude(meta, spec, obs)
      case InventoryMissing =>
        var result := InProgress(InstanceInventoryNotFound, "inventory not found");
        SetSyncCondition(False, result.Reason(), result.Message());
        return Done, [];
      case Broken(e) =>
        return Fail(e), [];
      case ProjectPending(created) =>
        phase := PhasePending;
        return Requeue, created;
      case ProjectFailed(c, created) =>
        SetSyncCondition(False, c.reason, c.message);
        return Done, created;
      case ProjectReady(data, _, project, created) =>
        directive, effects := ReconcileAtlasDeployment(data, project, created, obs, api, policy);
    }
  }

  /**
   * The request handler: an instance deleted since the request was queued
   * ends the pass quietly, a failed read is returned, and an instance that
   * exists is reconciled in place.
   */
  method HandleRequest(fetched: Fetch<MongoDBAtlasInstance>, obs: Observations, api: Inventory.AtlasApi, policy: Policy)
    returns (directive: Directive, effects: seq<Effect>)
    modifies if fetched.Found? then {fetched.value} else {}
    ensures fetched.NotFound? ==> directive == Done && effects == []
    ensures fetched.FetchError? ==> directive == Fail(fetched.error) && effects == []
    ensures fetched.Found? ==>
      var inst := fetched.value;
      Step(inst.Status(), directive, effects) == Pass(inst.meta, inst.spec, old(inst.Status()), obs, api, policy)
  {
    match fetched
    case NotFound => return Done, [];
    case FetchError(e) => return Fail(e), [];
    case Found(inst) => directive, effects := inst.Reconcile(obs, api, policy);
  }
}
