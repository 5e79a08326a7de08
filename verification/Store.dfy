/** The cluster store and the reconcile steps, each a function of the objects it may change. */
module Store {
  import opened Prelude
  import opened Api
  import opened Sorting
  import opened References
  import opened ConfigPlan
  import opened PodTemplate
  import opened Egress
  import opened Status
  import opened Terminal

  // ---- objects ------------------------------------------------------------------------------

  datatype ClaimPhase = ClaimPending | ClaimBound | ClaimLost
  datatype ClaimSpec = ClaimSpec(accessModes: seq<string>, storageClassName: Option<string>, request: int)
  datatype Claim = Claim(controller: Option<Owner>, labels: map<string, string>, spec: ClaimSpec, phase: ClaimPhase)

  datatype StatefulSet = StatefulSet(
    controller: Option<Owner>, labels: map<string, string>, spec: StatefulSetSpec,
    generation: int, observedGeneration: int, readyReplicas: int)

  /** nodePort 0: not allocated. */
  datatype ServicePort = ServicePort(port: int, targetPort: int, nodePort: int)
  datatype ServiceSpec = ServiceSpec(serviceType: string, selector: map<string, string>, ports: seq<ServicePort>)
  datatype Service = Service(
    controller: Option<Owner>, labels: map<string, string>, annotations: map<string, string>, spec: ServiceSpec)

  datatype Policy = Policy(controller: Option<Owner>, labels: map<string, string>, spec: PolicySpec)

  datatype BudgetSpec = BudgetSpec(selector: map<string, string>, maxUnavailable: int)
  datatype Budget = Budget(controller: Option<Owner>, labels: map<string, string>, spec: BudgetSpec)

  datatype Agent = Agent(generation: int, spec: AgentSpec, status: AgentStatus)

  datatype Cluster = Cluster(
    agents: map<string, Agent>, configMaps: ConfigMaps, secrets: Secrets,
    claims: map<string, Claim>, statefulSets: map<string, StatefulSet>, services: map<string, Service>,
    policies: map<string, Policy>, budgets: map<string, Budget>)

  function InputsOf(c: Cluster): Inputs { Inputs(c.configMaps, c.secrets) }

  function BoundClaims(c: Cluster): set<string> { set n | n in c.claims && c.claims[n].phase == ClaimBound }

  // ---- writes -----------------------------------------------------------------------------------

  datatype Verb = Create | Update | Delete
  datatype Write = Write(verb: Verb, resource: Resource, name: string)

  /** The objects of one kind after a step, the API writes it made and how it failed, if it did. */
  datatype Changed<T> = Changed(store: map<string, T>, writes: seq<Write>, failure: Option<Failure>)

  function Unchanged<T>(store: map<string, T>): Changed<T> { Changed(store, [], None) }

  /** CreateOrUpdate with SetControllerReference last in the mutation: an object controlled by somebody
      else is refused, anything else is adopted, and an equal object is not written. */
  function CreateOrUpdate<T(==)>(store: map<string, T>, resource: Resource, name: string, controller: Option<Owner>,
        me: Owner, desired: T): Changed<T> {
    if controller.Some? && controller.value != me then
      Changed(store, [], Some(AlreadyOwned(resource, name, controller.value)))
    else if name !in store then Changed(store[name := desired], [Write(Create, resource, name)], None)
    else if store[name] == desired then Unchanged(store)
    else Changed(store[name := desired], [Write(Update, resource, name)], None)
  }

  function Deleted<T>(store: map<string, T>, resource: Resource, name: string): Changed<T> {
    Changed(store - {name}, [Write(Delete, resource, name)], None)
  }

  // ---- generated ConfigMaps ---------------------------------------------------------------------------

  function GeneratedConfigMap(agent: string, file: ConfigFile, existing: Option<ConfigMap>): ConfigMap {
    var base := if existing.Some? then existing.value else ConfigMap(None, map[], map[], map[]);
    ConfigMap(Some(AgentOwner(agent)), base.labels + ResourceLabels(agent), map[file.sourceKey := file.content],
      base.binaryData)
  }

  function InlineConfigMapStep(configMaps: ConfigMaps, agent: string, file: ConfigFile): Changed<ConfigMap> {
    var existing := Lookup(configMaps, file.configMapName);
    CreateOrUpdate(configMaps, ConfigMapResource, file.configMapName,
      if existing.Some? then existing.value.controller else None, AgentOwner(agent),
        GeneratedConfigMap(agent, file, existing))
  }

  /** Two steps in a row; the second does not run after a failure. */
  function Then<T>(first: Changed<T>, second: Changed<T>): Changed<T> {
    if first.failure.Some? then first else Changed(second.store, first.writes + second.writes, second.failure)
  }

  function InlineSteps(configMaps: ConfigMaps, agent: string, files: seq<ConfigFile>): Changed<ConfigMap>
    decreases |files|
  {
    if files == [] then Unchanged(configMaps)
    else if !files[0].generated then InlineSteps(configMaps, agent, files[1..])
    else
      var first := InlineConfigMapStep(configMaps, agent, files[0]);
      Then(first, InlineSteps(first.store, agent, files[1..]))
  }

  function DesiredNames(files: seq<ConfigFile>): set<string> {
    set file | file in files && file.generated :: file.configMapName
  }

  predicate ReadyForCleanup(s: StatefulSet) {
    s.readyReplicas >= (if s.spec.replicas.Some? then s.spec.replicas.value else 1)
      && s.observedGeneration >= s.generation
  }

  function CleanupOne(configMaps: ConfigMaps, agent: string, keep: set<string>, name: string): Changed<ConfigMap> {
    if name in keep || name !in configMaps
      || configMaps[name].controller != Some(AgentOwner(agent)) then Unchanged(configMaps)
    else Deleted(configMaps, ConfigMapResource, name)
  }

  function Cleanup(configMaps: ConfigMaps, agent: string, keep: set<string>): Changed<ConfigMap> {
    var first := CleanupOne(configMaps, agent, keep, GeneratedConfigMapName(agent, CONFIG_ID));
    Then(first, CleanupOne(first.store, agent, keep, GeneratedConfigMapName(agent, GATEWAY_ID)))
  }

  /** Stale ConfigMaps go only once the StatefulSet as stored has finished rolling out. */
  function GeneratedStep(configMaps: ConfigMaps, statefulSet: Option<StatefulSet>, agent: string,
        files: seq<ConfigFile>): Changed<ConfigMap> {
    var inlined := InlineSteps(configMaps, agent, files);
    if statefulSet.None? || !ReadyForCleanup(statefulSet.value) then inlined
    else Then(inlined, Cleanup(inlined.store, agent, DesiredNames(files)))
  }

  // ---- the claim -----------------------------------------------------------------------------------------

  function SameModes(left: seq<string>, right: seq<string>): bool {
    |left| == |right| && Sort(StringLe, left) == Sort(StringLe, right)
  }

  function DriftedFields(spec: AgentSpec, existing: ClaimSpec, desired: ClaimSpec): seq<ImmutableField> {
    (if SameModes(existing.accessModes, desired.accessModes) then [] else [AccessModesField])
    + (if spec.persistence.storageClassName.Some?
      && existing.storageClassName != desired.storageClassName then [StorageClassField] else [])
  }

  function BuildClaim(spec: AgentSpec, request: int): ClaimSpec {
    ClaimSpec(PersistenceAccessModes(spec), spec.persistence.storageClassName, request)
  }

  function ClaimStep(lib: Library, claims: map<string, Claim>, agent: string, spec: AgentSpec): Changed<Claim> {
    var name, me := ClaimName(agent), AgentOwner(agent);
    if !PersistenceEnabled(spec) then Unchanged(claims)
    else
      match lib.parseQuantity(PersistenceSize(spec))
      case None => Changed(claims, [], Some(BadQuantity(lib.quantityError(PersistenceSize(spec)))))
      case Some(request) =>
        var desired := BuildClaim(spec, request);
        if name !in claims then
          CreateOrUpdate(claims, ClaimResource, name, None, me,
            Claim(Some(me), ResourceLabels(agent), desired, ClaimPending))
        else
          var existing := claims[name];
          var drifted := DriftedFields(spec, existing.spec, desired);
          if drifted != [] then Changed(claims, [], Some(SpecDrift(name, drifted)))
          else
            CreateOrUpdate(claims, ClaimResource, name, existing.controller, me,
              existing.(labels := existing.labels + ResourceLabels(agent), spec := existing.spec.(request := request),
                controller := Some(me)))
  }

  // ---- the workload --------------------------------------------------------------------------------------

  /** Storing a different spec bumps the generation; status fields are the cluster's. */
  function UpdatedStatefulSet(agent: string, desired: StatefulSetSpec, existing: StatefulSet): StatefulSet {
    StatefulSet(Some(AgentOwner(agent)), existing.labels + ResourceLabels(agent), desired,
      if existing.spec == desired then existing.generation else existing.generation + 1,
      existing.observedGeneration, existing.readyReplicas)
  }

  function WorkloadStep(statefulSets: map<string, StatefulSet>, agent: string,
        desired: StatefulSetSpec): Changed<StatefulSet> {
    var existing := Lookup(statefulSets, agent);
    CreateOrUpdate(statefulSets, StatefulSetResource, agent,
      if existing.Some? then existing.value.controller else None, AgentOwner(agent),
      if existing.Some? then UpdatedStatefulSet(agent, desired, existing.value)
      else StatefulSet(Some(AgentOwner(agent)), ResourceLabels(agent), desired, 1, 0, 0))
  }

  // ---- optional resources -----------------------------------------------------------------------------------

  predicate KeepsNodePort(serviceType: string) { serviceType == "NodePort" || serviceType == "LoadBalancer" }

  /** An already allocated node port is carried over. */
  function DesiredPorts(spec: AgentSpec, existing: seq<ServicePort>): seq<ServicePort> {
    var nodePort := if KeepsNodePort(ServiceType(spec)) && |existing| == 1 then existing[0].nodePort else 0;
    [ServicePort(ServicePortNumber(spec), ServiceTargetPort(spec), nodePort)]
  }

  function DesiredService(agent: string, spec: AgentSpec, existing: Option<Service>): Service {
    Service(Some(AgentOwner(agent)),
      (if existing.Some? then existing.value.labels else map[]) + ResourceLabels(agent),
      spec.service.annotations,
      ServiceSpec(ServiceType(spec), ResourceLabels(agent),
        DesiredPorts(spec, if existing.Some? then existing.value.spec.ports else [])))
  }

  /** The pattern shared by Service, NetworkPolicy and PodDisruptionBudget: delete what is controlled and
      no longer wanted, refuse what is wanted but not controlled, otherwise create or update. */
  function OptionalStep<T(==)>(store: map<string, T>, resource: Resource, agent: string, enabled: bool,
        controller: Option<Owner>, desired: T): Changed<T> {
    var me := AgentOwner(agent);
    if !enabled then
      if agent !in store || controller != Some(me) then Unchanged(store) else Deleted(store, resource, agent)
    else if agent in store && controller != Some(me) then Changed(store, [], Some(NotOwned(resource, agent)))
    else CreateOrUpdate(store, resource, agent, controller, me, desired)
  }

  function ServiceStep(services: map<string, Service>, agent: string, spec: AgentSpec): Changed<Service> {
    var existing := Lookup(services, agent);
    OptionalStep(services, ServiceResource, agent, spec.service.enabled,
      if existing.Some? then existing.value.controller else None, DesiredService(agent, spec, existing))
  }

  function PolicyStep(policies: map<string, Policy>, agent: string, spec: AgentSpec, backend: string): Changed<Policy> {
    var existing := Lookup(policies, agent);
    OptionalStep(policies, PolicyResource, agent, NetworkPolicyEnabled(spec),
      if existing.Some? then existing.value.controller else None,
      Policy(Some(AgentOwner(agent)), (if existing.Some? then existing.value.labels else map[]) + ResourceLabels(agent),
        BuildNetworkPolicy(agent, spec, backend)))
  }

  function BuildBudget(agent: string): BudgetSpec { BudgetSpec(ResourceLabels(agent), 1) }

  function BudgetStep(budgets: map<string, Budget>, agent: string, spec: AgentSpec): Changed<Budget> {
    var existing := Lookup(budgets, agent);
    OptionalStep(budgets, BudgetResource, agent, DisruptionBudgetEnabled(spec),
      if existing.Some? then existing.value.controller else None,
      Budget(Some(AgentOwner(agent)), (if existing.Some? then existing.value.labels else map[])
        + ResourceLabels(agent), BuildBudget(agent)))
  }

  // ---- the pipeline -------------------------------------------------------------------------------------------

  /** What a reconcile carries from step to step: the agent as read, its inputs and its plan. */
  datatype Job = Job(agent: string, spec: AgentSpec, inputs: ReferencedInputs, plan: Plan)

  function DesiredStatefulSet(job: Job): StatefulSetSpec {
    BuildStatefulSet(job.agent, job.spec, BuildTemplateInputs(job.spec, job.plan))
  }

  datatype Stage = GeneratedStage | ClaimStage | WorkloadStage | ServiceStage | PolicyStage | BudgetStage

  const PIPELINE: seq<Stage> := [GeneratedStage, ClaimStage, WorkloadStage, ServiceStage, PolicyStage, BudgetStage]

  datatype StageResult = StageResult(cluster: Cluster, writes: seq<Write>, failure: Option<Failure>)

  function RunStage(lib: Library, c: Cluster, job: Job, stage: Stage): StageResult {
    match stage
    case GeneratedStage =>
      var r := GeneratedStep(c.configMaps, Lookup(c.statefulSets, job.agent), job.agent, job.plan.files);
      StageResult(c.(configMaps := r.store), r.writes, r.failure)
    case ClaimStage =>
      var r := ClaimStep(lib, c.claims, job.agent, job.spec);
      StageResult(c.(claims := r.store), r.writes, r.failure)
    case WorkloadStage =>
      var r := WorkloadStep(c.statefulSets, job.agent, DesiredStatefulSet(job));
      StageResult(c.(statefulSets := r.store), r.writes, r.failure)
    case ServiceStage =>
      var r := ServiceStep(c.services, job.agent, job.spec);
      StageResult(c.(services := r.store), r.writes, r.failure)
    case PolicyStage =>
      var r := PolicyStep(c.policies, job.agent, job.spec, EffectiveBackend(lib, job.spec, job.inputs));
      StageResult(c.(policies := r.store), r.writes, r.failure)
    case BudgetStage =>
      var r := BudgetStep(c.budgets, job.agent, job.spec);
      StageResult(c.(budgets := r.store), r.writes, r.failure)
  }

  /** The steps in order, stopping at the first failure. */
  function RunStages(lib: Library, c: Cluster, job: Job, todo: seq<Stage>): StageResult
    decreases |todo|
  {
    if todo == [] then StageResult(c, [], None)
    else
      var r := RunStage(lib, c, job, todo[0]);
      if r.failure.Some? then r
      else
        var s := RunStages(lib, r.cluster, job, todo[1..]);
        StageResult(s.cluster, r.writes + s.writes, s.failure)
  }
}
