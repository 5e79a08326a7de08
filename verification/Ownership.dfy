/** What a reconcile step may touch: nothing that somebody else controls, and only its own names. */
module Ownership {
  import opened Prelude
  import opened Api
  import opened ConfigPlan
  import opened Terminal
  import opened Status
  import opened Store
  import opened Reconciliation

  // ---- one kind of object -----------------------------------------------------------------------

  /** Objects controlled by others stay as they are; whatever is new or different is mine. */
  ghost predicate Respects<T>(before: map<string, T>, after: map<string, T>, controllerOf: T -> Option<Owner>,
        me: Owner) {
    && (forall n | n in before && controllerOf(before[n]).Some? && controllerOf(before[n]) != Some(me) ::
      n in after && after[n] == before[n])
    && (forall n | n in after && Lookup(before, n) != Some(after[n]) :: controllerOf(after[n]) == Some(me))
  }

  /** Nothing that is not already mine changes, not even an object without a controller. */
  ghost predicate RespectsStrictly<T>(before: map<string, T>, after: map<string, T>, controllerOf: T -> Option<Owner>,
        me: Owner) {
    && (forall n | n in before && controllerOf(before[n]) != Some(me) :: n in after && after[n] == before[n])
    && (forall n | n in after && Lookup(before, n) != Some(after[n]) :: controllerOf(after[n]) == Some(me))
  }

  /** Only objects of these names change. */
  ghost predicate Within<T>(before: map<string, T>, after: map<string, T>, names: set<string>) {
    forall n | n !in names :: Lookup(after, n) == Lookup(before, n)
  }

  lemma RespectsTransitive<T>(a: map<string, T>, b: map<string, T>, c: map<string, T>,
        controllerOf: T -> Option<Owner>, me: Owner)
    requires Respects(a, b, controllerOf, me) && Respects(b, c, controllerOf, me)
    ensures Respects(a, c, controllerOf, me)
  {
    forall n | n in c && Lookup(a, n) != Some(c[n]) ensures controllerOf(c[n]) == Some(me) {
      if Lookup(b, n) == Some(c[n]) { assert n in b && Lookup(a, n) != Some(b[n]); }
    }
  }

  lemma CreateOrUpdateRespects<T>(store: map<string, T>, resource: Resource, name: string, controller: Option<Owner>,
        me: Owner, desired: T, controllerOf: T -> Option<Owner>)
    requires controllerOf(desired) == Some(me) && (name in store ==> controller == controllerOf(store[name]))
    ensures var after := CreateOrUpdate(store, resource, name, controller, me, desired).store;
      Respects(store, after, controllerOf, me) && Within(store, after, {name})
  {
  }

  lemma OptionalRespects<T>(store: map<string, T>, resource: Resource, agent: string, enabled: bool,
        controller: Option<Owner>, desired: T, controllerOf: T -> Option<Owner>)
    requires controllerOf(desired) == Some(AgentOwner(agent))
      && (agent in store ==> controller == controllerOf(store[agent]))
    ensures var after := OptionalStep(store, resource, agent, enabled, controller, desired).store;
      RespectsStrictly(store, after, controllerOf, AgentOwner(agent)) && Within(store, after, {agent})
  {
  }

  // ---- the controllers of the six kinds ------------------------------------------------------------

  function OfConfigMap(): ConfigMap -> Option<Owner> { (o: ConfigMap) => o.controller }
  function OfClaim(): Claim -> Option<Owner> { (o: Claim) => o.controller }
  function OfStatefulSet(): StatefulSet -> Option<Owner> { (o: StatefulSet) => o.controller }
  function OfService(): Service -> Option<Owner> { (o: Service) => o.controller }
  function OfPolicy(): Policy -> Option<Owner> { (o: Policy) => o.controller }
  function OfBudget(): Budget -> Option<Owner> { (o: Budget) => o.controller }

  ghost predicate OwnershipSafe(agent: string, c: Cluster, d: Cluster) {
    var me := AgentOwner(agent);
    && Respects(c.configMaps, d.configMaps, OfConfigMap(), me)
    && Respects(c.claims, d.claims, OfClaim(), me)
    && Respects(c.statefulSets, d.statefulSets, OfStatefulSet(), me)
    && RespectsStrictly(c.services, d.services, OfService(), me)
    && RespectsStrictly(c.policies, d.policies, OfPolicy(), me)
    && RespectsStrictly(c.budgets, d.budgets, OfBudget(), me)
  }

  ghost predicate InScope(agent: string, c: Cluster, d: Cluster) {
    && d.secrets == c.secrets
    && Within(c.configMaps, d.configMaps, GeneratedNames(agent))
    && Within(c.claims, d.claims, {ClaimName(agent)})
    && Within(c.statefulSets, d.statefulSets, {agent})
    && Within(c.services, d.services, {agent})
    && Within(c.policies, d.policies, {agent})
    && Within(c.budgets, d.budgets, {agent})
  }

  // ---- the steps --------------------------------------------------------------------------------------

  lemma {:induction false} InlineRespects(configMaps: ConfigMaps, agent: string, files: seq<ConfigFile>)
    ensures Respects(configMaps, InlineSteps(configMaps, agent, files).store, OfConfigMap(), AgentOwner(agent))
    decreases |files|
  {
    if files != [] {
      if files[0].generated {
        var file, me := files[0], AgentOwner(agent);
        var existing, first := Lookup(configMaps, file.configMapName), InlineConfigMapStep(configMaps, agent, file);
        hide Respects, CreateOrUpdate, ResourceLabels;
        CreateOrUpdateRespects(configMaps, ConfigMapResource, file.configMapName,
          if existing.Some? then existing.value.controller else None,
          me, GeneratedConfigMap(agent, file, existing), OfConfigMap());
        InlineRespects(first.store, agent, files[1..]);
        if first.failure.None? {
          RespectsTransitive(configMaps, first.store, InlineSteps(first.store, agent, files[1..]).store, OfConfigMap(),
            me);
        }
      } else {
        InlineRespects(configMaps, agent, files[1..]);
      }
    }
  }

  lemma CleanupOneRespects(configMaps: ConfigMaps, agent: string, keep: set<string>, name: string)
    ensures Respects(configMaps, CleanupOne(configMaps, agent, keep, name).store, OfConfigMap(), AgentOwner(agent))
  {
  }

  lemma CleanupRespects(configMaps: ConfigMaps, agent: string, keep: set<string>)
    ensures Respects(configMaps, Cleanup(configMaps, agent, keep).store, OfConfigMap(), AgentOwner(agent))
  {
    var a, b := GeneratedConfigMapName(agent, CONFIG_ID), GeneratedConfigMapName(agent, GATEWAY_ID);
    var first := CleanupOne(configMaps, agent, keep, a);
    CleanupOneRespects(configMaps, agent, keep, a);
    CleanupOneRespects(first.store, agent, keep, b);
    RespectsTransitive(configMaps, first.store, CleanupOne(first.store, agent, keep, b).store, OfConfigMap(),
      AgentOwner(agent));
    hide Respects, GeneratedConfigMapName;
  }

  lemma GeneratedRespects(configMaps: ConfigMaps, statefulSet: Option<StatefulSet>, agent: string,
        files: seq<ConfigFile>)
    ensures Respects(configMaps, GeneratedStep(configMaps, statefulSet, agent, files).store, OfConfigMap(),
      AgentOwner(agent))
  {
    var inlined := InlineSteps(configMaps, agent, files);
    InlineRespects(configMaps, agent, files);
    CleanupRespects(inlined.store, agent, DesiredNames(files));
    RespectsTransitive(configMaps, inlined.store, Cleanup(inlined.store, agent, DesiredNames(files)).store,
      OfConfigMap(), AgentOwner(agent));
    hide Respects, InlineSteps, Cleanup;
  }

  lemma ClaimRespects(lib: Library, claims: map<string, Claim>, agent: string, spec: AgentSpec)
    ensures var after := ClaimStep(lib, claims, agent, spec).store;
      Respects(claims, after, OfClaim(), AgentOwner(agent)) && Within(claims, after, {ClaimName(agent)})
  {
    hide DriftedFields, ResourceLabels, ClaimName, BuildClaim, CreateOrUpdate, Respects, Within;
    var name, me := ClaimName(agent), AgentOwner(agent);
    ClaimsUnmoved(claims, me, name);
    match lib.parseQuantity(PersistenceSize(spec))
    case None =>
    case Some(request) =>
      if name !in claims {
        CreateOrUpdateRespects(claims, ClaimResource, name, None, me,
          Claim(Some(me), ResourceLabels(agent), BuildClaim(spec, request), ClaimPending), OfClaim());
      } else {
        var existing := claims[name];
        CreateOrUpdateRespects(claims, ClaimResource, name, existing.controller, me,
          existing.(labels := existing.labels + ResourceLabels(agent), spec := existing.spec.(request := request),
            controller := Some(me)), OfClaim());
      }
  }

  lemma ClaimsUnmoved(claims: map<string, Claim>, me: Owner, name: string)
    ensures Respects(claims, claims, OfClaim(), me) && Within(claims, claims, {name})
  {
  }

  lemma WorkloadRespects(statefulSets: map<string, StatefulSet>, agent: string, desired: PodTemplate.StatefulSetSpec)
    ensures var after := WorkloadStep(statefulSets, agent, desired).store;
      Respects(statefulSets, after, OfStatefulSet(), AgentOwner(agent)) && Within(statefulSets, after, {agent})
  {
    hide ResourceLabels;
  }

  lemma ServiceRespects(services: map<string, Service>, agent: string, spec: AgentSpec)
    ensures var after := ServiceStep(services, agent, spec).store;
      RespectsStrictly(services, after, OfService(), AgentOwner(agent)) && Within(services, after, {agent})
  {
    hide ResourceLabels, DesiredPorts, OptionalStep, RespectsStrictly, Within;
    var existing := Lookup(services, agent);
    OptionalRespects(services, ServiceResource, agent, spec.service.enabled,
      if existing.Some? then existing.value.controller else None, DesiredService(agent, spec, existing), OfService());
  }

  lemma PolicyRespects(policies: map<string, Policy>, agent: string, spec: AgentSpec, backend: string)
    ensures var after := PolicyStep(policies, agent, spec, backend).store;
      RespectsStrictly(policies, after, OfPolicy(), AgentOwner(agent)) && Within(policies, after, {agent})
  {
    hide ResourceLabels, Egress.BuildNetworkPolicy, OptionalStep, RespectsStrictly, Within;
    var existing := Lookup(policies, agent);
    var labels := (if existing.Some? then existing.value.labels else map[]) + ResourceLabels(agent);
    OptionalRespects(policies, PolicyResource, agent, NetworkPolicyEnabled(spec),
      if existing.Some? then existing.value.controller else None,
      Policy(Some(AgentOwner(agent)), labels, Egress.BuildNetworkPolicy(agent, spec, backend)), OfPolicy());
  }

  lemma BudgetRespects(budgets: map<string, Budget>, agent: string, spec: AgentSpec)
    ensures var after := BudgetStep(budgets, agent, spec).store;
      RespectsStrictly(budgets, after, OfBudget(), AgentOwner(agent)) && Within(budgets, after, {agent})
  {
    hide ResourceLabels, OptionalStep, RespectsStrictly, Within;
    var existing := Lookup(budgets, agent);
    var labels := (if existing.Some? then existing.value.labels else map[]) + ResourceLabels(agent);
    OptionalRespects(budgets, BudgetResource, agent, DisruptionBudgetEnabled(spec),
      if existing.Some? then existing.value.controller else None,
      Budget(Some(AgentOwner(agent)), labels, BuildBudget(agent)), OfBudget());
  }

  lemma Unmoved(c: Cluster, agent: string)
    ensures OwnershipSafe(agent, c, c) && InScope(agent, c, c)
  {
  }

  /** No step of an agent's reconcile changes or deletes an object another owner controls; a Service,
      NetworkPolicy or budget it does not control it leaves alone altogether; all it changes is its own. */
  lemma StageRespects(lib: Library, c: Cluster, job: Job, stage: Stage)
    requires Planned(job)
    ensures var d := RunStage(lib, c, job, stage).cluster; OwnershipSafe(job.agent, c, d) && InScope(job.agent, c, d)
  {
    hide ClaimStep, WorkloadStep, ServiceStep, PolicyStep, BudgetStep, DesiredStatefulSet, GeneratedStep,
      EffectiveBackend, GeneratedNames, ClaimName,
      Respects, RespectsStrictly;
    Unmoved(c, job.agent);
    match stage
    case GeneratedStage =>
      GeneratedRespects(c.configMaps, Lookup(c.statefulSets, job.agent), job.agent, job.plan.files);
      StageFrame(lib, c, job, stage);
    case ClaimStage => ClaimRespects(lib, c.claims, job.agent, job.spec);
    case WorkloadStage => WorkloadRespects(c.statefulSets, job.agent, DesiredStatefulSet(job));
    case ServiceStage => ServiceRespects(c.services, job.agent, job.spec);
    case PolicyStage => PolicyRespects(c.policies, job.agent, job.spec, EffectiveBackend(lib, job.spec, job.inputs));
    case BudgetStage => BudgetRespects(c.budgets, job.agent, job.spec);
  }
}
