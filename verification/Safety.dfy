/** Safety over whole runs: ownership, claims and node ports. */
module Safety {
  import opened Prelude
  import opened Api
  import opened Validation
  import opened References
  import opened Gate
  import opened ConfigPlan
  import opened Status
  import opened Store
  import opened Stages
  import opened Claims
  import opened Reconciliation
  import opened Ownership
  import opened Runs

  // ---- objects of any kind --------------------------------------------------------------------

  predicate ExistsIn(c: Cluster, kind: Resource, n: string) {
    match kind
    case ConfigMapResource => n in c.configMaps
    case ClaimResource => n in c.claims
    case StatefulSetResource => n in c.statefulSets
    case ServiceResource => n in c.services
    case PolicyResource => n in c.policies
    case BudgetResource => n in c.budgets
  }

  function ControllerIn(c: Cluster, kind: Resource, n: string): Option<Owner>
    requires ExistsIn(c, kind, n)
  {
    match kind
    case ConfigMapResource => c.configMaps[n].controller
    case ClaimResource => c.claims[n].controller
    case StatefulSetResource => c.statefulSets[n].controller
    case ServiceResource => c.services[n].controller
    case PolicyResource => c.policies[n].controller
    case BudgetResource => c.budgets[n].controller
  }

  /** The object is the same in both clusters, or in neither. */
  predicate SameIn(c: Cluster, d: Cluster, kind: Resource, n: string) {
    match kind
    case ConfigMapResource => Lookup(c.configMaps, n) == Lookup(d.configMaps, n)
    case ClaimResource => Lookup(c.claims, n) == Lookup(d.claims, n)
    case StatefulSetResource => Lookup(c.statefulSets, n) == Lookup(d.statefulSets, n)
    case ServiceResource => Lookup(c.services, n) == Lookup(d.services, n)
    case PolicyResource => Lookup(c.policies, n) == Lookup(d.policies, n)
    case BudgetResource => Lookup(c.budgets, n) == Lookup(d.budgets, n)
  }

  predicate IsOptional(kind: Resource) { kind == ServiceResource || kind == PolicyResource || kind == BudgetResource }

  /** An existing object that this agent must leave alone: somebody else controls it, or nobody does
      and it is a Service, a NetworkPolicy or a budget. */
  predicate OffLimits(c: Cluster, kind: Resource, n: string, agent: string) {
    && ExistsIn(c, kind, n)
    && ControllerIn(c, kind, n) != Some(AgentOwner(agent))
    && (ControllerIn(c, kind, n).Some? || IsOptional(kind))
  }

  lemma OffLimitsUntouched(agent: string, c: Cluster, d: Cluster, kind: Resource, n: string)
    requires OwnershipSafe(agent, c, d) && OffLimits(c, kind, n, agent)
    ensures SameIn(c, d, kind, n)
  {
  }

  lemma OffLimitsCarries(c: Cluster, d: Cluster, kind: Resource, n: string, agent: string)
    requires SameIn(c, d, kind, n) && OffLimits(c, kind, n, agent)
    ensures OffLimits(d, kind, n, agent)
  {
  }

  /** One step of an agent's worker, in any state a run can reach. */
  lemma WorkerRespects(lib: Library, s: System, agent: string, now: nat, t: System)
    requires Invariant(s) && Next(lib, s, Operator(agent, now), t)
    ensures OwnershipSafe(agent, s.cluster, t.cluster) && InScope(agent, s.cluster, t.cluster)
      && Within(s.cluster.agents, t.cluster.agents, {agent})
  {
    hide RunStage, Report, Resolve, MissingInputs, ValidConfig, BuildPlan, ViewStatus, StatusesOk, WellFormed,
      OwnershipSafe, InScope, GeneratedNames;
    var task, c := TaskOf(s, agent), s.cluster;
    Unmoved(c, agent);
    assert Within(c.agents, c.agents, {agent});
    match task
    case Running(job, todo) =>
      if todo != [] {
        assert TaskOk(agent, task);
        StageRespects(lib, c, job, todo[0]);
        StageKeepsAgents(lib, c, job, todo[0]);
      }
    case Reporting(spec, hash, change) =>
      ReportScope(c, agent, spec, hash, change, now);
      AgentsOnly(c, t.cluster, agent);
    case _ =>
  }

  /** So at every worker step of every run. */
  lemma RunRespects(lib: Library, states: seq<System>, actors: seq<Actor>, k: nat)
    requires IsRun(lib, states, actors) && k < |actors| && actors[k].Operator?
    ensures OwnershipSafe(actors[k].agent, states[k].cluster, states[k + 1].cluster)
    ensures InScope(actors[k].agent, states[k].cluster, states[k + 1].cluster)
    ensures Within(states[k].cluster.agents, states[k + 1].cluster.agents, {actors[k].agent})
  {
    hide Invariant, Init, OwnershipSafe, InScope, Within;
    RunInvariant(lib, states, actors, k);
    assert Next(lib, states[k], actors[k], states[k + 1]);
    hide Next;
    WorkerRespects(lib, states[k], actors[k].agent, actors[k].now, states[k + 1]);
  }

  lemma AgentsOnly(c: Cluster, d: Cluster, agent: string)
    requires d == c.(agents := d.agents)
    ensures OwnershipSafe(agent, c, d) && InScope(agent, c, d)
  {
  }

  /** What may happen at one step of a run without endangering the object. */
  ghost predicate Harmless(start: Cluster, s: System, actor: Actor, t: System, kind: Resource, n: string) {
    match actor
    case Operator(agent, _) => OffLimits(start, kind, n, agent)
    case Restart => true
    case Environment => SameIn(s.cluster, t.cluster, kind, n)
  }

  lemma SameTransitive(a: Cluster, b: Cluster, c: Cluster, kind: Resource, n: string)
    requires SameIn(a, b, kind, n) && SameIn(b, c, kind, n)
    ensures SameIn(a, c, kind, n)
  {
  }

  lemma HarmlessStep(lib: Library, start: Cluster, s: System, actor: Actor, t: System, kind: Resource, n: string)
    requires Invariant(s) && Next(lib, s, actor, t)
    requires SameIn(start, s.cluster, kind, n) && Harmless(start, s, actor, t, kind, n)
    ensures SameIn(start, t.cluster, kind, n)
  {
    hide Invariant, OwnershipSafe, InScope, OffLimits, Advance, SameIn, Within;
    match actor
    case Operator(agent, now) =>
      OffLimitsCarries(start, s.cluster, kind, n, agent);
      WorkerRespects(lib, s, agent, now, t);
      OffLimitsUntouched(agent, s.cluster, t.cluster, kind, n);
      SameTransitive(start, s.cluster, t.cluster, kind, n);
    case Restart =>
    case Environment => SameTransitive(start, s.cluster, t.cluster, kind, n);
  }

  /** Over any stretch of any run, an object stays exactly as it is if it is off limits to every agent
      whose worker moves and the environment does not touch it, however many agents there are and whatever
      names their specs generate. */
  lemma {:induction false} OffLimitsForever(lib: Library, states: seq<System>, actors: seq<Actor>, i: nat, j: nat,
        kind: Resource, n: string)
    requires IsRun(lib, states, actors) && i <= j < |states| && ExistsIn(states[i].cluster, kind, n)
    requires forall k :: i <= k < j ==> Harmless(states[i].cluster, states[k], actors[k], states[k + 1], kind, n)
    ensures SameIn(states[i].cluster, states[j].cluster, kind, n)
    decreases j
  {
    if i < j {
      OffLimitsForever(lib, states, actors, i, j - 1, kind, n);
      RunInvariant(lib, states, actors, j - 1);
      hide Invariant, Init, SameIn, ExistsIn, Harmless, Next;
      HarmlessStep(lib, states[i].cluster, states[j - 1], actors[j - 1], states[j], kind, n);
    }
  }

  /** Two agents can contend for one ConfigMap name. The one that does not control it is refused, and its
      reconcile changes nothing. */
  lemma ContenderRefused(lib: Library, c: Cluster, agent: string, job: Job)
    requires job.agent == agent + "-gateway" && Planned(job) && ValidSource(job.spec.config)
      && job.spec.config.raw != []
    requires var n := GeneratedConfigMapName(agent, GATEWAY_ID);
      n in c.configMaps && c.configMaps[n].controller == Some(AgentOwner(agent))
    ensures RunStages(lib, c, job, PIPELINE) == StageResult(c, [],
      Some(AlreadyOwned(ConfigMapResource, GeneratedConfigMapName(agent, GATEWAY_ID), AgentOwner(agent))))
  {
    GeneratedNamesCollide(agent);
    var n, file := GeneratedConfigMapName(agent, GATEWAY_ID), job.plan.files[0];
    assert file.generated && file.configMapName == n;
    assert AgentOwner(agent) != AgentOwner(job.agent) by { assert |job.agent| == |agent| + 8; }
    hide GeneratedConfigMapName, PlanFiles, GeneratedConfigMap;
    var step := InlineConfigMapStep(c.configMaps, job.agent, file);
    assert step == Changed(c.configMaps, [], Some(AlreadyOwned(ConfigMapResource, n, AgentOwner(agent))));
    assert InlineSteps(c.configMaps, job.agent, job.plan.files) == step;
    assert RunStage(lib, c, job, GeneratedStage) == StageResult(c, [], step.failure);
  }

  /** The other contender: an agent whose gateway file has the contested name is refused too; it may have written its
      own config file before that, and nothing else. */
  lemma GatewayContenderRefused(lib: Library, c: Cluster, job: Job)
    requires Planned(job) && ValidSource(job.spec.gatewayConfig) && job.spec.gatewayConfig.raw != []
    requires var n := GeneratedConfigMapName(job.agent + "-gateway", CONFIG_ID);
      n in c.configMaps && c.configMaps[n].controller == Some(AgentOwner(job.agent + "-gateway"))
    ensures var n, r := GeneratedConfigMapName(job.agent + "-gateway", CONFIG_ID), RunStages(lib, c, job, PIPELINE);
      && r.failure.Some? && r.failure.value.AlreadyOwned? && r.failure.value.resource == ConfigMapResource
      && r.cluster == c.(configMaps := r.cluster.configMaps)
        && Within(c.configMaps, r.cluster.configMaps, {GeneratedConfigMapName(job.agent, CONFIG_ID)})
      && Lookup(r.cluster.configMaps, n) == Some(c.configMaps[n])
  {
    var mine, n := GeneratedConfigMapName(job.agent, CONFIG_ID), GeneratedConfigMapName(job.agent, GATEWAY_ID);
    GeneratedNamesCollide(job.agent);
    GeneratedNamesDiffer(job.agent);
    GatewayFileLast(job);
    assert AgentOwner(job.agent + "-gateway") != AgentOwner(job.agent) by {
      assert |job.agent + "-gateway"| == |job.agent| + 8;
    }
    hide GeneratedConfigMapName, PlanFiles, InlineSteps, RunStages, Within, ValidSource;
    ContestedInline(c.configMaps, job.agent, job.plan.files, mine, n);
    FailsAtOnce(lib, c, job);
  }

  lemma GatewayFileLast(job: Job)
    requires Planned(job) && ValidSource(job.spec.gatewayConfig) && job.spec.gatewayConfig.raw != []
    ensures var files := job.plan.files;
      && 1 <= |files| <= 2 && files[|files| - 1].generated
      && files[|files| - 1].configMapName == GeneratedConfigMapName(job.agent, GATEWAY_ID)
      && (|files| == 2 && files[0].generated ==> files[0].configMapName == GeneratedConfigMapName(job.agent, CONFIG_ID))
  {
    hide GeneratedConfigMapName;
  }

  lemma FailsAtOnce(lib: Library, c: Cluster, job: Job)
    ensures var inlined := InlineSteps(c.configMaps, job.agent, job.plan.files);
      inlined.failure.Some? ==>
        RunStages(lib, c, job, PIPELINE) == StageResult(c.(configMaps := inlined.store), inlined.writes,
          inlined.failure)
  {
    var inlined := InlineSteps(c.configMaps, job.agent, job.plan.files);
    hide InlineSteps, Cleanup, ReadyForCleanup;
    if inlined.failure.Some? {
      assert RunStage(lib, c, job, GeneratedStage) == StageResult(c.(configMaps := inlined.store), inlined.writes,
        inlined.failure);
      hide RunStage;
    }
  }

  lemma ContestedInline(configMaps: ConfigMaps, agent: string, files: seq<ConfigFile>, mine: string, n: string)
    requires 1 <= |files| <= 2 && files[|files| - 1].generated && files[|files| - 1].configMapName == n && mine != n
    requires |files| == 2 && files[0].generated ==> files[0].configMapName == mine
    requires n in configMaps && configMaps[n].controller.Some? && configMaps[n].controller.value != AgentOwner(agent)
    ensures var r := InlineSteps(configMaps, agent, files);
      && r.failure.Some? && r.failure.value.AlreadyOwned? && r.failure.value.resource == ConfigMapResource
      && Within(configMaps, r.store, {mine}) && Lookup(r.store, n) == Some(configMaps[n])
  {
    hide GeneratedConfigMap;
    if |files| == 2 {
      assert files[1..] == [files[1]] && [files[1]][0] == files[1];
      if files[0].generated {
        var first := InlineConfigMapStep(configMaps, agent, files[0]);
        InlineSettles(configMaps, agent, files[0]);
        assert Lookup(first.store, n) == Lookup(configMaps, n);
        RefusedInline(first.store, agent, files[1]);
      } else {
        RefusedInline(configMaps, agent, files[1]);
      }
    } else {
      assert files == [files[0]];
      RefusedInline(configMaps, agent, files[0]);
    }
  }

  lemma RefusedInline(configMaps: ConfigMaps, agent: string, file: ConfigFile)
    requires file.generated && file.configMapName in configMaps
    requires configMaps[file.configMapName].controller.Some?
      && configMaps[file.configMapName].controller.value != AgentOwner(agent)
    ensures InlineSteps(configMaps, agent, [file]) == Changed(configMaps, [],
      Some(AlreadyOwned(ConfigMapResource, file.configMapName, configMaps[file.configMapName].controller.value)))
  {
    hide GeneratedConfigMap;
    assert [file][0] == file;
  }

  // ---- claims --------------------------------------------------------------------------------------

  lemma StageKeepsClaims(lib: Library, c: Cluster, job: Job, stage: Stage, n: string)
    requires n in c.claims
    ensures var d := RunStage(lib, c, job, stage).cluster; n in d.claims && ClaimKept(c.claims[n], d.claims[n])
  {
    hide GeneratedStep, WorkloadStep, ServiceStep, PolicyStep, BudgetStep, ClaimStep, DesiredStatefulSet,
      Terminal.EffectiveBackend;
    if stage == ClaimStage { ClaimStepSafe(lib, c.claims, job.agent, job.spec, n); }
  }

  /** No step of any worker deletes a claim or changes its access modes, storage class or phase. */
  lemma WorkerKeepsClaims(lib: Library, s: System, agent: string, now: nat, t: System, n: string)
    requires Next(lib, s, Operator(agent, now), t) && n in s.cluster.claims
    ensures n in t.cluster.claims && ClaimKept(s.cluster.claims[n], t.cluster.claims[n])
  {
    hide RunStage, Report, Resolve, MissingInputs, ValidConfig, BuildPlan, ViewStatus, ChangeFor;
    match TaskOf(s, agent)
    case Running(job, todo) => if todo != [] { StageKeepsClaims(lib, s.cluster, job, todo[0], n); }
    case Reporting(spec, hash, change) => ReportScope(s.cluster, agent, spec, hash, change, now);
    case _ =>
  }

  ghost predicate StorageKept(c: Cluster, d: Cluster, n: string) {
    n in c.claims ==>
      && n in d.claims && d.claims[n].spec.accessModes == c.claims[n].spec.accessModes
      && d.claims[n].spec.storageClassName == c.claims[n].spec.storageClassName
  }

  /** Over any run whose environment keeps a claim, the claim keeps its access modes and storage class. */
  lemma {:induction false} ClaimsSurvive(lib: Library, states: seq<System>, actors: seq<Actor>, i: nat, j: nat,
        n: string)
    requires IsRun(lib, states, actors) && i <= j < |states|
    requires forall k :: i <= k < j && actors[k].Environment? ==>
      StorageKept(states[k].cluster, states[k + 1].cluster, n)
    ensures StorageKept(states[i].cluster, states[j].cluster, n)
    decreases j
  {
    if i < j {
      ClaimsSurvive(lib, states, actors, i, j - 1, n);
      var s, actor, t := states[j - 1], actors[j - 1], states[j];
      assert Next(lib, s, actor, t);
      hide Advance, Init, IsRun;
      if actor.Operator? && n in s.cluster.claims {
        WorkerKeepsClaims(lib, s, actor.agent, actor.now, t, n);
      }
    }
  }

  // ---- node ports -----------------------------------------------------------------------------------

  predicate HoldsNodePort(c: Cluster, agent: string, nodePort: int) {
    && agent in c.services && c.services[agent].controller == Some(AgentOwner(agent))
    && |c.services[agent].spec.ports| == 1 && c.services[agent].spec.ports[0].nodePort == nodePort
  }

  predicate WantsNodePort(spec: AgentSpec) { spec.service.enabled && KeepsNodePort(ServiceType(spec)) }

  /** The spec the worker is acting on, read at some earlier step. */
  predicate TaskWants(task: Task) {
    && (task.Resolving? ==> WantsNodePort(task.spec))
    && (task.Running? ==> WantsNodePort(task.job.spec))
  }

  lemma ServiceKeepsNodePort(services: map<string, Service>, agent: string, spec: AgentSpec)
    requires agent in services && services[agent].controller == Some(AgentOwner(agent))
      && |services[agent].spec.ports| == 1 && WantsNodePort(spec)
    ensures var after := ServiceStep(services, agent, spec).store;
      && agent in after && after[agent].controller == Some(AgentOwner(agent))
      && |after[agent].spec.ports| == 1 && after[agent].spec.ports[0].nodePort == services[agent].spec.ports[0].nodePort
  {
    hide ResourceLabels, KeepsNodePort, ServicePortNumber, ServiceTargetPort;
  }

  lemma StageKeepsNodePort(lib: Library, c: Cluster, job: Job, stage: Stage, nodePort: int)
    requires HoldsNodePort(c, job.agent, nodePort) && WantsNodePort(job.spec)
    ensures HoldsNodePort(RunStage(lib, c, job, stage).cluster, job.agent, nodePort)
  {
    hide GeneratedStep, WorkloadStep, ServiceStep, PolicyStep, BudgetStep, ClaimStep, DesiredStatefulSet,
      Terminal.EffectiveBackend, WantsNodePort;
    if stage == ServiceStage { ServiceKeepsNodePort(c.services, job.agent, job.spec); }
  }

  lemma WorkerKeepsNodePort(lib: Library, s: System, agent: string, now: nat, t: System, nodePort: int)
    requires Invariant(s) && Next(lib, s, Operator(agent, now), t)
    requires HoldsNodePort(s.cluster, agent, nodePort) && TaskWants(TaskOf(s, agent))
    requires agent in s.cluster.agents ==> WantsNodePort(s.cluster.agents[agent].spec)
    ensures HoldsNodePort(t.cluster, agent, nodePort) && TaskWants(TaskOf(t, agent))
  {
    hide RunStage, Report, Resolve, MissingInputs, ValidConfig, BuildPlan, ViewStatus, ChangeFor, WantsNodePort,
      StatusesOk, WellFormed;
    match TaskOf(s, agent)
    case Running(job, todo) =>
      assert TaskOk(agent, s.tasks[agent]);
      if todo != [] { StageKeepsNodePort(lib, s.cluster, job, todo[0], nodePort); }
    case Reporting(spec, hash, change) => ReportScope(s.cluster, agent, spec, hash, change, now);
    case _ =>
  }

  /** What one step must not do to an allocated node port: the environment must not take it away. */
  ghost predicate PortSpared(s: System, actor: Actor, t: System, agent: string, nodePort: int) {
    actor.Environment? && HoldsNodePort(s.cluster, agent, nodePort) ==> HoldsNodePort(t.cluster, agent, nodePort)
  }

  ghost predicate TypeStays(s: System, agent: string) {
    agent in s.cluster.agents ==> WantsNodePort(s.cluster.agents[agent].spec)
  }

  /** Over any run an allocated node port survives every reconcile while the type stays NodePort or LoadBalancer. */
  lemma {:induction false} NodePortSurvives(lib: Library, states: seq<System>, actors: seq<Actor>, i: nat, j: nat,
        agent: string, nodePort: int)
    requires IsRun(lib, states, actors) && i <= j < |states|
    requires HoldsNodePort(states[i].cluster, agent, nodePort) && TaskWants(TaskOf(states[i], agent))
    requires forall k :: i <= k < j ==>
      TypeStays(states[k], agent) && PortSpared(states[k], actors[k], states[k + 1], agent, nodePort)
    ensures HoldsNodePort(states[j].cluster, agent, nodePort) && TaskWants(TaskOf(states[j], agent))
    decreases j
  {
    hide Advance, Init, EnvStep, WantsNodePort;
    if i < j {
      NodePortSurvives(lib, states, actors, i, j - 1, agent, nodePort);
      RunInvariant(lib, states, actors, j - 1);
      var s, actor, t := states[j - 1], actors[j - 1], states[j];
      assert Next(lib, s, actor, t) && TypeStays(s, agent) && PortSpared(s, actor, t, agent, nodePort);
      hide IsRun, Invariant, OwnershipSafe, GeneratedNames;
      if actor.Operator? {
        if actor.agent == agent {
          WorkerKeepsNodePort(lib, s, agent, actor.now, t, nodePort);
        } else {
          WorkerRespects(lib, s, actor.agent, actor.now, t);
          assert Lookup(t.cluster.services, agent) == Lookup(s.cluster.services, agent);
        }
      }
    }
  }
}
