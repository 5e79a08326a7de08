/** What a successful reconcile guarantees, and when it succeeds. */
module Guarantees {
  import opened Prelude
  import opened Api
  import opened Validation
  import opened References
  import opened Gate
  import opened ConfigPlan
  import opened PodTemplate
  import opened PodView
  import opened Rollout
  import opened Egress
  import opened Terminal
  import opened Status
  import opened Store
  import opened Stages
  import opened Reconciliation

  // ---- the steps do not disturb one another --------------------------------------------------

  function GeneratedOf(c: Cluster, job: Job): Changed<ConfigMap> {
    GeneratedStep(c.configMaps, Lookup(c.statefulSets, job.agent), job.agent, job.plan.files)
  }
  function ClaimOf(lib: Library, c: Cluster, job: Job): Changed<Claim> { ClaimStep(lib, c.claims, job.agent, job.spec) }
  function WorkloadOf(c: Cluster, job: Job): Changed<StatefulSet> {
    WorkloadStep(c.statefulSets, job.agent, DesiredStatefulSet(job))
  }
  function ServiceOf(c: Cluster, job: Job): Changed<Service> { ServiceStep(c.services, job.agent, job.spec) }
  function PolicyOf(lib: Library, c: Cluster, job: Job): Changed<Policy> {
    PolicyStep(c.policies, job.agent, job.spec, EffectiveBackend(lib, job.spec, job.inputs))
  }
  function BudgetOf(c: Cluster, job: Job): Changed<Budget> { BudgetStep(c.budgets, job.agent, job.spec) }

  predicate AllSucceed(lib: Library, c: Cluster, job: Job) {
    && GeneratedOf(c, job).failure.None? && ClaimOf(lib, c, job).failure.None? && WorkloadOf(c, job).failure.None?
    && ServiceOf(c, job).failure.None? && PolicyOf(lib, c, job).failure.None? && BudgetOf(c, job).failure.None?
  }

  function AfterAll(lib: Library, c: Cluster, job: Job): Cluster {
    c.(configMaps := GeneratedOf(c, job).store, claims := ClaimOf(lib, c, job).store, statefulSets :=
      WorkloadOf(c, job).store,
       services := ServiceOf(c, job).store, policies := PolicyOf(lib, c, job).store, budgets := BudgetOf(c, job).store)
  }

  lemma Cons(lib: Library, c: Cluster, job: Job, stage: Stage, rest: seq<Stage>)
    ensures var r := RunStage(lib, c, job, stage);
      var s := RunStages(lib, r.cluster, job, rest);
      var all := RunStages(lib, c, job, [stage] + rest);
      if r.failure.Some? then all.failure.Some? else all.failure == s.failure && all.cluster == s.cluster
  {
    assert ([stage] + rest)[1..] == rest;
  }

  lemma FromBudget(lib: Library, c: Cluster, job: Job)
    ensures var r := RunStages(lib, c, job, [BudgetStage]);
      && (r.failure.None? <==> BudgetOf(c, job).failure.None?)
      && (r.failure.None? ==> r.cluster == c.(budgets := BudgetOf(c, job).store))
  {
    Cons(lib, c, job, BudgetStage, []);
    assert [BudgetStage] == [BudgetStage] + [];
  }

  lemma FromPolicy(lib: Library, c: Cluster, job: Job)
    ensures var r := RunStages(lib, c, job, [PolicyStage, BudgetStage]);
      && (r.failure.None? <==> PolicyOf(lib, c, job).failure.None? && BudgetOf(c, job).failure.None?)
      && (r.failure.None? ==>
        r.cluster == c.(policies := PolicyOf(lib, c, job).store, budgets := BudgetOf(c, job).store))
  {
    Cons(lib, c, job, PolicyStage, [BudgetStage]);
    FromBudget(lib, c.(policies := PolicyOf(lib, c, job).store), job);
    assert [PolicyStage, BudgetStage] == [PolicyStage] + [BudgetStage];
  }

  lemma FromService(lib: Library, c: Cluster, job: Job)
    ensures var r := RunStages(lib, c, job, [ServiceStage, PolicyStage, BudgetStage]);
      && (r.failure.None? <==>
        ServiceOf(c, job).failure.None? && PolicyOf(lib, c, job).failure.None? && BudgetOf(c, job).failure.None?)
      && (r.failure.None? ==>
        r.cluster == c.(services := ServiceOf(c, job).store, policies := PolicyOf(lib, c, job).store, budgets :=
        BudgetOf(c, job).store))
  {
    Cons(lib, c, job, ServiceStage, [PolicyStage, BudgetStage]);
    FromPolicy(lib, c.(services := ServiceOf(c, job).store), job);
    assert [ServiceStage, PolicyStage, BudgetStage] == [ServiceStage] + [PolicyStage, BudgetStage];
  }

  lemma FromWorkload(lib: Library, c: Cluster, job: Job)
    ensures var r := RunStages(lib, c, job, [WorkloadStage, ServiceStage, PolicyStage, BudgetStage]);
      && (r.failure.None? <==>
        WorkloadOf(c, job).failure.None? && ServiceOf(c, job).failure.None? && PolicyOf(lib, c, job).failure.None?
        && BudgetOf(c, job).failure.None?)
      && (r.failure.None? ==>
        r.cluster == c.(statefulSets := WorkloadOf(c, job).store, services := ServiceOf(c, job).store, policies :=
        PolicyOf(lib, c, job).store, budgets := BudgetOf(c, job).store))
  {
    Cons(lib, c, job, WorkloadStage, [ServiceStage, PolicyStage, BudgetStage]);
    FromService(lib, c.(statefulSets := WorkloadOf(c, job).store), job);
    assert [WorkloadStage, ServiceStage, PolicyStage, BudgetStage] == [WorkloadStage]
      + [ServiceStage, PolicyStage, BudgetStage];
  }

  lemma FromClaim(lib: Library, c: Cluster, job: Job)
    ensures var r := RunStages(lib, c, job, [ClaimStage, WorkloadStage, ServiceStage, PolicyStage, BudgetStage]);
      && (r.failure.None? <==>
        ClaimOf(lib, c, job).failure.None? && WorkloadOf(c, job).failure.None? && ServiceOf(c, job).failure.None?
        && PolicyOf(lib, c, job).failure.None? && BudgetOf(c, job).failure.None?)
      && (r.failure.None? ==>
        r.cluster == c.(claims := ClaimOf(lib, c, job).store, statefulSets := WorkloadOf(c, job).store, services :=
        ServiceOf(c, job).store, policies := PolicyOf(lib, c, job).store, budgets := BudgetOf(c, job).store))
  {
    Cons(lib, c, job, ClaimStage, [WorkloadStage, ServiceStage, PolicyStage, BudgetStage]);
    FromWorkload(lib, c.(claims := ClaimOf(lib, c, job).store), job);
    assert [ClaimStage, WorkloadStage, ServiceStage, PolicyStage, BudgetStage] == [ClaimStage]
      + [WorkloadStage, ServiceStage, PolicyStage, BudgetStage];
  }

  /** The pipeline succeeds exactly when each step would on the cluster as it was, and then leaves
      exactly what each step makes of that cluster. */
  lemma PipelineIndependent(lib: Library, c: Cluster, job: Job)
    ensures var r := RunStages(lib, c, job, PIPELINE);
      && (r.failure.None? <==> AllSucceed(lib, c, job))
      && (r.failure.None? ==> r.cluster == AfterAll(lib, c, job))
  {
    var rest := [ClaimStage, WorkloadStage, ServiceStage, PolicyStage, BudgetStage];
    Cons(lib, c, job, GeneratedStage, rest);
    FromClaim(lib, c.(configMaps := GeneratedOf(c, job).store), job);
    assert PIPELINE == [GeneratedStage] + rest;
  }

  // ---- the outcome of a prepared reconcile ----------------------------------------------------------

  lemma PatchedFields(s: AgentStatus, generation: int, agent: string, spec: AgentSpec, hash: string,
        change: StatusChange, now: nat)
    ensures var t := Patched(s, generation, agent, spec, hash, change, now);
      && t.phase == Mark(s, change).phase && t.configHash == hash && t.observedGeneration == generation
  {
    hide SetAll, Settings, HermesImage, ClaimName, PersistenceEnabled;
  }

  lemma ReportedFields(c: Cluster, writes: seq<Write>, agent: string, spec: AgentSpec, hash: string,
        change: StatusChange, now: nat, outcome: Outcome)
    requires agent in c.agents
    ensures var r := Report(c, writes, agent, spec, hash, change, now, outcome);
      && r.cluster == c.(agents := r.cluster.agents) && agent in r.cluster.agents && r.outcome == outcome
      && r.cluster.agents[agent].status.phase == Mark(c.agents[agent].status, change).phase
      && r.cluster.agents[agent].status.configHash == hash
      && r.cluster.agents[agent].status.observedGeneration == c.agents[agent].generation
  {
    hide Patched, Mark;
    PatchedFields(c.agents[agent].status, c.agents[agent].generation, agent, spec, hash, change, now);
  }

  /** With every required reference resolved a fully named spec reaches the steps, and only then; it is
      never reported as an invalid configuration. */
  lemma PreparedWhen(lib: Library, c: Cluster, agent: string, spec: AgentSpec)
    requires FullyNamed(spec)
    ensures Prepare(lib, c, agent, spec).Prepared? <==> InputsComplete(spec, InputsOf(c))
    ensures Prepare(lib, c, agent, spec).Rejected? ==> Prepare(lib, c, agent, spec).failure.MissingReferences?
  {
    GateExact(spec, InputsOf(c));
  }

  lemma StagesReported(s: StageResult, job: Job, now: nat)
    requires job.agent in s.cluster.agents
    ensures var r := ReportStages(s, job, now);
      && r.cluster == s.cluster.(agents := r.cluster.agents) && job.agent in r.cluster.agents
        && r.outcome == FinalOutcome(s)
      && r.cluster.agents[job.agent].status.configHash == job.plan.hash
      && r.cluster.agents[job.agent].status.observedGeneration == s.cluster.agents[job.agent].generation
      && (s.failure.Some? ==> r.cluster.agents[job.agent].status.phase != ReadyPhase)
      && (s.failure.None? ==>
        r.cluster.agents[job.agent].status.phase == ViewStatus(s.cluster, job.agent, job.spec).phase)
  {
    hide Report, ViewStatus;
    if s.failure.Some? { assert !ChangeFor(s.failure.value).Observed?; }
    hide ChangeFor;
    ReportedFields(s.cluster, s.writes, job.agent, job.spec, job.plan.hash, FinalChange(s, job.agent, job.spec), now,
      FinalOutcome(s));
  }

  lemma PreparedJob(lib: Library, c: Cluster, agent: string, spec: AgentSpec, job: Job)
    requires Prepare(lib, c, agent, spec) == Prepared(job)
    ensures job.agent == agent && job.spec == spec && Planned(job) && job.inputs == Resolve(spec, InputsOf(c))
  {
  }

  lemma PreparedReconcile(lib: Library, c: Cluster, agent: string, job: Job, now: nat)
    requires agent in c.agents && Prepare(lib, c, agent, c.agents[agent].spec) == Prepared(job)
    ensures Reconcile(lib, c, agent, now) == ReportStages(RunStages(lib, c, job, PIPELINE), job, now)
  {
  }

  lemma PreparedOutcome(lib: Library, c: Cluster, agent: string, job: Job, now: nat)
    requires agent in c.agents && Prepare(lib, c, agent, c.agents[agent].spec) == Prepared(job)
    ensures var r := Reconcile(lib, c, agent, now);
      && (AllSucceed(lib, c, job) <==> r.outcome == Done)
      && agent in r.cluster.agents
      && r.cluster.agents[agent].status.configHash == job.plan.hash
      && r.cluster.agents[agent].status.observedGeneration == c.agents[agent].generation
      && (r.outcome == Done ==>
            && r.cluster == AfterAll(lib, c, job).(agents := r.cluster.agents)
            && r.cluster.agents[agent].status.phase == ViewStatus(AfterAll(lib, c, job), agent, job.spec).phase)
      && (r.outcome != Done ==> r.cluster.agents[agent].status.phase != ReadyPhase)
  {
    hide Reconcile, RunStages, ReportStages, Prepare, AllSucceed, AfterAll, ViewStatus, GeneratedNames;
    PreparedJob(lib, c, agent, c.agents[agent].spec, job);
    PreparedReconcile(lib, c, agent, job, now);
    PipelineIndependent(lib, c, job);
    PipelineFrame(lib, c, job, PIPELINE);
    StagesReported(RunStages(lib, c, job, PIPELINE), job, now);
  }

  // ---- what a failure is reported as ----------------------------------------------------------------

  lemma {:induction false} InlineFailure(configMaps: ConfigMaps, agent: string, files: seq<ConfigFile>)
    ensures var failure := InlineSteps(configMaps, agent, files).failure;
      failure.Some? ==> failure.value.AlreadyOwned? && failure.value.resource == ConfigMapResource
    decreases |files|
  {
    if files != [] {
      InlineFailure(if files[0].generated then InlineConfigMapStep(configMaps, agent, files[0]).store else configMaps,
        agent, files[1..]);
    }
  }

  /** The mark each step's call site puts on a failure of that step. */
  function MarkOf(stage: Stage, failure: Failure): StatusChange {
    match stage
    case GeneratedStage => ConfigFailure(ConfigMapReconcileFailed, failure)
    case ClaimStage => PersistenceFailure(failure)
    case WorkloadStage => WorkloadFailure(StatefulSetReconcileFailed, failure)
    case ServiceStage => WorkloadFailure(ServiceReconcileFailed, failure)
    case PolicyStage => WorkloadFailure(NetworkPolicyReconcileFailed, failure)
    case BudgetStage => WorkloadFailure(PodDisruptionBudgetReconcileFailed, failure)
  }

  lemma GeneratedFailure(configMaps: ConfigMaps, statefulSet: Option<StatefulSet>, agent: string,
        files: seq<ConfigFile>)
    ensures var failure := GeneratedStep(configMaps, statefulSet, agent, files).failure;
      failure.Some? ==> failure.value.AlreadyOwned? && failure.value.resource == ConfigMapResource
  {
    InlineFailure(configMaps, agent, files);
    CleanupSettles(InlineSteps(configMaps, agent, files).store, agent, DesiredNames(files));
    hide InlineSteps, Cleanup, DesiredNames, ReadyForCleanup;
  }

  lemma ClaimFailure(lib: Library, claims: map<string, Claim>, agent: string, spec: AgentSpec)
    ensures var failure := ClaimStep(lib, claims, agent, spec).failure;
      failure.Some? ==>
        failure.value.BadQuantity? || failure.value.SpecDrift?
        || (failure.value.AlreadyOwned? && failure.value.resource == ClaimResource)
  {
    hide DriftedFields, ResourceLabels, ClaimName, BuildClaim;
  }

  lemma OptionalFailures(lib: Library, c: Cluster, job: Job)
    ensures var f := ServiceOf(c, job).failure; f.Some? ==>
      (f.value.AlreadyOwned? || f.value.NotOwned?) && f.value.resource == ServiceResource
    ensures var f := PolicyOf(lib, c, job).failure; f.Some? ==>
      (f.value.AlreadyOwned? || f.value.NotOwned?) && f.value.resource == PolicyResource
    ensures var f := BudgetOf(c, job).failure; f.Some? ==>
      (f.value.AlreadyOwned? || f.value.NotOwned?) && f.value.resource == BudgetResource
  {
    hide ResourceLabels, EffectiveBackend, BuildNetworkPolicy, DesiredPorts;
  }

  /** Every failure names its step: reporting it by what it says is reporting it by where it happened. */
  lemma FailureReported(lib: Library, c: Cluster, job: Job, stage: Stage)
    ensures var failure := RunStage(lib, c, job, stage).failure;
      failure.Some? ==> ChangeFor(failure.value) == MarkOf(stage, failure.value)
  {
    assert stage == WorkloadStage ==> RunStage(lib, c, job, stage).failure.Some? ==>
      RunStage(lib, c, job, stage).failure.value.AlreadyOwned?
        && RunStage(lib, c, job, stage).failure.value.resource == StatefulSetResource by {
      hide DesiredStatefulSet, ResourceLabels, GeneratedStep, ClaimStep, ServiceStep, PolicyStep, BudgetStep;
    }
    hide GeneratedStep, ClaimStep, WorkloadStep, ServiceStep, PolicyStep, BudgetStep, DesiredStatefulSet,
      EffectiveBackend;
    GeneratedFailure(c.configMaps, Lookup(c.statefulSets, job.agent), job.agent, job.plan.files);
    ClaimFailure(lib, c.claims, job.agent, job.spec);
    OptionalFailures(lib, c, job);
  }

  // ---- ready soundness -----------------------------------------------------------------------------------

  /** The workload step stores exactly the desired spec, under this agent's control. */
  lemma WorkloadStored(statefulSets: map<string, StatefulSet>, agent: string, desired: StatefulSetSpec)
    requires WorkloadStep(statefulSets, agent, desired).failure.None?
    ensures var after := WorkloadStep(statefulSets, agent, desired).store;
      && agent in after && after[agent].spec == desired && after[agent].controller == Some(AgentOwner(agent))
      && (agent in statefulSets ==> (after[agent].generation > statefulSets[agent].generation <==>
        statefulSets[agent].spec != desired))
  {
    hide ResourceLabels;
  }

  function StatusOf(c: Cluster, agent: string): AgentStatus {
    if agent in c.agents then c.agents[agent].status else EMPTY_STATUS
  }

  /** What phase Ready promises about the cluster a reconcile leaves behind. */
  ghost predicate ReadyCluster(c: Cluster, d: Cluster, job: Job, hash: string) {
    && job.agent in d.statefulSets && job.agent in c.statefulSets
    && d.statefulSets[job.agent].spec == DesiredStatefulSet(job)
    && d.statefulSets[job.agent].controller == Some(AgentOwner(job.agent))
    && Lookup(d.statefulSets[job.agent].spec.template.annotations, HASH_ANNOTATION) == Some(hash)
    && d.statefulSets[job.agent].spec == c.statefulSets[job.agent].spec
    && d.statefulSets[job.agent].readyReplicas >= DesiredReplicas(job.spec)
    && (PersistenceEnabled(job.spec) ==>
      ClaimName(job.agent) in d.claims && d.claims[ClaimName(job.agent)].phase == ClaimBound)
  }

  lemma ReadyView(lib: Library, c: Cluster, job: Job)
    requires WellFormed(c) && AllSucceed(lib, c, job)
    requires ViewStatus(AfterAll(lib, c, job), job.agent, job.spec).phase == ReadyPhase
    ensures ReadyCluster(c, AfterAll(lib, c, job), job, job.plan.hash)
  {
    var d := AfterAll(lib, c, job);
    WorkloadStored(c.statefulSets, job.agent, DesiredStatefulSet(job));
    WorkloadPostponesCleanup(c.statefulSets, job.agent, DesiredStatefulSet(job));
    assert d.statefulSets == WorkloadOf(c, job).store;
    DesiredFields(job);
    hide AllSucceed, AfterAll, WorkloadOf, WorkloadStep, DesiredStatefulSet;
    ReadyExactly(d, job.agent, job.spec);
  }

  lemma DesiredFields(job: Job)
    ensures var desired := DesiredStatefulSet(job);
      desired.replicas == Some(DesiredReplicas(job.spec)) && Lookup(desired.template.annotations, HASH_ANNOTATION) ==
        Some(job.plan.hash)
  {
  }

  /** The view says Ready exactly when the claim, if any, is bound and the StatefulSet is rolled out and up. */
  lemma ReadyExactly(d: Cluster, agent: string, spec: AgentSpec)
    ensures ViewStatus(d, agent, spec).phase == ReadyPhase <==>
      && (PersistenceEnabled(spec) ==> ClaimName(agent) in d.claims && d.claims[ClaimName(agent)].phase == ClaimBound)
      && agent in d.statefulSets && ReadyForCleanup(d.statefulSets[agent])
  {
    hide ClaimName;
  }

  lemma RejectedNotReady(lib: Library, c: Cluster, agent: string, now: nat)
    requires agent in c.agents && Prepare(lib, c, agent, c.agents[agent].spec).Rejected?
    ensures StatusOf(Reconcile(lib, c, agent, now).cluster, agent).phase == ConfigErrorPhase
  {
    var spec := c.agents[agent].spec;
    ReportedFields(c, [], agent, spec, "", ChangeFor(Prepare(lib, c, agent, spec).failure), now, Done);
  }

  /** Phase Ready means: the stored StatefulSet is the one this spec and these inputs call for, its hash
      annotation is the reported hash whatever podAnnotations says, it was not changed by this
      reconcile, all its replicas are ready, and the claim is bound if there is one. */
  lemma ReadySound(lib: Library, c: Cluster, agent: string, now: nat)
    requires WellFormed(c) && agent in c.agents
    ensures var p := Prepare(lib, c, agent, c.agents[agent].spec);
      var d := Reconcile(lib, c, agent, now).cluster;
      StatusOf(d, agent).phase == ReadyPhase ==>
        && p.Prepared? && p.job.inputs == Resolve(c.agents[agent].spec, InputsOf(c))
        && ReadyCluster(c, d, p.job, StatusOf(d, agent).configHash)
        && StatusOf(d, agent).observedGeneration == c.agents[agent].generation
        && (NoGeneratedReference(agent, c.agents[agent].spec) ==>
          p.job.inputs == Resolve(c.agents[agent].spec, InputsOf(d)))
  {
    hide Reconcile, Prepare, ReadyCluster, AfterAll, AllSucceed, ViewStatus, RunStages;
    var spec := c.agents[agent].spec;
    var p := Prepare(lib, c, agent, spec);
    var d := Reconcile(lib, c, agent, now).cluster;
    if p.Rejected? {
      RejectedNotReady(lib, c, agent, now);
    } else if StatusOf(d, agent).phase == ReadyPhase {
      PreparedJob(lib, c, agent, spec, p.job);
      PreparedOutcome(lib, c, agent, p.job, now);
      ReadyView(lib, c, p.job);
      ReadyClusterIgnoresAgents(c, AfterAll(lib, c, p.job), d.agents, p.job, p.job.plan.hash);
      PipelineIndependent(lib, c, p.job);
      if NoGeneratedReference(agent, spec) {
        SameInputsAfter(lib, c, p.job, PIPELINE);
        assert InputsOf(d) == InputsOf(RunStages(lib, c, p.job, PIPELINE).cluster);
      }
    }
  }

  lemma ReadyClusterIgnoresAgents(c: Cluster, d: Cluster, agents: map<string, Agent>, job: Job, hash: string)
    requires ReadyCluster(c, d, job, hash)
    ensures ReadyCluster(c, d.(agents := agents), job, hash)
  {
  }

  // ---- a visible change rolls out -------------------------------------------------------------------

  /** Two jobs that ask for the same StatefulSet, with a digest that tells their payloads apart if they differ, run
      the same pod inputs if and only if no key moved visibly: any other visible change changes the StatefulSet. */
  lemma VisibleChangeRollsOut(lib: Library, job: Job, c: Inputs, other: Job, d: Inputs)
    requires Planned(job) && Planned(other) && ValidConfig(job.spec) && ValidConfig(other.spec)
    requires job.plan.hash == lib.digest(PayloadOf(job.agent, job.spec, Resolve(job.spec, c)))
    requires other.plan.hash == lib.digest(PayloadOf(other.agent, other.spec, Resolve(other.spec, d)))
    requires var p, q := PayloadOf(job.agent, job.spec, Resolve(job.spec, c)),
      PayloadOf(other.agent, other.spec, Resolve(other.spec, d));
      lib.digest(p) == lib.digest(q) ==> p == q
    requires GeneratedInPlace(job.plan.files, c) && GeneratedInPlace(other.plan.files, d)
    requires ReferencedApart(job.spec, c) && ReferencedApart(job.spec, d)
    ensures DesiredStatefulSet(job) == DesiredStatefulSet(other) ==>
      (ViewOf(BuildTemplateInputs(job.spec, job.plan), c) == ViewOf(BuildTemplateInputs(other.spec, other.plan), d) <==>
       NoVisibleMove(job.agent, job.spec, c, d))
  {
    if DesiredStatefulSet(job) == DesiredStatefulSet(other) {
      DesiredFields(job);
      DesiredFields(other);
      hide DesiredStatefulSet, ViewOf, BuildTemplateInputs, NoVisibleMove, GeneratedInPlace, ReferencedApart,
        PayloadOf, Resolve, PlanFiles, ValidConfig;
      assert job.plan.hash == other.plan.hash;
      assert job.plan == Plan(PlanFiles(job.agent, job.spec), job.plan.hash);
      assert other.plan == Plan(PlanFiles(other.agent, other.spec), job.plan.hash);
      RolloutFaithful(job.agent, job.spec, c, other.agent, other.spec, d, job.plan.hash);
    }
  }

  // ---- optional resources ------------------------------------------------------------------------------------

  ghost predicate ServiceMatches(d: Cluster, agent: string, spec: AgentSpec) {
    if spec.service.enabled then
      && agent in d.services && d.services[agent].controller == Some(AgentOwner(agent))
      && d.services[agent].annotations == spec.service.annotations
      && d.services[agent].spec.serviceType == ServiceType(spec)
        && d.services[agent].spec.selector == ResourceLabels(agent)
      && |d.services[agent].spec.ports| == 1 && d.services[agent].spec.ports[0].port == ServicePortNumber(spec)
      && d.services[agent].spec.ports[0].targetPort == ServiceTargetPort(spec)
    else agent in d.services ==> d.services[agent].controller != Some(AgentOwner(agent))
  }

  ghost predicate PolicyMatches(d: Cluster, agent: string, spec: AgentSpec, backend: string) {
    if NetworkPolicyEnabled(spec) then
      agent in d.policies && d.policies[agent].controller == Some(AgentOwner(agent))
        && d.policies[agent].spec == BuildNetworkPolicy(agent, spec, backend)
    else agent in d.policies ==> d.policies[agent].controller != Some(AgentOwner(agent))
  }

  ghost predicate BudgetMatches(d: Cluster, agent: string, spec: AgentSpec) {
    if DisruptionBudgetEnabled(spec) then
      agent in d.budgets && d.budgets[agent].controller == Some(AgentOwner(agent))
        && d.budgets[agent].spec == BuildBudget(agent)
    else agent in d.budgets ==> d.budgets[agent].controller != Some(AgentOwner(agent))
  }

  lemma ServiceStepMatches(c: Cluster, job: Job, d: Cluster)
    requires ServiceOf(c, job).failure.None? && d.services == ServiceOf(c, job).store
    ensures ServiceMatches(d, job.agent, job.spec)
  {
  }

  lemma PolicyStepMatches(lib: Library, c: Cluster, job: Job, d: Cluster)
    requires PolicyOf(lib, c, job).failure.None? && d.policies == PolicyOf(lib, c, job).store
    ensures PolicyMatches(d, job.agent, job.spec, EffectiveBackend(lib, job.spec, job.inputs))
  {
    hide EffectiveBackend, BuildNetworkPolicy;
  }

  lemma BudgetStepMatches(c: Cluster, job: Job, d: Cluster)
    requires BudgetOf(c, job).failure.None? && d.budgets == BudgetOf(c, job).store
    ensures BudgetMatches(d, job.agent, job.spec)
  {
  }

  lemma OptionalStepsMatch(lib: Library, c: Cluster, job: Job, agents: map<string, Agent>)
    requires AllSucceed(lib, c, job)
    ensures var d := AfterAll(lib, c, job).(agents := agents);
      && ServiceMatches(d, job.agent, job.spec)
      && PolicyMatches(d, job.agent, job.spec, EffectiveBackend(lib, job.spec, job.inputs))
      && BudgetMatches(d, job.agent, job.spec)
  {
    hide GeneratedOf, ClaimOf, WorkloadOf, ServiceOf, PolicyOf, BudgetOf, ServiceMatches, PolicyMatches, BudgetMatches,
      EffectiveBackend;
    var d := AfterAll(lib, c, job).(agents := agents);
    ServiceStepMatches(c, job, d);
    PolicyStepMatches(lib, c, job, d);
    BudgetStepMatches(c, job, d);
  }

  /** After any successful reconcile a wanted Service, NetworkPolicy or PodDisruptionBudget exists, is
      controlled and says what the spec asks for; an unwanted one is not controlled. */
  lemma OptionalResourcesConverge(lib: Library, c: Cluster, agent: string, now: nat)
    requires agent in c.agents
    ensures var d := Reconcile(lib, c, agent, now).cluster;
      var spec := c.agents[agent].spec;
      Prepare(lib, c, agent, spec).Prepared? && Reconcile(lib, c, agent, now).outcome == Done ==>
        && ServiceMatches(d, agent, spec)
        && PolicyMatches(d, agent, spec, EffectiveBackend(lib, spec, Resolve(spec, InputsOf(c))))
        && BudgetMatches(d, agent, spec)
  {
    hide Reconcile, Prepare, AllSucceed, AfterAll, ServiceMatches, PolicyMatches, BudgetMatches, EffectiveBackend,
      Resolve;
    var p := Prepare(lib, c, agent, c.agents[agent].spec);
    if p.Prepared? && Reconcile(lib, c, agent, now).outcome == Done {
      PreparedJob(lib, c, agent, c.agents[agent].spec, p.job);
      PreparedOutcome(lib, c, agent, p.job, now);
      OptionalStepsMatch(lib, c, p.job, Reconcile(lib, c, agent, now).cluster.agents);
    }
  }

  /** The stored resources fit each other: every selector picks the pods of the stored template, the
      Service's target port is the one port the container opens, and a budget leaves a replica standing. */
  ghost predicate ResourcesFit(d: Cluster, agent: string, spec: AgentSpec) {
    && agent in d.statefulSets
    && var workload := d.statefulSets[agent].spec;
       && Selected(workload.selector, workload.template.labels)
       && (spec.service.enabled ==>
             && agent in d.services && Selected(d.services[agent].spec.selector, workload.template.labels)
             && |d.services[agent].spec.ports| == 1 && workload.template.pod.ports ==
               [d.services[agent].spec.ports[0].targetPort])
       && (!spec.service.enabled ==> workload.template.pod.ports == [])
       && (NetworkPolicyEnabled(spec) ==>
         agent in d.policies && Selected(d.policies[agent].spec.podSelector, workload.template.labels))
       && (DisruptionBudgetEnabled(spec) ==>
             && agent in d.budgets && Selected(d.budgets[agent].spec.selector, workload.template.labels)
             && workload.replicas.Some? && d.budgets[agent].spec.maxUnavailable < workload.replicas.value)
  }

  lemma StoredResourcesFit(lib: Library, c: Cluster, job: Job, agents: map<string, Agent>)
    requires AllSucceed(lib, c, job)
    ensures ResourcesFit(AfterAll(lib, c, job).(agents := agents), job.agent, job.spec)
  {
    var d := AfterAll(lib, c, job).(agents := agents);
    WorkloadStored(c.statefulSets, job.agent, DesiredStatefulSet(job));
    OptionalStepsMatch(lib, c, job, agents);
    SelectorsExact(job.agent, job.spec, BuildTemplateInputs(job.spec, job.plan), job.agent);
    PodPorts(job);
    hide GeneratedOf, ClaimOf, WorkloadStep, ServiceOf, PolicyOf, BudgetOf, EffectiveBackend, EgressRules,
      ResourceLabels, BuildStatefulSet, BuildTemplateInputs,
      ServiceTargetPort, Selected, AllSucceed;
  }

  lemma PodPorts(job: Job)
    ensures var desired := DesiredStatefulSet(job);
      && desired.template.pod.ports == (if job.spec.service.enabled then [ServiceTargetPort(job.spec)] else [])
      && desired.selector == ResourceLabels(job.agent) && desired.replicas == Some(DesiredReplicas(job.spec))
  {
  }

  // ---- template integrity -----------------------------------------------------------------------------------------

  /** Once the workload is rolled out no stale generated ConfigMap of the agent remains; before that none is
      removed. */
  lemma StaleRemoved(configMaps: ConfigMaps, statefulSet: Option<StatefulSet>, agent: string, files: seq<ConfigFile>,
        n: string)
    requires n in GeneratedNames(agent) && n !in DesiredNames(files)
    ensures var r := GeneratedStep(configMaps, statefulSet, agent, files);
      && (CleanupDue(statefulSet) && r.failure.None? ==> n in r.store ==>
        r.store[n].controller != Some(AgentOwner(agent)))
      && (!CleanupDue(statefulSet) ==> Lookup(r.store, n) == Lookup(configMaps, n))
  {
    InlineOnlyDesired(configMaps, agent, files, n);
    GeneratedNamesDiffer(agent);
    hide InlineSteps, DesiredNames, GeneratedConfigMapName;
  }

  lemma GeneratedFilesInPlace(lib: Library, c: Cluster, job: Job)
    requires Planned(job) && GeneratedOf(c, job).failure.None?
    ensures GeneratedInPlace(job.plan.files, Inputs(GeneratedOf(c, job).store, c.secrets))
  {
    var files, store := job.plan.files, GeneratedOf(c, job).store;
    PlanShape(job.agent, job.spec);
    GeneratedSettles(c.configMaps, Lookup(c.statefulSets, job.agent), job.agent, files);
    InlineNoWrites(store, job.agent, files);
    IdleMeansInPlace(store, job.agent, files);
    forall i | 0 <= i < |files| && files[i].generated ensures InPlace(store, job.agent, files[i]) {}
  }
}
