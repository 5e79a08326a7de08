/** When a reconcile succeeds, and that an admitted agent gets to phase Ready. */
module Convergence {
  import opened Prelude
  import opened Api
  import opened Validation
  import opened Admission
  import opened References
  import opened Gate
  import opened ConfigPlan
  import opened PodTemplate
  import opened Terminal
  import opened Status
  import opened Store
  import opened Stages
  import opened Claims
  import opened Reconciliation
  import opened Guarantees

  // ---- exactly when every step succeeds ------------------------------------------------------

  predicate MayControl(controller: Option<Owner>, agent: string) {
    controller.None? || controller == Some(AgentOwner(agent))
  }

  ghost predicate FilesFree(configMaps: ConfigMaps, agent: string, names: set<string>) {
    forall n | n in names && n in configMaps :: MayControl(configMaps[n].controller, agent)
  }

  ghost predicate ClaimFree(claims: map<string, Claim>, agent: string, spec: AgentSpec) {
    PersistenceEnabled(spec) && ClaimName(agent) in claims ==>
      MayControl(claims[ClaimName(agent)].controller, agent) && SameStorage(spec, claims[ClaimName(agent)].spec)
  }

  predicate SizeParses(lib: Library, spec: AgentSpec) {
    PersistenceEnabled(spec) ==> lib.parseQuantity(PersistenceSize(spec)).Some?
  }

  predicate Mine(controller: Option<Owner>, agent: string) { controller == Some(AgentOwner(agent)) }

  /** No foreign object of a needed name, and no immutable drift. */
  ghost predicate Unobstructed(c: Cluster, agent: string, spec: AgentSpec) {
    && FilesFree(c.configMaps, agent, DesiredNames(PlanFiles(agent, spec)))
    && ClaimFree(c.claims, agent, spec)
    && (agent in c.statefulSets ==> MayControl(c.statefulSets[agent].controller, agent))
    && (spec.service.enabled && agent in c.services ==> Mine(c.services[agent].controller, agent))
    && (NetworkPolicyEnabled(spec) && agent in c.policies ==> Mine(c.policies[agent].controller, agent))
    && (DisruptionBudgetEnabled(spec) && agent in c.budgets ==> Mine(c.budgets[agent].controller, agent))
  }

  lemma {:induction false} InlineSucceeds(configMaps: ConfigMaps, agent: string, files: seq<ConfigFile>)
    requires DistinctGenerated(files)
    ensures InlineSteps(configMaps, agent, files).failure.None? <==> FilesFree(configMaps, agent, DesiredNames(files))
    decreases |files|
  {
    if files != [] {
      var rest := files[1..];
      DesiredTail(files);
      assert forall i :: 0 <= i < |rest| ==> rest[i] == files[i + 1];
      if files[0].generated {
        var n, first := files[0].configMapName, InlineConfigMapStep(configMaps, agent, files[0]);
        InlineSettles(configMaps, agent, files[0]);
        InlineSucceeds(first.store, agent, rest);
        assert n !in DesiredNames(rest);
        forall m | m in DesiredNames(rest) ensures Lookup(first.store, m) == Lookup(configMaps, m) {}
        assert first.failure.None? <==> (n in configMaps ==> MayControl(configMaps[n].controller, agent));
        SameFree(first.store, configMaps, agent, DesiredNames(rest));
      } else {
        InlineSucceeds(configMaps, agent, rest);
      }
    }
  }

  lemma SameFree(a: ConfigMaps, b: ConfigMaps, agent: string, names: set<string>)
    requires forall n | n in names :: Lookup(a, n) == Lookup(b, n)
    ensures FilesFree(a, agent, names) <==> FilesFree(b, agent, names)
  {
    forall n | n in names ensures (n in a <==> n in b) && (n in a ==> a[n] == b[n]) {}
  }

  lemma GeneratedSucceeds(c: Cluster, job: Job)
    requires Planned(job)
    ensures GeneratedOf(c, job).failure.None? <==> FilesFree(c.configMaps, job.agent, DesiredNames(job.plan.files))
  {
    PlanShape(job.agent, job.spec);
    var inlined := InlineSteps(c.configMaps, job.agent, job.plan.files);
    InlineSucceeds(c.configMaps, job.agent, job.plan.files);
    CleanupSettles(inlined.store, job.agent, DesiredNames(job.plan.files));
    hide FilesFree, InlineSteps, Cleanup, DesiredNames;
  }

  lemma ClaimSucceeds(lib: Library, claims: map<string, Claim>, agent: string, spec: AgentSpec)
    ensures ClaimStep(lib, claims, agent, spec).failure.None? <==>
      SizeParses(lib, spec) && ClaimFree(claims, agent, spec)
  {
    hide DriftedFields, SameStorage, ResourceLabels, ClaimName, BuildClaim;
    var request := lib.parseQuantity(PersistenceSize(spec));
    if ClaimName(agent) in claims && request.Some? {
      NoDrift(spec, claims[ClaimName(agent)].spec, request.value);
    }
  }

  /** The six steps of a planned reconcile all succeed exactly when nothing obstructs them. */
  lemma SucceedsExactly(lib: Library, c: Cluster, job: Job)
    requires Planned(job)
    ensures AllSucceed(lib, c, job) <==> SizeParses(lib, job.spec) && Unobstructed(c, job.agent, job.spec)
  {
    GeneratedSucceeds(c, job);
    ClaimSucceeds(lib, c.claims, job.agent, job.spec);
    WorkloadSucceeds(c, job);
    OptionalsSucceed(lib, c, job);
    hide GeneratedOf, ClaimStep, WorkloadOf, ServiceOf, PolicyOf, BudgetOf, FilesFree, ClaimFree, SizeParses;
  }

  lemma WorkloadSucceeds(c: Cluster, job: Job)
    ensures WorkloadOf(c, job).failure.None? <==> (job.agent in c.statefulSets ==>
      MayControl(c.statefulSets[job.agent].controller, job.agent))
  {
    hide DesiredStatefulSet, ResourceLabels;
  }

  lemma OptionalsSucceed(lib: Library, c: Cluster, job: Job)
    ensures ServiceOf(c, job).failure.None? <==> (job.spec.service.enabled && job.agent in c.services ==>
      Mine(c.services[job.agent].controller, job.agent))
    ensures PolicyOf(lib, c, job).failure.None? <==> (NetworkPolicyEnabled(job.spec) && job.agent in c.policies ==>
      Mine(c.policies[job.agent].controller, job.agent))
    ensures BudgetOf(c, job).failure.None? <==> (DisruptionBudgetEnabled(job.spec) && job.agent in c.budgets ==>
      Mine(c.budgets[job.agent].controller, job.agent))
  {
    hide EffectiveBackend, Egress.BuildNetworkPolicy, DesiredPorts, ResourceLabels, DisruptionBudgetEnabled,
      NetworkPolicyEnabled;
  }

  /** An agent's reconcile ends without error exactly when its inputs are missing (a configuration
      failure is reported, not retried) or nothing obstructs its steps. */
  lemma DoneExactly(lib: Library, c: Cluster, agent: string, now: nat)
    requires agent in c.agents
    ensures Reconcile(lib, c, agent, now).outcome == Done <==>
      Prepare(lib, c, agent, c.agents[agent].spec).Rejected?
        || (SizeParses(lib, c.agents[agent].spec) && Unobstructed(c, agent, c.agents[agent].spec))
  {
    var spec := c.agents[agent].spec;
    var p := Prepare(lib, c, agent, spec);
    if p.Prepared? {
      hide Reconcile, Prepare, Unobstructed, SizeParses;
      PreparedJob(lib, c, agent, spec, p.job);
      PreparedOutcome(lib, c, agent, p.job, now);
      SucceedsExactly(lib, c, p.job);
    }
  }

  // ---- convergence -------------------------------------------------------------------------------

  /** The storage controller binds the agent's claim. */
  function BindClaim(c: Cluster, agent: string): Cluster {
    var n := ClaimName(agent);
    if n in c.claims then c.(claims := c.claims[n := c.claims[n].(phase := ClaimBound)]) else c
  }

  /** The StatefulSet controller observes the stored generation and brings all replicas up. */
  function CatchUp(c: Cluster, agent: string): Cluster {
    if agent !in c.statefulSets then c
    else
      var s := c.statefulSets[agent];
      c.(statefulSets := c.statefulSets[agent := s.(observedGeneration := s.generation, readyReplicas :=
        DesiredCount(s))])
  }

  function Settle(c: Cluster, agent: string): Cluster { CatchUp(BindClaim(c, agent), agent) }

  /** What a successful reconcile followed by the two controllers leaves for the next one. */
  ghost predicate Ripe(d: Cluster, job: Job) {
    && job.agent in d.statefulSets && d.statefulSets[job.agent].spec == DesiredStatefulSet(job)
    && Mine(d.statefulSets[job.agent].controller, job.agent)
    && d.statefulSets[job.agent].observedGeneration >= d.statefulSets[job.agent].generation
    && d.statefulSets[job.agent].readyReplicas >= DesiredReplicas(job.spec)
    && (PersistenceEnabled(job.spec) ==>
      ClaimName(job.agent) in d.claims && d.claims[ClaimName(job.agent)].phase == ClaimBound)
  }

  lemma ClaimStored(lib: Library, claims: map<string, Claim>, agent: string, spec: AgentSpec)
    requires ClaimStep(lib, claims, agent, spec).failure.None? && PersistenceEnabled(spec)
    ensures var after := ClaimStep(lib, claims, agent, spec).store;
      && ClaimName(agent) in after && Mine(after[ClaimName(agent)].controller, agent)
        && SameStorage(spec, after[ClaimName(agent)].spec)
      && lib.parseQuantity(PersistenceSize(spec)) == Some(after[ClaimName(agent)].spec.request)
  {
    hide ClaimStep, SameStorage;
    ClaimExact(lib, claims, agent, spec);
    var n := ClaimName(agent);
    var stored := ClaimStep(lib, claims, agent, spec).store[n].spec;
    if n in claims {
      SameStorageIgnoresSize(spec, claims[n].spec, stored.request);
    } else {
      NewStorage(spec, stored);
    }
  }

  lemma NewStorage(spec: AgentSpec, stored: ClaimSpec)
    requires stored.storageClassName == spec.persistence.storageClassName
    requires stored.accessModes ==
      if spec.persistence.accessModes == [] then ["ReadWriteOnce"] else spec.persistence.accessModes
    ensures SameStorage(spec, stored)
  {
  }

  lemma SameStorageIgnoresSize(spec: AgentSpec, stored: ClaimSpec, request: int)
    ensures SameStorage(spec, stored.(request := request)) <==> SameStorage(spec, stored)
  {
  }

  lemma SettledWorkload(c: Cluster, job: Job, d: Cluster)
    requires WorkloadOf(c, job).failure.None? && d.statefulSets == WorkloadOf(c, job).store
    ensures var e := Settle(d, job.agent);
      && job.agent in e.statefulSets && e.statefulSets[job.agent].spec == DesiredStatefulSet(job)
      && Mine(e.statefulSets[job.agent].controller, job.agent)
      && e.statefulSets[job.agent].observedGeneration >= e.statefulSets[job.agent].generation
      && e.statefulSets[job.agent].readyReplicas >= DesiredReplicas(job.spec)
  {
    WorkloadStored(c.statefulSets, job.agent, DesiredStatefulSet(job));
    DesiredFields(job);
    hide DesiredStatefulSet, WorkloadStep, ClaimName, DesiredReplicas;
  }

  lemma SettledClaim(lib: Library, c: Cluster, job: Job, d: Cluster)
    requires ClaimOf(lib, c, job).failure.None? && d.claims == ClaimOf(lib, c, job).store
    ensures SizeParses(lib, job.spec) && ClaimFree(Settle(d, job.agent).claims, job.agent, job.spec)
    ensures PersistenceEnabled(job.spec) ==>
      ClaimName(job.agent) in Settle(d, job.agent).claims && Settle(d, job.agent).claims[ClaimName(job.agent)].phase ==
        ClaimBound
  {
    ClaimSucceeds(lib, c.claims, job.agent, job.spec);
    if PersistenceEnabled(job.spec) { ClaimStored(lib, c.claims, job.agent, job.spec); }
    hide ClaimStep, SameStorage, ClaimName;
  }

  lemma SettledFiles(lib: Library, c: Cluster, job: Job, d: Cluster)
    requires Planned(job) && GeneratedOf(c, job).failure.None? && d.configMaps == GeneratedOf(c, job).store
    ensures FilesFree(d.configMaps, job.agent, DesiredNames(job.plan.files))
  {
    PlanShape(job.agent, job.spec);
    GeneratedSettles(c.configMaps, Lookup(c.statefulSets, job.agent), job.agent, job.plan.files);
    InlineNoWrites(d.configMaps, job.agent, job.plan.files);
    InlineSucceeds(d.configMaps, job.agent, job.plan.files);
  }

  lemma SettledOptionals(lib: Library, c: Cluster, job: Job, d: Cluster)
    requires AllSucceed(lib, c, job) && d == AfterAll(lib, c, job).(agents := d.agents)
    ensures job.spec.service.enabled && job.agent in d.services ==> Mine(d.services[job.agent].controller, job.agent)
    ensures NetworkPolicyEnabled(job.spec) && job.agent in d.policies ==>
      Mine(d.policies[job.agent].controller, job.agent)
    ensures DisruptionBudgetEnabled(job.spec) && job.agent in d.budgets ==>
      Mine(d.budgets[job.agent].controller, job.agent)
  {
    OptionalStepsMatch(lib, c, job, d.agents);
    hide AllSucceed, AfterAll, EffectiveBackend, Egress.BuildNetworkPolicy, ResourceLabels;
  }

  /** Nothing obstructs the second reconcile, and the cluster is ripe for it. */
  lemma SettledCluster(lib: Library, c: Cluster, job: Job, d: Cluster)
    requires Planned(job) && AllSucceed(lib, c, job) && d == AfterAll(lib, c, job).(agents := d.agents)
    ensures Unobstructed(Settle(d, job.agent), job.agent, job.spec) && Ripe(Settle(d, job.agent), job)
  {
    hide GeneratedOf, ClaimOf, WorkloadOf, ServiceOf, PolicyOf, BudgetOf, FilesFree, ClaimFree, DesiredStatefulSet,
      ClaimName, DesiredNames, DesiredReplicas, PlanFiles;
    SettledWorkload(c, job, d);
    SettledClaim(lib, c, job, d);
    SettledFiles(lib, c, job, d);
    SettledOptionals(lib, c, job, d);
  }

  lemma RipeIsReady(lib: Library, d: Cluster, job: Job)
    requires AllSucceed(lib, d, job) && Ripe(d, job)
    ensures ViewStatus(AfterAll(lib, d, job), job.agent, job.spec).phase == ReadyPhase
  {
    hide GeneratedOf, ServiceOf, PolicyOf, BudgetOf, ClaimStep, WorkloadStep, DesiredStatefulSet, ClaimName,
      DesiredReplicas, AllSucceed, ViewStatus;
    var e := AfterAll(lib, d, job);
    RipeWorkload(d.statefulSets, job.agent, DesiredStatefulSet(job));
    DesiredFields(job);
    if PersistenceEnabled(job.spec) { ClaimStepSafe(lib, d.claims, job.agent, job.spec, ClaimName(job.agent)); }
    ReadyExactly(e, job.agent, job.spec);
  }

  lemma RipeWorkload(statefulSets: map<string, StatefulSet>, agent: string, desired: StatefulSetSpec)
    requires agent in statefulSets && statefulSets[agent].spec == desired && Mine(statefulSets[agent].controller, agent)
    ensures var after := WorkloadStep(statefulSets, agent, desired).store;
      && agent in after && after[agent].spec == desired && after[agent].generation == statefulSets[agent].generation
      && after[agent].observedGeneration == statefulSets[agent].observedGeneration
        && after[agent].readyReplicas == statefulSets[agent].readyReplicas
  {
    hide ResourceLabels;
  }

  lemma AdmittedUsable(lib: Library, p: Parsers, spec: AgentSpec)
    requires Admitted(p, spec) && p.quantity == lib.parseQuantity && lib.parseQuantity("10Gi").Some?
    ensures FullyNamed(spec) && SizeParses(lib, spec)
  {
  }

  /** Reconcile, let the claim bind and the StatefulSet controller catch up, reconcile: the agent is
      Ready, from every cluster and for every admitted spec that nothing obstructs. */
  lemma ReachesReady(lib: Library, p: Parsers, c: Cluster, agent: string, now: nat, later: nat)
    requires p.quantity == lib.parseQuantity && lib.parseQuantity("10Gi").Some?
    requires agent in c.agents && Admitted(p, c.agents[agent].spec)
    requires InputsComplete(c.agents[agent].spec, InputsOf(c)) && NoGeneratedReference(agent, c.agents[agent].spec)
    requires Unobstructed(c, agent, c.agents[agent].spec)
    ensures var first := Reconcile(lib, c, agent, now);
      var second := Reconcile(lib, Settle(first.cluster, agent), agent, later);
      first.outcome == Done && second.outcome == Done && StatusOf(second.cluster, agent).phase == ReadyPhase
  {
    var spec := c.agents[agent].spec;
    AdmittedUsable(lib, p, spec);
    hide Reconcile, Prepare, Admitted, SizeParses, Unobstructed, Settle, InputsComplete, NoGeneratedReference,
      AllSucceed, AfterAll, Ripe, ViewStatus, FullyNamed;
    PreparedWhen(lib, c, agent, spec);
    var job := Prepare(lib, c, agent, spec).job;
    PreparedJob(lib, c, agent, spec, job);
    PreparedOutcome(lib, c, agent, job, now);
    SucceedsExactly(lib, c, job);
    var d := Reconcile(lib, c, agent, now).cluster;
    SettledCluster(lib, c, job, d);
    var e := Settle(d, agent);
    PreparedAfter(lib, c, agent, job, now);
    SucceedsExactly(lib, e, job);
    PreparedOutcome(lib, e, agent, job, later);
    RipeIsReady(lib, e, job);
  }

  lemma SettleFrame(d: Cluster, agent: string)
    ensures Settle(d, agent).agents == d.agents && InputsOf(Settle(d, agent)) == InputsOf(d)
  {
  }

  /** The second reconcile works on the same job. */
  lemma PreparedAfter(lib: Library, c: Cluster, agent: string, job: Job, now: nat)
    requires agent in c.agents && Prepare(lib, c, agent, c.agents[agent].spec) == Prepared(job)
    requires NoGeneratedReference(agent, c.agents[agent].spec)
    ensures var e := Settle(Reconcile(lib, c, agent, now).cluster, agent);
      && agent in e.agents && e.agents[agent].spec == c.agents[agent].spec
      && Prepare(lib, e, agent, c.agents[agent].spec) == Prepared(job)
  {
    var e := Settle(Reconcile(lib, c, agent, now).cluster, agent);
    var spec := c.agents[agent].spec;
    var s, d := RunStages(lib, c, job, PIPELINE), Reconcile(lib, c, agent, now).cluster;
    hide Reconcile, RunStages, NoGeneratedReference, Settle, Report, FinalChange;
    PreparedJob(lib, c, agent, spec, job);
    PreparedReconcile(lib, c, agent, job, now);
    SettleFrame(d, agent);
    SameInputsAfter(lib, c, job, PIPELINE);
    PipelineFrame(lib, c, job, PIPELINE);
    ReportFrame(s.cluster, s.writes, agent, spec, job.plan.hash, FinalChange(s, agent, spec), now, FinalOutcome(s));
    assert InputsOf(e) == InputsOf(s.cluster);
    PrepareByInputs(lib, c, e, agent, spec);
  }

  lemma PrepareByInputs(lib: Library, c: Cluster, e: Cluster, agent: string, spec: AgentSpec)
    requires Resolve(spec, InputsOf(c)) == Resolve(spec, InputsOf(e))
    ensures Prepare(lib, c, agent, spec) == Prepare(lib, e, agent, spec)
  {
    hide Resolve, MissingInputs, BuildPlan, ValidConfig;
  }

  /** After a successful reconcile every claim the stored template mounts exists under the agent's control,
      with the storage settings the spec asks for. */
  lemma ClaimsServed(lib: Library, c: Cluster, job: Job, k: nat)
    requires Planned(job) && AllSucceed(lib, c, job)
    ensures var d := AfterAll(lib, c, job);
      && job.agent in d.statefulSets
      && var volumes := d.statefulSets[job.agent].spec.template.pod.volumes;
         k < |volumes| && volumes[k].source.ClaimVolume? ==>
           var n := volumes[k].source.name;
           n in d.claims && Mine(d.claims[n].controller, job.agent) && SameStorage(job.spec, d.claims[n].spec)
  {
    WorkloadStored(c.statefulSets, job.agent, DesiredStatefulSet(job));
    var volumes := DesiredStatefulSet(job).template.pod.volumes;
    assert DesiredStatefulSet(job) ==
      BuildStatefulSet(job.agent, job.spec, BuildTemplateInputs(job.spec,
        Plan(PlanFiles(job.agent, job.spec), job.plan.hash)));
    hide GeneratedOf, ServiceOf, PolicyOf, BudgetOf, ClaimStep, WorkloadStep, BuildStatefulSet, BuildTemplateInputs,
      PlanFiles, ClaimName, SameStorage;
    if k < |volumes| && volumes[k].source.ClaimVolume? {
      Rollout.ClaimVolumesExact(job.agent, job.spec, job.plan.hash, k);
      ClaimStored(lib, c.claims, job.agent, job.spec);
    }
  }
}
