/** Whether the stored pod template can start: exactly, after every reconcile that got as far as storing it
    and after every one that failed before. */
module Serving {
  import opened Prelude
  import opened Api
  import opened Admission
  import opened References
  import opened Gate
  import opened ConfigPlan
  import opened PodTemplate
  import opened PodView
  import opened Rollout
  import opened Status
  import opened Store
  import opened Stages
  import opened Reconciliation
  import opened Guarantees
  import opened Convergence

  // ---- what a reconcile leaves, wherever it stops ---------------------------------------------

  /** The reconcile got as far as storing the workload. */
  predicate Stored(lib: Library, c: Cluster, job: Job) {
    GeneratedOf(c, job).failure.None? && ClaimOf(lib, c, job).failure.None? && WorkloadOf(c, job).failure.None?
  }

  lemma {:induction false} OptionalStagesKeep(lib: Library, c: Cluster, job: Job, todo: seq<Stage>)
    requires forall i :: 0 <= i < |todo| ==> Order(todo[i]) >= 3
    ensures var d := RunStages(lib, c, job, todo).cluster;
      d.configMaps == c.configMaps && d.secrets == c.secrets && d.statefulSets == c.statefulSets
    decreases |todo|
  {
    if todo != [] {
      var r := RunStage(lib, c, job, todo[0]);
      OptionalStageKeeps(lib, c, job, todo[0]);
      if r.failure.None? { OptionalStagesKeep(lib, r.cluster, job, todo[1..]); }
    }
  }

  lemma OptionalStageKeeps(lib: Library, c: Cluster, job: Job, stage: Stage)
    requires Order(stage) >= 3
    ensures var d := RunStage(lib, c, job, stage).cluster;
      d.configMaps == c.configMaps && d.secrets == c.secrets && d.statefulSets == c.statefulSets
  {
    hide ServiceStep, PolicyStep, BudgetStep, Terminal.EffectiveBackend;
  }

  lemma RunFirst(lib: Library, c: Cluster, job: Job, k: nat)
    requires k < |PIPELINE|
    ensures var r := RunStage(lib, c, job, PIPELINE[k]);
      var all := RunStages(lib, c, job, PIPELINE[k..]);
      var rest := RunStages(lib, r.cluster, job, PIPELINE[k + 1..]);
      if r.failure.Some? then all == r else all.cluster == rest.cluster && all.failure == rest.failure
  {
    hide RunStage;
    assert PIPELINE[k..][1..] == PIPELINE[k + 1..];
  }

  /** The first three stages, each on what the one before leaves. */
  lemma FirstStages(lib: Library, c: Cluster, job: Job)
    ensures var x := c.(configMaps := GeneratedOf(c, job).store);
      var y := x.(claims := ClaimOf(lib, c, job).store);
      && RunStage(lib, c, job, GeneratedStage) == StageResult(x, GeneratedOf(c, job).writes,
        GeneratedOf(c, job).failure)
      && RunStage(lib, x, job, ClaimStage) == StageResult(y, ClaimOf(lib, c, job).writes, ClaimOf(lib, c, job).failure)
      && RunStage(lib, y, job, WorkloadStage) ==
           StageResult(y.(statefulSets := WorkloadOf(c, job).store), WorkloadOf(c, job).writes,
             WorkloadOf(c, job).failure)
  {
    hide GeneratedStep, ClaimStep, WorkloadStep, ServiceStep, PolicyStep, BudgetStep, DesiredStatefulSet,
      Terminal.EffectiveBackend;
  }

  lemma LastStages()
    ensures PIPELINE[0..] == PIPELINE && forall i :: 0 <= i < |PIPELINE[3..]| ==> Order(PIPELINE[3..][i]) >= 3
  {
    assert PIPELINE[3..] == [ServiceStage, PolicyStage, BudgetStage];
  }

  /** The ConfigMaps are those of the generated step and the workloads those of the workload step, if it was reached. */
  lemma PipelineParts(lib: Library, c: Cluster, job: Job)
    ensures var r := RunStages(lib, c, job, PIPELINE);
      && r.cluster.secrets == c.secrets && r.cluster.configMaps == GeneratedOf(c, job).store
      && (Stored(lib, c, job) ==> r.cluster.statefulSets == WorkloadOf(c, job).store)
      && (!Stored(lib, c, job) ==> r.failure.Some? && r.cluster.statefulSets == c.statefulSets)
  {
    hide RunStage, RunStages, GeneratedOf, ClaimOf, WorkloadOf, Order;
    var x := c.(configMaps := GeneratedOf(c, job).store);
    var y := x.(claims := ClaimOf(lib, c, job).store);
    var z := y.(statefulSets := WorkloadOf(c, job).store);
    LastStages();
    FirstStages(lib, c, job);
    FailedStepsKeep(lib, c, job);
    RunFirst(lib, c, job, 0);
    RunFirst(lib, x, job, 1);
    RunFirst(lib, y, job, 2);
    OptionalStagesKeep(lib, z, job, PIPELINE[3..]);
  }

  /** No step binds or loses a claim: the bound claims are the same wherever the pipeline stops. */
  lemma {:induction false} PipelineKeepsBound(lib: Library, c: Cluster, job: Job, todo: seq<Stage>)
    ensures BoundClaims(RunStages(lib, c, job, todo).cluster) == BoundClaims(c)
    decreases |todo|
  {
    if todo != [] {
      var r := RunStage(lib, c, job, todo[0]);
      StageKeepsBound(lib, c, job, todo[0]);
      hide RunStage, BoundClaims;
      if r.failure.None? { PipelineKeepsBound(lib, r.cluster, job, todo[1..]); }
    }
  }

  lemma StageKeepsBound(lib: Library, c: Cluster, job: Job, stage: Stage)
    ensures BoundClaims(RunStage(lib, c, job, stage).cluster) == BoundClaims(c)
  {
    hide GeneratedStep, ClaimStep, WorkloadStep, ServiceStep, PolicyStep, BudgetStep, DesiredStatefulSet,
      Terminal.EffectiveBackend;
    if stage == ClaimStage {
      var after := ClaimOf(lib, c, job).store;
      forall n
        ensures n in c.claims && c.claims[n].phase == ClaimBound <==> n in after && after[n].phase == ClaimBound
      {
        if n in c.claims { Claims.ClaimStepSafe(lib, c.claims, job.agent, job.spec, n); }
        NewClaimPending(lib, c.claims, job.agent, job.spec, n);
      }
    }
  }

  lemma NewClaimPending(lib: Library, claims: map<string, Claim>, agent: string, spec: AgentSpec, n: string)
    ensures var after := ClaimStep(lib, claims, agent, spec).store;
      n !in claims && n in after ==> after[n].phase == ClaimPending
  {
    hide DriftedFields, BuildClaim, ResourceLabels, ClaimName;
  }

  lemma FailedStepsKeep(lib: Library, c: Cluster, job: Job)
    ensures WorkloadOf(c, job).failure.Some? ==> WorkloadOf(c, job).store == c.statefulSets
  {
    hide DesiredStatefulSet, ResourceLabels;
  }

  lemma ReconcileParts(lib: Library, c: Cluster, agent: string, job: Job, now: nat)
    requires agent in c.agents && Prepare(lib, c, agent, c.agents[agent].spec) == Prepared(job)
    ensures var d := Reconcile(lib, c, agent, now).cluster;
      && InputsOf(d) == Inputs(GeneratedOf(c, job).store, c.secrets) && BoundClaims(d) == BoundClaims(c)
      && d.statefulSets == (if Stored(lib, c, job) then WorkloadOf(c, job).store else c.statefulSets)
    ensures Reconcile(lib, c, agent, now).outcome == Done ==> Stored(lib, c, job)
  {
    var s := RunStages(lib, c, job, PIPELINE);
    PreparedJob(lib, c, agent, c.agents[agent].spec, job);
    PreparedReconcile(lib, c, agent, job, now);
    hide Reconcile, Prepare, RunStages, GeneratedOf, WorkloadOf, Stored, FinalChange, Report;
    PipelineParts(lib, c, job);
    PipelineKeepsBound(lib, c, job, PIPELINE);
    ReportFrame(s.cluster, s.writes, job.agent, job.spec, job.plan.hash, FinalChange(s, job.agent, job.spec), now,
      FinalOutcome(s));
    DoneMeansNoFailure(s, job, now);
  }

  lemma DoneMeansNoFailure(s: StageResult, job: Job, now: nat)
    ensures ReportStages(s, job, now).outcome == Done <==> s.failure.None?
  {
    hide FinalChange, Patched, EventsFor;
  }

  /** The stored workload of this agent can start, on what the cluster holds. */
  ghost predicate CanStart(c: Cluster, agent: string) {
    && agent in c.statefulSets
    && TemplateSatisfied(c.statefulSets[agent].spec.template.pod, InputsOf(c), BoundClaims(c))
  }

  // ---- the workload was stored ----------------------------------------------------------------

  ghost predicate SameReferences(spec: AgentSpec, c: Inputs, d: Inputs) {
    && d.secrets == c.secrets
    && forall n | ReferencesConfigMap(spec, n) :: Lookup(d.configMaps, n) == Lookup(c.configMaps, n)
  }

  lemma EnvReference(spec: AgentSpec, i: nat)
    requires i < |Upserted(spec.env, HOME_VARIABLE)|
    ensures var env := Upserted(spec.env, HOME_VARIABLE)[i];
      env.valueFrom.Some? && Named(env.valueFrom.value.configMapKeyRef) ==>
        ReferencesConfigMap(spec, env.valueFrom.value.configMapKeyRef.value.name)
  {
    var env := Upserted(spec.env, HOME_VARIABLE)[i];
    UpsertedMembers(spec.env, HOME_VARIABLE, i);
    if env in spec.env && env.valueFrom.Some? && Named(env.valueFrom.value.configMapKeyRef) {
      var j :| 0 <= j < |spec.env| && spec.env[j] == env;
      assert Selects(spec.env[j].valueFrom.value.configMapKeyRef, env.valueFrom.value.configMapKeyRef.value.name);
    }
  }

  lemma SameVariables(spec: AgentSpec, c: Inputs, d: Inputs, i: nat)
    requires SameReferences(spec, c, d) && i < |Upserted(spec.env, HOME_VARIABLE)|
    ensures ValueOf(Upserted(spec.env, HOME_VARIABLE)[i], c) == ValueOf(Upserted(spec.env, HOME_VARIABLE)[i], d)
  {
    EnvReference(spec, i);
    hide ReferencesConfigMap, Upserted;
  }

  lemma SameBinaryVariables(spec: AgentSpec, c: Inputs, d: Inputs)
    requires ValidEnv(spec.env) && SameReferences(spec, c, d)
    ensures NoBinaryVariable(spec, c) <==> NoBinaryVariable(spec, d)
  {
    forall i | 0 <= i < |Upserted(spec.env, HOME_VARIABLE)|
      ensures BinaryOnlyVariable(Upserted(spec.env, HOME_VARIABLE)[i], c) <==>
        BinaryOnlyVariable(Upserted(spec.env, HOME_VARIABLE)[i], d)
    {
      EnvReference(spec, i);
      UpsertedMembers(spec.env, HOME_VARIABLE, i);
      hide ReferencesConfigMap, Upserted;
    }
  }

  lemma ReferencesKept(c: Cluster, job: Job, spec: AgentSpec)
    requires Planned(job) && NoGeneratedReference(job.agent, spec)
    ensures SameReferences(spec, InputsOf(c), Inputs(GeneratedOf(c, job).store, c.secrets))
  {
    forall n | ReferencesConfigMap(spec, n) ensures Lookup(GeneratedOf(c, job).store, n) == Lookup(c.configMaps, n) {
      hide GeneratedNames, GeneratedStep;
      GeneratedOnly(c.configMaps, Lookup(c.statefulSets, job.agent), job.agent, job.spec, n);
    }
  }

  /** Once the workload is stored, whatever fails after it, the stored template can start exactly if no required
      variable is binary-only and the claim, if there is one, is bound. */
  lemma StoredServed(lib: Library, c: Cluster, job: Job)
    requires Planned(job) && NoGeneratedReference(job.agent, job.spec) && FullyNamed(job.spec)
    requires InputsComplete(job.spec, InputsOf(c)) && Stored(lib, c, job)
    ensures var d := Inputs(GeneratedOf(c, job).store, c.secrets);
      && job.agent in WorkloadOf(c, job).store
      && (TemplateSatisfied(WorkloadOf(c, job).store[job.agent].spec.template.pod, d, BoundClaims(c)) <==>
          NoBinaryVariable(job.spec, InputsOf(c)) && ClaimReady(job.agent, job.spec, BoundClaims(c)))
  {
    var d := Inputs(GeneratedOf(c, job).store, c.secrets);
    assert ValidEnv(job.spec.env);
    hide FullyNamed, InputsComplete, TemplateSatisfied, NoBinaryVariable, NoGeneratedReference, ClaimReady, BoundClaims;
    ReferencesKept(c, job, job.spec);
    SameBinaryVariables(job.spec, InputsOf(c), d);
    GateExact(job.spec, InputsOf(c));
    GateExact(job.spec, d);
    Observation.MatchedDeterminesInputs(job.spec, d, InputsOf(c));
    GeneratedFilesInPlace(lib, c, job);
    WorkloadStored(c.statefulSets, job.agent, DesiredStatefulSet(job));
    TemplateIntegrity(job.agent, job.spec, job.plan.hash, d, BoundClaims(c));
  }

  /** After every reconcile that stored the workload, so after every successful one, the stored template can start
      exactly if no required variable of the spec was binary-only and, with persistence on, the claim was bound. */
  lemma TemplateServed(lib: Library, c: Cluster, agent: string, now: nat)
    requires agent in c.agents && FullyNamed(c.agents[agent].spec) && NoGeneratedReference(agent, c.agents[agent].spec)
    ensures var p := Prepare(lib, c, agent, c.agents[agent].spec);
      var r := Reconcile(lib, c, agent, now);
      p.Prepared? ==>
        && (r.outcome == Done ==> Stored(lib, c, p.job))
        && (Stored(lib, c, p.job) ==>
              (CanStart(r.cluster, agent) <==>
               && NoBinaryVariable(c.agents[agent].spec, InputsOf(c))
               && ClaimReady(agent, c.agents[agent].spec, BoundClaims(c))))
  {
    hide Reconcile, Prepare, TemplateSatisfied, InputsComplete, FullyNamed, NoGeneratedReference, NoBinaryVariable,
      Stored, GeneratedOf, WorkloadOf, ClaimReady, BoundClaims;
    var spec := c.agents[agent].spec;
    var p := Prepare(lib, c, agent, spec);
    if p.Prepared? {
      PreparedWhen(lib, c, agent, spec);
      PreparedJob(lib, c, agent, spec, p.job);
      ReconcileParts(lib, c, agent, p.job, now);
      if Stored(lib, c, p.job) { StoredServed(lib, c, p.job); }
    }
  }

  /** Phase Ready leaves one way for a template not to start: a required variable that is binary-only. */
  lemma ReadyServed(lib: Library, c: Cluster, agent: string, now: nat)
    requires WellFormed(c) && agent in c.agents
    requires FullyNamed(c.agents[agent].spec) && NoGeneratedReference(agent, c.agents[agent].spec)
    ensures var d := Reconcile(lib, c, agent, now).cluster;
      StatusOf(d, agent).phase == ReadyPhase ==>
        (CanStart(d, agent) <==> NoBinaryVariable(c.agents[agent].spec, InputsOf(c)))
  {
    hide Reconcile, Prepare, CanStart, Stored, FullyNamed, NoGeneratedReference, NoBinaryVariable, WellFormed,
      AllSucceed, AfterAll, ViewStatus, Resolve, ClaimName, DesiredStatefulSet, PersistenceEnabled;
    var spec := c.agents[agent].spec;
    var p, r := Prepare(lib, c, agent, spec), Reconcile(lib, c, agent, now);
    if StatusOf(r.cluster, agent).phase == ReadyPhase {
      ReadySound(lib, c, agent, now);
      PreparedJob(lib, c, agent, spec, p.job);
      PreparedOutcome(lib, c, agent, p.job, now);
      ReconcileParts(lib, c, agent, p.job, now);
      TemplateServed(lib, c, agent, now);
      assert ClaimReady(agent, spec, BoundClaims(r.cluster));
    }
  }

  // ---- the binary-only variable ------------------------------------------------------------------

  function VariableFrom(name: string, key: string): EnvVar {
    EnvVar("V", "", Some(EnvVarSource(Some(KeySelector(name, key, None)), None, None)))
  }

  /** For all names, keys and bytes: a required variable whose key is binary data passes the gate and stays unbound. */
  lemma BinaryVariableUnbound(c: Inputs, name: string, key: string)
    requires name != "" && key != "" && name in c.configMaps
    requires key in c.configMaps[name].binaryData && key !in c.configMaps[name].data
    ensures var env := VariableFrom(name, key);
      && ValidEnvVar(env) && EnvComplete(env, c) && FlatMap(Messages, EnvValueSnapshots(env, c)) == []
      && BinaryOnlyVariable(env, c) && ValueOf(env, c) == Unbound
  {
    var env := VariableFrom(name, key);
    var snapshots := EnvValueSnapshots(env, c);
    assert |snapshots| == 1 && Messages(snapshots[0]) == [];
    FlatMapEmpty(Messages, snapshots);
  }

  /** Nothing stands in the way of the reconcile itself. */
  ghost predicate Reconcilable(lib: Library, c: Cluster, agent: string, spec: AgentSpec) {
    && FullyNamed(spec) && NoGeneratedReference(agent, spec) && InputsComplete(spec, InputsOf(c))
    && SizeParses(lib, spec) && Unobstructed(c, agent, spec)
  }

  /** A reconcile that nothing obstructs ends without error whether or not the pod can start. */
  lemma DoneYetServed(lib: Library, c: Cluster, agent: string, now: nat)
    requires agent in c.agents && Reconcilable(lib, c, agent, c.agents[agent].spec)
    ensures var r := Reconcile(lib, c, agent, now);
      && r.outcome == Done
      && (CanStart(r.cluster, agent) <==>
          && NoBinaryVariable(c.agents[agent].spec, InputsOf(c))
          && ClaimReady(agent, c.agents[agent].spec, BoundClaims(c)))
  {
    hide Reconcile, Prepare, CanStart, InputsComplete, FullyNamed, NoGeneratedReference, NoBinaryVariable,
      Stored, Unobstructed, SizeParses, ClaimReady, BoundClaims;
    PreparedWhen(lib, c, agent, c.agents[agent].spec);
    DoneExactly(lib, c, agent, now);
    TemplateServed(lib, c, agent, now);
  }

  /** A successful reconcile that leaves a pod unable to start: every agent with a binary-only variable. */
  lemma BinaryVariableStuck(lib: Library, c: Cluster, agent: string, now: nat, i: nat)
    requires agent in c.agents && Reconcilable(lib, c, agent, c.agents[agent].spec)
    requires i < |Upserted(c.agents[agent].spec.env, HOME_VARIABLE)|
    requires BinaryOnlyVariable(Upserted(c.agents[agent].spec.env, HOME_VARIABLE)[i], InputsOf(c))
    ensures var r := Reconcile(lib, c, agent, now); r.outcome == Done && !CanStart(r.cluster, agent)
  {
    assert !NoBinaryVariable(c.agents[agent].spec, InputsOf(c));
    hide Reconcile, CanStart, NoBinaryVariable, ClaimReady, BoundClaims, Reconcilable;
    DoneYetServed(lib, c, agent, now);
  }

  /** Another one: every agent with persistence whose claim is lost, pending or not there yet. */
  lemma UnboundClaimStuck(lib: Library, c: Cluster, agent: string, now: nat)
    requires agent in c.agents && Reconcilable(lib, c, agent, c.agents[agent].spec)
    requires PersistenceEnabled(c.agents[agent].spec)
    requires ClaimName(agent) in c.claims ==> c.claims[ClaimName(agent)].phase != ClaimBound
    ensures var r := Reconcile(lib, c, agent, now); r.outcome == Done && !CanStart(r.cluster, agent)
  {
    assert !ClaimReady(agent, c.agents[agent].spec, BoundClaims(c));
    hide Reconcile, CanStart, NoBinaryVariable, ClaimReady, BoundClaims, Reconcilable, ClaimName;
    DoneYetServed(lib, c, agent, now);
  }

  // ---- the workload was not stored ---------------------------------------------------------------

  lemma VolumeReference(agent: string, spec: AgentSpec, hash: string, k: nat)
    requires k < |BuildStatefulSet(agent, spec, BuildTemplateInputs(spec,
      Plan(PlanFiles(agent, spec), hash))).template.pod.volumes|
    ensures var files := PlanFiles(agent, spec);
      var source := BuildStatefulSet(agent, spec, BuildTemplateInputs(spec,
        Plan(files, hash))).template.pod.volumes[k].source;
      && (k < |files| ==> source == ConfigFileSource(files[k]))
      && (source.ConfigMapVolume? ==> ReferencesConfigMap(spec, source.name) || (k < |files| && files[k].generated))
  {
    hide PlanFiles, BuildStatefulSet, BuildTemplateInputs, SecretVolumes, FileVolumes, ClaimName;
    var files, s, f := PlanFiles(agent, spec), SecretVolumes(spec.secretRefs), FileVolumes(spec.fileMounts);
    PodVolumes(agent, spec, hash);
    var volumes := ConfigVolumes(files) + s + f + FixedVolumes(agent, spec);
    if k < |files| {
      PlannedFile(agent, spec, k);
    } else if k < |files| + |s| {
      SecretVolumeOrigin(spec.secretRefs, k - |files|);
    } else if k < |files| + |s| + |f| {
      FileVolumeOrigin(spec.fileMounts, k - |files| - |s|);
      var i :| 0 <= i < |spec.fileMounts| && FileMountSource(spec.fileMounts[i]) == Some(f[k - |files| - |s|].source);
      assert volumes[k].source.ConfigMapVolume? ==> spec.fileMounts[i].configMapRef == Some(volumes[k].source.name);
    }
  }

  /** Every generated file of the plan can be mounted. */
  ghost predicate GeneratedServed(files: seq<ConfigFile>, c: Inputs) {
    forall i :: 0 <= i < |files| && files[i].generated ==> VolumeContents(ConfigFileSource(files[i]), c) != Unavailable
  }

  /** A template whose inputs were all there still has them exactly if its generated files are still there. */
  lemma StillSatisfied(agent: string, spec: AgentSpec, hash: string, c: Inputs, d: Inputs)
    requires SameReferences(spec, c, d)
    requires InputsSatisfied(BuildStatefulSet(agent, spec,
      BuildTemplateInputs(spec, Plan(PlanFiles(agent, spec), hash))).template.pod, c)
    ensures InputsSatisfied(BuildStatefulSet(agent, spec,
      BuildTemplateInputs(spec, Plan(PlanFiles(agent, spec), hash))).template.pod, d)
      <==> GeneratedServed(PlanFiles(agent, spec), d)
  {
    var files := PlanFiles(agent, spec);
    var pod := BuildStatefulSet(agent, spec, BuildTemplateInputs(spec, Plan(files, hash))).template.pod;
    assert pod.env == Upserted(spec.env, HOME_VARIABLE) && pod.envFrom == spec.envFrom && |pod.volumes| >= |files|;
    hide PlanFiles, BuildStatefulSet, BuildTemplateInputs, Upserted, ValueOf, ConfigFileSource;
    forall k | 0 <= k < |pod.volumes|
      ensures k < |files| ==> pod.volumes[k].source == ConfigFileSource(files[k])
      ensures VolumeContents(pod.volumes[k].source, d) != Unavailable <==>
        (k < |files| && files[k].generated ==> VolumeContents(ConfigFileSource(files[k]), d) != Unavailable)
    {
      VolumeReference(agent, spec, hash, k);
      hide ReferencesConfigMap, Materialise;
    }
    forall i | 0 <= i < |pod.env| ensures ValueOf(pod.env[i], d) != Unbound { SameVariables(spec, c, d, i); }
    forall i | 0 <= i < |pod.envFrom| ensures BundleAvailable(pod.envFrom[i], d) { SameBundle(spec, c, d, i); }
    hide VolumeContents, BundleAvailable, SameReferences;
  }

  lemma SameBundle(spec: AgentSpec, c: Inputs, d: Inputs, i: nat)
    requires SameReferences(spec, c, d) && i < |spec.envFrom|
    ensures BundleAvailable(spec.envFrom[i], c) <==> BundleAvailable(spec.envFrom[i], d)
  {
    var source := spec.envFrom[i];
    if NamedSource(source.configMapRef) {
      assert Draws(spec.envFrom[i].configMapRef, source.configMapRef.value.name);
      assert ReferencesConfigMap(spec, source.configMapRef.value.name);
    }
    hide ReferencesConfigMap;
  }

  // ---- which generated files survive ----------------------------------------------------------------

  predicate HoldsKey(configMaps: ConfigMaps, n: string, key: string) {
    n in configMaps && key in ConfigMapFiles(configMaps[n])
  }

  lemma {:induction false} InlineKeepsKey(configMaps: ConfigMaps, agent: string, files: seq<ConfigFile>, n: string,
        key: string)
    requires HoldsKey(configMaps, n, key)
    requires forall i :: 0 <= i < |files| && files[i].generated && files[i].configMapName == n ==>
      files[i].sourceKey == key
    ensures HoldsKey(InlineSteps(configMaps, agent, files).store, n, key)
    decreases |files|
  {
    if files != [] {
      var rest := files[1..];
      assert forall i :: 0 <= i < |rest| ==> rest[i] == files[i + 1];
      if files[0].generated {
        var first := InlineConfigMapStep(configMaps, agent, files[0]);
        InlineStepKeepsKey(configMaps, agent, files[0], n, key);
        InlineKeepsKey(first.store, agent, rest, n, key);
      } else {
        InlineKeepsKey(configMaps, agent, rest, n, key);
      }
    }
  }

  lemma InlineStepKeepsKey(configMaps: ConfigMaps, agent: string, file: ConfigFile, n: string, key: string)
    requires HoldsKey(configMaps, n, key) && (file.configMapName == n ==> file.sourceKey == key)
    ensures HoldsKey(InlineConfigMapStep(configMaps, agent, file).store, n, key)
  {
    hide ResourceLabels;
  }

  lemma CleanupExact(configMaps: ConfigMaps, agent: string, keep: set<string>, n: string)
    requires n in GeneratedNames(agent) && n !in keep
    ensures Lookup(Cleanup(configMaps, agent, keep).store, n) ==
      if n in configMaps && configMaps[n].controller == Some(AgentOwner(agent)) then None else Lookup(configMaps, n)
  {
    GeneratedNamesDiffer(agent);
    hide GeneratedConfigMapName;
  }

  lemma GeneratedFile(agent: string, spec: AgentSpec, i: nat)
    requires i < |PlanFiles(agent, spec)| && PlanFiles(agent, spec)[i].generated
    ensures var file := PlanFiles(agent, spec)[i];
      && file.secretName == "" && file.configMapName in GeneratedNames(agent)
      && file.sourceKey == (if file.configMapName == GeneratedConfigMapName(agent, CONFIG_ID) then "config.yaml"
        else "gateway.json")
  {
    GeneratedNamesDiffer(agent);
    hide GeneratedConfigMapName;
  }

  lemma FileAvailable(file: ConfigFile, c: Inputs)
    requires file.secretName == ""
    ensures VolumeContents(ConfigFileSource(file), c) != Unavailable <==>
      HoldsKey(c.configMaps, file.configMapName, file.sourceKey)
  {
    var items := [KeyToPath(file.sourceKey, file.fileName, None)];
    if file.configMapName in c.configMaps {
      ProjectExact(items, ConfigMapFiles(c.configMaps[file.configMapName]));
      assert items[0].key == file.sourceKey;
    }
  }

  /** Cleanup takes this name from under a workload that still mounts it. */
  ghost predicate Taken(c: Cluster, job: Job, n: string) {
    && CleanupDue(Lookup(c.statefulSets, job.agent)) && FilesFree(c.configMaps, job.agent, DesiredNames(job.plan.files))
    && n !in DesiredNames(job.plan.files) && n in c.configMaps && Mine(c.configMaps[n].controller, job.agent)
  }

  lemma GeneratedKeyKept(c: Cluster, job: Job, n: string, key: string)
    requires Planned(job) && n in GeneratedNames(job.agent) && HoldsKey(c.configMaps, n, key)
    requires key == (if n == GeneratedConfigMapName(job.agent, CONFIG_ID) then "config.yaml" else "gateway.json")
    ensures HoldsKey(GeneratedOf(c, job).store, n, key) <==> !Taken(c, job, n)
  {
    hide InlineSteps, Cleanup, FilesFree, DesiredNames, GeneratedConfigMapName, ConfigMapFiles, PlanFiles,
      DistinctGenerated;
    var agent, files := job.agent, job.plan.files;
    var inlined := InlineSteps(c.configMaps, agent, files);
    PlanShape(agent, job.spec);
    InlineSucceeds(c.configMaps, agent, files);
    forall i | 0 <= i < |files| && files[i].generated && files[i].configMapName == n ensures files[i].sourceKey == key {
      GeneratedFile(agent, job.spec, i);
    }
    InlineKeepsKey(c.configMaps, agent, files, n, key);
    var keep := DesiredNames(files);
    CleanupSettles(inlined.store, agent, keep);
    if n !in keep {
      InlineOnlyDesired(c.configMaps, agent, files, n);
      CleanupExact(inlined.store, agent, keep, n);
    }
  }

  /** Some generated file of the earlier spec is taken from under the stored workload. */
  ghost predicate Stranded(c: Cluster, job: Job, earlier: AgentSpec) {
    exists n :: n in DesiredNames(PlanFiles(job.agent, earlier)) && Taken(c, job, n)
  }

  lemma GeneratedFileKept(c: Cluster, job: Job, earlier: AgentSpec, i: nat)
    requires Planned(job) && GeneratedServed(PlanFiles(job.agent, earlier), InputsOf(c))
    requires i < |PlanFiles(job.agent, earlier)| && PlanFiles(job.agent, earlier)[i].generated
    ensures var file := PlanFiles(job.agent, earlier)[i];
      VolumeContents(ConfigFileSource(file), Inputs(GeneratedOf(c, job).store, c.secrets)) != Unavailable <==>
        !Taken(c, job, file.configMapName)
  {
    hide VolumeContents, Taken, GeneratedOf, PlanFiles, GeneratedNames, GeneratedConfigMapName, ConfigFileSource,
      HoldsKey;
    var file := PlanFiles(job.agent, earlier)[i];
    GeneratedFile(job.agent, earlier, i);
    FileAvailable(file, InputsOf(c));
    FileAvailable(file, Inputs(GeneratedOf(c, job).store, c.secrets));
    GeneratedKeyKept(c, job, file.configMapName, file.sourceKey);
  }

  lemma GeneratedServedExactly(c: Cluster, job: Job, earlier: AgentSpec)
    requires Planned(job) && GeneratedServed(PlanFiles(job.agent, earlier), InputsOf(c))
    ensures GeneratedServed(PlanFiles(job.agent, earlier), Inputs(GeneratedOf(c, job).store, c.secrets)) <==>
      !Stranded(c, job, earlier)
  {
    var files, d := PlanFiles(job.agent, earlier), Inputs(GeneratedOf(c, job).store, c.secrets);
    hide VolumeContents, Taken, GeneratedOf, PlanFiles, ConfigFileSource;
    forall i | 0 <= i < |files| && files[i].generated
      ensures VolumeContents(ConfigFileSource(files[i]), d) != Unavailable <==> !Taken(c, job, files[i].configMapName)
      ensures files[i].configMapName in DesiredNames(files)
    {
      GeneratedFileKept(c, job, earlier, i);
    }
    if n :| n in DesiredNames(files) && Taken(c, job, n) {
      var file :| file in files && file.generated && file.configMapName == n;
      var i :| 0 <= i < |files| && files[i] == file;
    }
  }

  /** After a reconcile that failed before storing the workload, a stored template that could start still can if and
      only if cleanup did not take a generated file of the earlier spec from under it. */
  lemma StrandedExactly(lib: Library, c: Cluster, agent: string, job: Job, now: nat, earlier: AgentSpec, hash: string)
    requires agent in c.agents && Prepare(lib, c, agent, c.agents[agent].spec) == Prepared(job) && !Stored(lib, c, job)
    requires agent in c.statefulSets && NoGeneratedReference(agent, earlier)
    requires c.statefulSets[agent].spec == BuildStatefulSet(agent, earlier,
      BuildTemplateInputs(earlier, Plan(PlanFiles(agent, earlier), hash)))
    ensures var d := Reconcile(lib, c, agent, now).cluster;
      && d.statefulSets == c.statefulSets
      && (CanStart(c, agent) ==> (CanStart(d, agent) <==> !Stranded(c, job, earlier)))
  {
    hide Reconcile, Prepare, InputsSatisfied, ClaimsBound, NoGeneratedReference, Stored, GeneratedOf, WorkloadOf,
      BuildStatefulSet, BuildTemplateInputs, PlanFiles, SameReferences, GeneratedServed, Stranded, BoundClaims;
    PreparedJob(lib, c, agent, c.agents[agent].spec, job);
    ReconcileParts(lib, c, agent, job, now);
    if CanStart(c, agent) {
      ReferencesKept(c, job, earlier);
      SameToItself(earlier, InputsOf(c));
      StillSatisfied(agent, earlier, hash, InputsOf(c), InputsOf(c));
      StillSatisfied(agent, earlier, hash, InputsOf(c), Inputs(GeneratedOf(c, job).store, c.secrets));
      GeneratedServedExactly(c, job, earlier);
    }
  }

  lemma SameToItself(spec: AgentSpec, c: Inputs)
    ensures SameReferences(spec, c, c)
  {
  }

  /** Any stored template, whoever built it, that mounts a taken ConfigMap cannot start after such a failure. */
  lemma CleanupCanStrand(lib: Library, c: Cluster, job: Job, n: string, k: nat)
    requires Planned(job) && job.agent in c.statefulSets && n in GeneratedNames(job.agent) && Taken(c, job, n)
      && !Stored(lib, c, job)
    requires var pod := c.statefulSets[job.agent].spec.template.pod;
      k < |pod.volumes| && pod.volumes[k].source.ConfigMapVolume? && pod.volumes[k].source.name == n
    ensures var r := RunStages(lib, c, job, PIPELINE);
      && r.failure.Some? && r.cluster.statefulSets == c.statefulSets
      && !CanStart(r.cluster, job.agent)
  {
    var pod := c.statefulSets[job.agent].spec.template.pod;
    GeneratedSucceeds(c, job);
    StaleRemoved(c.configMaps, Lookup(c.statefulSets, job.agent), job.agent, job.plan.files, n);
    TakenGone(c, job, n);
    hide GeneratedOf, RunStages, Stored, GeneratedNames, FilesFree, DesiredNames, GeneratedStep;
    PipelineParts(lib, c, job);
    assert VolumeContents(pod.volumes[k].source, InputsOf(RunStages(lib, c, job, PIPELINE).cluster)) == Unavailable;
  }

  lemma TakenGone(c: Cluster, job: Job, n: string)
    requires Planned(job) && n in GeneratedNames(job.agent) && Taken(c, job, n)
    ensures n !in GeneratedOf(c, job).store
  {
    var inlined := InlineSteps(c.configMaps, job.agent, job.plan.files);
    PlanShape(job.agent, job.spec);
    InlineSucceeds(c.configMaps, job.agent, job.plan.files);
    InlineOnlyDesired(c.configMaps, job.agent, job.plan.files, n);
    CleanupExact(inlined.store, job.agent, DesiredNames(job.plan.files), n);
    hide InlineSteps, Cleanup, FilesFree, DesiredNames, GeneratedNames;
  }
}
