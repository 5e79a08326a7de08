/** Each step settles at once: run again on its own result it writes nothing and says the same. */
module Stages {
  import opened Prelude
  import opened Api
  import opened ConfigPlan
  import opened PodTemplate
  import opened Status
  import opened Store
  import opened Terminal

  // ---- single steps -----------------------------------------------------------------------

  ghost predicate Idle<T>(store: map<string, T>, again: Changed<T>, failure: Option<Failure>) {
    again == Changed(store, [], failure)
  }

  lemma ApplySettles<T>(store: map<string, T>, resource: Resource, name: string, controller: Option<Owner>, me: Owner,
        desired: T)
    requires controller.None? || controller == Some(me)
    ensures var r := CreateOrUpdate(store, resource, name, controller, me, desired);
      r.failure.None? && r.store == store[name := desired] && CreateOrUpdate(r.store, resource, name, Some(me), me,
        desired) == Unchanged(r.store)
  {
    if name in store && store[name] == desired { assert store[name := desired] == store; }
  }

  lemma InlineSettles(configMaps: ConfigMaps, agent: string, file: ConfigFile)
    ensures var r := InlineConfigMapStep(configMaps, agent, file);
      && Idle(r.store, InlineConfigMapStep(r.store, agent, file), r.failure)
      && (forall n | n != file.configMapName :: Lookup(r.store, n) == Lookup(configMaps, n))
  {
    var existing := Lookup(configMaps, file.configMapName);
    var controller := if existing.Some? then existing.value.controller else None;
    if controller.None? || controller == Some(AgentOwner(agent)) {
      var desired := GeneratedConfigMap(agent, file, existing);
      ApplySettles(configMaps, ConfigMapResource, file.configMapName, controller, AgentOwner(agent), desired);
      assert GeneratedConfigMap(agent, file, Some(desired)) == desired by {
        assert desired.labels + ResourceLabels(agent) == desired.labels;
      }
    }
  }

  lemma InlineFrame(a: ConfigMaps, b: ConfigMaps, agent: string, file: ConfigFile, failure: Option<Failure>)
    requires Lookup(a, file.configMapName) == Lookup(b, file.configMapName)
    requires Idle(a, InlineConfigMapStep(a, agent, file), failure)
    ensures Idle(b, InlineConfigMapStep(b, agent, file), failure)
  {
  }

  // ---- the generated ConfigMaps -----------------------------------------------------------------

  ghost predicate DistinctGenerated(files: seq<ConfigFile>) {
    forall i, j :: 0 <= i < j < |files| && files[i].generated && files[j].generated ==>
      files[i].configMapName != files[j].configMapName
  }

  lemma DesiredTail(files: seq<ConfigFile>)
    requires files != []
    ensures DesiredNames(files) == DesiredNames(files[1..])
      + (if files[0].generated then {files[0].configMapName} else {})
  {
    assert files == [files[0]] + files[1..];
  }

  lemma {:induction false} InlineStepsFrame(a: ConfigMaps, b: ConfigMaps, agent: string, files: seq<ConfigFile>,
        failure: Option<Failure>)
    requires forall n | n in DesiredNames(files) :: Lookup(a, n) == Lookup(b, n)
    requires Idle(a, InlineSteps(a, agent, files), failure)
    ensures Idle(b, InlineSteps(b, agent, files), failure)
    decreases |files|
  {
    if files != [] {
      DesiredTail(files);
      if files[0].generated {
        var first := InlineConfigMapStep(a, agent, files[0]);
        InlineNoWrites(a, agent, files);
        InlineFrame(a, b, agent, files[0], first.failure);
        if first.failure.None? { InlineStepsFrame(a, b, agent, files[1..], failure); }
      } else {
        InlineStepsFrame(a, b, agent, files[1..], failure);
      }
    }
  }

  /** A run of inline steps that made no write changed nothing, at any point. */
  lemma {:induction false} InlineNoWrites(configMaps: ConfigMaps, agent: string, files: seq<ConfigFile>)
    ensures var r := InlineSteps(configMaps, agent, files); r.writes == [] ==> r.store == configMaps
    ensures files != [] && files[0].generated && InlineSteps(configMaps, agent, files).writes == [] ==>
      InlineConfigMapStep(configMaps, agent, files[0]).store == configMaps
        && InlineConfigMapStep(configMaps, agent, files[0]).writes == []
    decreases |files|
  {
    if files != [] {
      var first := InlineConfigMapStep(configMaps, agent, files[0]);
      InlineNoWrites(if files[0].generated then first.store else configMaps, agent, files[1..]);
    }
  }

  lemma {:induction false} InlineStepsSettle(configMaps: ConfigMaps, agent: string, files: seq<ConfigFile>)
    requires DistinctGenerated(files)
    ensures var r := InlineSteps(configMaps, agent, files);
      && Idle(r.store, InlineSteps(r.store, agent, files), r.failure)
      && (forall n | n !in DesiredNames(files) :: Lookup(r.store, n) == Lookup(configMaps, n))
    decreases |files|
  {
    if files != [] {
      DesiredTail(files);
      assert forall i :: 0 <= i < |files| - 1 ==> files[1..][i] == files[i + 1];
      if files[0].generated {
        var first := InlineConfigMapStep(configMaps, agent, files[0]);
        InlineSettles(configMaps, agent, files[0]);
        if first.failure.None? {
          InlineStepsSettle(first.store, agent, files[1..]);
          assert files[0].configMapName !in DesiredNames(files[1..]);
          InlineFrame(first.store, InlineSteps(first.store, agent, files[1..]).store, agent, files[0], None);
        }
      } else {
        InlineStepsSettle(configMaps, agent, files[1..]);
      }
    }
  }

  ghost predicate InPlace(configMaps: ConfigMaps, agent: string, file: ConfigFile) {
    && file.configMapName in configMaps
    && configMaps[file.configMapName].controller == Some(AgentOwner(agent))
    && configMaps[file.configMapName].data == map[file.sourceKey := file.content]
  }

  /** A store on which the inline steps are idle holds every generated file. */
  lemma {:induction false} IdleMeansInPlace(configMaps: ConfigMaps, agent: string, files: seq<ConfigFile>)
    requires Idle(configMaps, InlineSteps(configMaps, agent, files), None)
    ensures forall i :: 0 <= i < |files| && files[i].generated ==> InPlace(configMaps, agent, files[i])
    decreases |files|
  {
    if files != [] {
      InlineNoWrites(configMaps, agent, files);
      assert forall i :: 1 <= i < |files| ==> files[1..][i - 1] == files[i];
      IdleMeansInPlace(configMaps, agent, files[1..]);
      if files[0].generated {
        var step := InlineConfigMapStep(configMaps, agent, files[0]);
        assert step == Changed(configMaps, [], None);
        assert configMaps[files[0].configMapName] == GeneratedConfigMap(agent, files[0],
          Lookup(configMaps, files[0].configMapName));
        assert InPlace(configMaps, agent, files[0]);
      }
      forall i | 0 <= i < |files| && files[i].generated ensures InPlace(configMaps, agent, files[i]) {
        if i > 0 { assert files[1..][i - 1].generated; }
      }
    }
  }

  lemma CleanupSettles(configMaps: ConfigMaps, agent: string, keep: set<string>)
    ensures var r := Cleanup(configMaps, agent, keep);
      && r.failure.None? && Cleanup(r.store, agent, keep) == Unchanged(r.store)
      && (forall n | n in keep || n !in GeneratedNames(agent) :: Lookup(r.store, n) == Lookup(configMaps, n))
      && (r.writes == [] ==> r.store == configMaps)
  {
    GeneratedNamesDiffer(agent);
  }

  /** The workload is rolled out: its generation observed and its replicas ready, one if it does not say how many. */
  predicate CleanupDue(statefulSet: Option<StatefulSet>) {
    && statefulSet.Some?
    && statefulSet.value.generation <= statefulSet.value.observedGeneration
    && match statefulSet.value.spec.replicas
       case None => statefulSet.value.readyReplicas >= 1
       case Some(replicas) => statefulSet.value.readyReplicas >= replicas
  }

  lemma GeneratedSettles(configMaps: ConfigMaps, statefulSet: Option<StatefulSet>, agent: string,
        files: seq<ConfigFile>)
    requires DistinctGenerated(files)
    ensures var r := GeneratedStep(configMaps, statefulSet, agent, files);
      Idle(r.store, GeneratedStep(r.store, statefulSet, agent, files), r.failure)
  {
    var inlined := InlineSteps(configMaps, agent, files);
    InlineStepsSettle(configMaps, agent, files);
    if CleanupDue(statefulSet) && inlined.failure.None? {
      var keep := DesiredNames(files);
      CleanupSettles(inlined.store, agent, keep);
      InlineStepsFrame(inlined.store, Cleanup(inlined.store, agent, keep).store, agent, files, None);
    }
  }

  /** A settled store stays settled when the workload is no more ready than it was. */
  lemma GeneratedStaysSettled(configMaps: ConfigMaps, before: Option<StatefulSet>, after: Option<StatefulSet>,
        agent: string, files: seq<ConfigFile>)
    requires Idle(configMaps, GeneratedStep(configMaps, before, agent, files), None)
    requires CleanupDue(after) ==> CleanupDue(before)
    ensures Idle(configMaps, GeneratedStep(configMaps, after, agent, files), None)
  {
    var inlined := InlineSteps(configMaps, agent, files);
    InlineNoWrites(configMaps, agent, files);
    CleanupSettles(inlined.store, agent, DesiredNames(files));
  }

  // ---- claim, workload, optional resources ---------------------------------------------------------------

  lemma LabelsAbsorbed(labels: map<string, string>, agent: string)
    ensures labels + ResourceLabels(agent) + ResourceLabels(agent) == labels + ResourceLabels(agent)
  {
  }

  lemma ClaimSettles(lib: Library, claims: map<string, Claim>, agent: string, spec: AgentSpec)
    ensures var r := ClaimStep(lib, claims, agent, spec); Idle(r.store, ClaimStep(lib, r.store, agent, spec), r.failure)
  {
    var name, me, request := ClaimName(agent), AgentOwner(agent), lib.parseQuantity(PersistenceSize(spec));
    if PersistenceEnabled(spec) && request.Some? {
      if name !in claims {
        LabelsAbsorbed(map[], agent);
        assert map[] + ResourceLabels(agent) == ResourceLabels(agent);
        assert SameModes(PersistenceAccessModes(spec), PersistenceAccessModes(spec));
      } else {
        LabelsAbsorbed(claims[name].labels, agent);
      }
    }
  }

  lemma WorkloadSettles(statefulSets: map<string, StatefulSet>, agent: string, desired: StatefulSetSpec)
    ensures var r := WorkloadStep(statefulSets, agent, desired); Idle(r.store, WorkloadStep(r.store, agent, desired),
      r.failure)
  {
    if agent in statefulSets {
      LabelsAbsorbed(statefulSets[agent].labels, agent);
    } else {
      LabelsAbsorbed(map[], agent);
      assert map[] + ResourceLabels(agent) == ResourceLabels(agent);
    }
  }

  lemma OptionalSettles<T>(store: map<string, T>, resource: Resource, agent: string, enabled: bool,
        controller: Option<Owner>, desired: T)
    requires agent !in store ==> controller.None?
    ensures var r := OptionalStep(store, resource, agent, enabled, controller, desired);
      var again := if !enabled && r.writes != [] then None else if r.failure.None?
        && enabled then Some(AgentOwner(agent)) else controller;
      Idle(r.store, OptionalStep(r.store, resource, agent, enabled, again, desired), r.failure)
  {
    if enabled && agent in store && controller == Some(AgentOwner(agent))
      && store[agent] == desired { assert store[agent := desired] == store; }
  }

  lemma ServiceSettles(services: map<string, Service>, agent: string, spec: AgentSpec)
    ensures var r := ServiceStep(services, agent, spec); Idle(r.store, ServiceStep(r.store, agent, spec), r.failure)
  {
    var existing := Lookup(services, agent);
    var desired := DesiredService(agent, spec, existing);
    assert DesiredService(agent, spec, Some(desired)) == desired by {
      LabelsAbsorbed(if existing.Some? then existing.value.labels else map[], agent);
    }
    OptionalSettles(services, ServiceResource, agent, spec.service.enabled,
      if existing.Some? then existing.value.controller else None, desired);
  }

  lemma PolicySettles(policies: map<string, Policy>, agent: string, spec: AgentSpec, backend: string)
    ensures var r := PolicyStep(policies, agent, spec, backend); Idle(r.store,
      PolicyStep(r.store, agent, spec, backend), r.failure)
  {
    hide Egress.EgressRules, ResourceLabels;
    LabelsAbsorbed(if agent in policies then policies[agent].labels else map[], agent);
  }

  lemma BudgetSettles(budgets: map<string, Budget>, agent: string, spec: AgentSpec)
    ensures var r := BudgetStep(budgets, agent, spec); Idle(r.store, BudgetStep(r.store, agent, spec), r.failure)
  {
    LabelsAbsorbed(if agent in budgets then budgets[agent].labels else map[], agent);
  }

  // ---- the pipeline -----------------------------------------------------------------------------------------

  /** The StatefulSet controller never observes a generation that does not exist yet. */
  ghost predicate WellFormed(c: Cluster) {
    forall n | n in c.statefulSets :: c.statefulSets[n].observedGeneration <= c.statefulSets[n].generation
  }

  function Order(stage: Stage): nat {
    match stage
    case GeneratedStage => 0
    case ClaimStage => 1
    case WorkloadStage => 2
    case ServiceStage => 3
    case PolicyStage => 4
    case BudgetStage => 5
  }

  ghost predicate SettledAt(lib: Library, c: Cluster, job: Job, stage: Stage, failure: Option<Failure>) {
    RunStage(lib, c, job, stage) == StageResult(c, [], failure)
  }

  lemma StageSettles(lib: Library, c: Cluster, job: Job, stage: Stage)
    requires DistinctGenerated(job.plan.files)
    ensures var r := RunStage(lib, c, job, stage); SettledAt(lib, r.cluster, job, stage, r.failure)
  {
    match stage
    case GeneratedStage => GeneratedSettles(c.configMaps, Lookup(c.statefulSets, job.agent), job.agent, job.plan.files);
    case ClaimStage => ClaimSettles(lib, c.claims, job.agent, job.spec);
    case WorkloadStage => WorkloadSettles(c.statefulSets, job.agent, DesiredStatefulSet(job));
    case ServiceStage => ServiceSettles(c.services, job.agent, job.spec);
    case PolicyStage => PolicySettles(c.policies, job.agent, job.spec, EffectiveBackend(lib, job.spec, job.inputs));
    case BudgetStage => BudgetSettles(c.budgets, job.agent, job.spec);
  }

  /** Storing a new StatefulSet spec postpones cleanup: the bumped generation is not observed yet. */
  lemma WorkloadPostponesCleanup(statefulSets: map<string, StatefulSet>, agent: string, desired: StatefulSetSpec)
    requires agent in statefulSets ==> statefulSets[agent].observedGeneration <= statefulSets[agent].generation
    ensures var after := Lookup(WorkloadStep(statefulSets, agent, desired).store, agent);
      CleanupDue(after) ==>
        CleanupDue(Lookup(statefulSets, agent)) && statefulSets[agent].spec == after.value.spec
  {
  }

  lemma StageWellFormed(lib: Library, c: Cluster, job: Job, stage: Stage)
    requires WellFormed(c)
    ensures WellFormed(RunStage(lib, c, job, stage).cluster)
  {
  }

  lemma LaterStageKeepsSettled(lib: Library, c: Cluster, job: Job, stage: Stage, later: Stage)
    requires WellFormed(c) && Order(stage) < Order(later) && SettledAt(lib, c, job, stage, None)
    ensures SettledAt(lib, RunStage(lib, c, job, later).cluster, job, stage, None)
  {
    if stage == GeneratedStage && later == WorkloadStage {
      WorkloadPostponesCleanup(c.statefulSets, job.agent, DesiredStatefulSet(job));
      GeneratedStaysSettled(c.configMaps, Lookup(c.statefulSets, job.agent),
        Lookup(RunStage(lib, c, job, later).cluster.statefulSets, job.agent), job.agent, job.plan.files);
      assert GeneratedStep(c.configMaps, Lookup(c.statefulSets, job.agent), job.agent, job.plan.files).store ==
        c.configMaps;
    }
  }

  ghost predicate InOrder(todo: seq<Stage>) {
    forall i, j :: 0 <= i < j < |todo| ==> Order(todo[i]) < Order(todo[j])
  }

  lemma {:induction false} LaterStagesKeepSettled(lib: Library, c: Cluster, job: Job, stage: Stage, todo: seq<Stage>)
    requires WellFormed(c) && SettledAt(lib, c, job, stage, None)
    requires forall i :: 0 <= i < |todo| ==> Order(stage) < Order(todo[i])
    ensures SettledAt(lib, RunStages(lib, c, job, todo).cluster, job, stage, None)
    decreases |todo|
  {
    if todo != [] {
      LaterStageKeepsSettled(lib, c, job, stage, todo[0]);
      StageWellFormed(lib, c, job, todo[0]);
      var r := RunStage(lib, c, job, todo[0]);
      if r.failure.None? { LaterStagesKeepSettled(lib, r.cluster, job, stage, todo[1..]); }
    }
  }

  /** The pipeline settles in one run, on success and at whichever step it fails. */
  lemma {:induction false} PipelineSettles(lib: Library, c: Cluster, job: Job, todo: seq<Stage>)
    requires WellFormed(c) && DistinctGenerated(job.plan.files) && InOrder(todo)
    ensures var r := RunStages(lib, c, job, todo);
      RunStages(lib, r.cluster, job, todo) == StageResult(r.cluster, [], r.failure)
    decreases |todo|
  {
    if todo != [] {
      var r := RunStage(lib, c, job, todo[0]);
      StageSettles(lib, c, job, todo[0]);
      StageWellFormed(lib, c, job, todo[0]);
      if r.failure.None? {
        PipelineSettles(lib, r.cluster, job, todo[1..]);
        LaterStagesKeepSettled(lib, r.cluster, job, todo[0], todo[1..]);
      }
    }
  }

  lemma {:induction false} PipelineWellFormed(lib: Library, c: Cluster, job: Job, todo: seq<Stage>)
    requires WellFormed(c)
    ensures WellFormed(RunStages(lib, c, job, todo).cluster)
    decreases |todo|
  {
    if todo != [] {
      StageWellFormed(lib, c, job, todo[0]);
      PipelineWellFormed(lib, RunStage(lib, c, job, todo[0]).cluster, job, todo[1..]);
    }
  }
}
