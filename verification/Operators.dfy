/** The reconciler as it runs: an object over the API store, one method per step, each proved against
    the step function of the model. */
module Operators {
  import opened Prelude
  import opened Api
  import opened Validation
  import opened References
  import opened Watches
  import opened Gate
  import opened ConfigPlan
  import opened PodTemplate
  import opened Egress
  import opened Terminal
  import opened Status
  import opened StatusRecords
  import opened Store
  import opened Reconciliation

  // ---- where the loops stand ------------------------------------------------------------------

  /** Of `all` inline steps, those over `files` are still to come; `done` are the writes so far. */
  ghost predicate InlineLeft(all: Changed<ConfigMap>, store: ConfigMaps, done: seq<Write>, agent: string,
        files: seq<ConfigFile>) {
    var rest := InlineSteps(store, agent, files);
    all == Changed(rest.store, done + rest.writes, rest.failure)
  }

  lemma InlineStarts(store: ConfigMaps, agent: string, files: seq<ConfigFile>)
    ensures InlineLeft(InlineSteps(store, agent, files), store, [], agent, files) && DesiredNames([]) == {}
      && files[..0] == [] && files[0..] == files
  {
    hide InlineSteps;
  }

  lemma InlineProceeds(all: Changed<ConfigMap>, store: ConfigMaps, done: seq<Write>, agent: string,
        files: seq<ConfigFile>)
    requires files != [] && InlineLeft(all, store, done, agent, files)
    ensures !files[0].generated ==> InlineLeft(all, store, done, agent, files[1..])
    ensures files[0].generated ==>
      var first := InlineConfigMapStep(store, agent, files[0]);
      if first.failure.Some? then all == Changed(first.store, done + first.writes, first.failure)
      else InlineLeft(all, first.store, done + first.writes, agent, files[1..])
  {
    hide InlineConfigMapStep;
    if files[0].generated {
      var first := InlineConfigMapStep(store, agent, files[0]);
      var rest := InlineSteps(first.store, agent, files[1..]);
      assert done + (first.writes + rest.writes) == (done + first.writes) + rest.writes;
    }
  }

  lemma InlineEnds(all: Changed<ConfigMap>, store: ConfigMaps, done: seq<Write>, agent: string)
    requires InlineLeft(all, store, done, agent, [])
    ensures all == Changed(store, done, None)
  {
  }

  lemma DesiredSnoc(files: seq<ConfigFile>, i: nat)
    requires i < |files|
    ensures DesiredNames(files[..i + 1]) == DesiredNames(files[..i])
      + (if files[i].generated then {files[i].configMapName} else {})
  {
    assert files[..i + 1] == files[..i] + [files[i]];
  }

  lemma CleanupNeverFails(configMaps: ConfigMaps, agent: string, keep: set<string>)
    ensures var first := CleanupOne(configMaps, agent, keep, GeneratedConfigMapName(agent, CONFIG_ID));
      var second := CleanupOne(first.store, agent, keep, GeneratedConfigMapName(agent, GATEWAY_ID));
      Cleanup(configMaps, agent, keep) == Changed(second.store, first.writes + second.writes, None)
  {
    hide GeneratedConfigMapName;
  }

  /** Of the `total` pipeline, the stages in `todo` are still to come. */
  ghost predicate StagesLeft(lib: Library, total: StageResult, c: Cluster, done: seq<Write>, job: Job,
        todo: seq<Stage>) {
    var rest := RunStages(lib, c, job, todo);
    total == StageResult(rest.cluster, done + rest.writes, rest.failure)
  }

  lemma StagesProceed(lib: Library, total: StageResult, c: Cluster, done: seq<Write>, job: Job, k: nat, stage: Stage)
    requires k < |PIPELINE| && PIPELINE[k] == stage && StagesLeft(lib, total, c, done, job, PIPELINE[k..])
    ensures var r := RunStage(lib, c, job, stage);
      if r.failure.Some? then total == StageResult(r.cluster, done + r.writes, r.failure)
      else StagesLeft(lib, total, r.cluster, done + r.writes, job, PIPELINE[k + 1..])
  {
    hide RunStage;
    var todo, r := PIPELINE[k..], RunStage(lib, c, job, stage);
    assert todo[0] == stage && todo[1..] == PIPELINE[k + 1..];
    if r.failure.None? {
      var rest := RunStages(lib, r.cluster, job, todo[1..]);
      assert done + (r.writes + rest.writes) == (done + r.writes) + rest.writes;
    }
  }

  lemma StagesStart(lib: Library, c: Cluster, done: seq<Write>, job: Job)
    ensures var r := RunStages(lib, c, job, PIPELINE);
      StagesLeft(lib, StageResult(r.cluster, done + r.writes, r.failure), c, done, job, PIPELINE[0..])
  {
    hide RunStages;
    assert PIPELINE[0..] == PIPELINE;
  }

  lemma StagesEnd(lib: Library, total: StageResult, c: Cluster, done: seq<Write>, job: Job)
    requires StagesLeft(lib, total, c, done, job, PIPELINE[6..])
    ensures total == StageResult(c, done, None)
  {
  }

  lemma TimeUntouched(s: AgentStatus, generation: int, agent: string, spec: AgentSpec, hash: string,
        change: StatusChange, now: nat)
    ensures Mutated(s, generation, agent, spec, hash, change, now).lastReconcileTime == s.lastReconcileTime
  {
    hide SetAll, Settings, HermesImage, ClaimName;
  }

  /** The log of status patches: one entry if a patch was sent. */
  function Sent(agent: string, patched: bool): seq<string> { if patched then [agent] else [] }

  class Reconciler {
    const lib: Library
    var cluster: Cluster
    var writes: seq<Write>
    var patches: seq<string>
    var events: seq<Event>

    constructor (lib: Library, cluster: Cluster)
      ensures this.lib == lib && this.cluster == cluster && writes == [] && patches == [] && events == []
    {
      this.lib, this.cluster, writes, patches, events := lib, cluster, [], [], [];
    }

    // ---- generated ConfigMaps ------------------------------------------------------------------

    method ReconcileInlineConfigMap(agent: string, file: ConfigFile) returns (failure: Option<Failure>)
      modifies this`cluster, this`writes
      ensures var r := InlineConfigMapStep(old(cluster.configMaps), agent, file);
        cluster == old(cluster).(configMaps := r.store) && writes == old(writes) + r.writes && failure == r.failure
    {
      hide ResourceLabels;
      var name, me := file.configMapName, AgentOwner(agent);
      var found := name in cluster.configMaps;
      var configMap := if found then cluster.configMaps[name] else ConfigMap(None, map[], map[], map[]);
      var controller := configMap.controller;
      configMap := configMap.(labels := configMap.labels + ResourceLabels(agent));
      configMap := configMap.(data := map[file.sourceKey := file.content]);
      if controller.Some? && controller.value != me {
        return Some(AlreadyOwned(ConfigMapResource, name, controller.value));
      }
      configMap := configMap.(controller := Some(me));
      if !found {
        cluster := cluster.(configMaps := cluster.configMaps[name := configMap]);
        writes := writes + [Write(Create, ConfigMapResource, name)];
      } else if cluster.configMaps[name] != configMap {
        cluster := cluster.(configMaps := cluster.configMaps[name := configMap]);
        writes := writes + [Write(Update, ConfigMapResource, name)];
      }
      failure := None;
    }

    method ReconcileGeneratedConfigMaps(agent: string, files: seq<ConfigFile>) returns (failure: Option<Failure>)
      modifies this`cluster, this`writes
      ensures var r := GeneratedStep(old(cluster.configMaps), Lookup(old(cluster.statefulSets), agent), agent, files);
        cluster == old(cluster).(configMaps := r.store) && writes == old(writes) + r.writes && failure == r.failure
    {
      hide InlineConfigMapStep, InlineSteps, Cleanup, ReadyForCleanup, DesiredNames, InlineLeft;
      var desired: set<string> := {};
      ghost var all, done := InlineSteps(cluster.configMaps, agent, files), [];
      InlineStarts(cluster.configMaps, agent, files);
      for i := 0 to |files|
        invariant desired == DesiredNames(files[..i])
        invariant cluster == old(cluster).(configMaps := cluster.configMaps)
        invariant writes == old(writes) + done
        invariant InlineLeft(all, cluster.configMaps, done, agent, files[i..])
      {
        assert files[i..][0] == files[i] && files[i..][1..] == files[i + 1..];
        InlineProceeds(all, cluster.configMaps, done, agent, files[i..]);
        DesiredSnoc(files, i);
        if !files[i].generated { continue; }
        desired := desired + {files[i].configMapName};
        done := done + InlineConfigMapStep(cluster.configMaps, agent, files[i]).writes;
        failure := ReconcileInlineConfigMap(agent, files[i]);
        if failure.Some? { return; }
      }
      assert files[|files|..] == [] && files[..|files|] == files;
      InlineEnds(all, cluster.configMaps, done, agent);
      failure := CleanupStaleGeneratedConfigMaps(agent, desired);
    }

    method CleanupStaleGeneratedConfigMaps(agent: string, desired: set<string>) returns (failure: Option<Failure>)
      modifies this`cluster, this`writes
      ensures var s := Lookup(old(cluster.statefulSets), agent);
        var r := if s.None? || !ReadyForCleanup(s.value) then Unchanged(old(cluster.configMaps))
          else Cleanup(old(cluster.configMaps), agent, desired);
        cluster == old(cluster).(configMaps := r.store) && writes == old(writes) + r.writes && failure == r.failure
    {
      hide GeneratedConfigMapName, ReadyForCleanup, CleanupOne;
      failure := None;
      if agent !in cluster.statefulSets { return; }
      if !ReadyForCleanup(cluster.statefulSets[agent]) { return; }
      CleanupNeverFails(cluster.configMaps, agent, desired);
      var ids := [CONFIG_ID, GATEWAY_ID];
      ghost var first := CleanupOne(cluster.configMaps, agent, desired, GeneratedConfigMapName(agent, CONFIG_ID));
      for i := 0 to |ids|
        invariant i == 0 ==> cluster == old(cluster) && writes == old(writes)
        invariant i == 1 ==> cluster == old(cluster).(configMaps := first.store) && writes == old(writes) + first.writes
        invariant i == 2 ==> var r := Cleanup(old(cluster.configMaps), agent, desired);
          cluster == old(cluster).(configMaps := r.store) && writes == old(writes) + r.writes
      {
        DeleteIfStale(agent, desired, GeneratedConfigMapName(agent, ids[i]));
      }
    }

    method DeleteIfStale(agent: string, desired: set<string>, name: string)
      modifies this`cluster, this`writes
      ensures var r := CleanupOne(old(cluster.configMaps), agent, desired, name);
        cluster == old(cluster).(configMaps := r.store) && writes == old(writes) + r.writes
    {
      if name in desired { return; }
      if name !in cluster.configMaps { return; }
      if cluster.configMaps[name].controller != Some(AgentOwner(agent)) { return; }
      cluster := cluster.(configMaps := cluster.configMaps - {name});
      writes := writes + [Write(Delete, ConfigMapResource, name)];
    }

    // ---- claim and workload ----------------------------------------------------------------------

    method ReconcilePersistentVolumeClaim(agent: string, spec: AgentSpec) returns (failure: Option<Failure>)
      modifies this`cluster, this`writes
      ensures var r := ClaimStep(lib, old(cluster.claims), agent, spec);
        cluster == old(cluster).(claims := r.store) && writes == old(writes) + r.writes && failure == r.failure
    {
      hide ResourceLabels, ClaimName, DriftedFields;
      failure := None;
      if !PersistenceEnabled(spec) { return; }
      var quantity := lib.parseQuantity(PersistenceSize(spec));
      if quantity.None? { return Some(BadQuantity(lib.quantityError(PersistenceSize(spec)))); }
      var name, me, desired := ClaimName(agent), AgentOwner(agent), BuildClaim(spec, quantity.value);
      if name !in cluster.claims {
        var claim := Claim(Some(me), ResourceLabels(agent), desired, ClaimPending);
        cluster := cluster.(claims := cluster.claims[name := claim]);
        writes := writes + [Write(Create, ClaimResource, name)];
        return;
      }
      var claim := cluster.claims[name];
      var drift := DriftedFields(spec, claim.spec, desired);
      if |drift| > 0 { return Some(SpecDrift(name, drift)); }
      if claim.controller.Some? && claim.controller.value != me {
        return Some(AlreadyOwned(ClaimResource, name, claim.controller.value));
      }
      claim := claim.(labels := claim.labels + ResourceLabels(agent));
      claim := claim.(spec := claim.spec.(request := quantity.value), controller := Some(me));
      if cluster.claims[name] != claim {
        cluster := cluster.(claims := cluster.claims[name := claim]);
        writes := writes + [Write(Update, ClaimResource, name)];
      }
    }

    method ReconcileStatefulSet(agent: string, spec: AgentSpec,
          inputs: TemplateInputs) returns (failure: Option<Failure>)
      modifies this`cluster, this`writes
      ensures var r := WorkloadStep(old(cluster.statefulSets), agent, BuildStatefulSet(agent, spec, inputs));
        cluster == old(cluster).(statefulSets := r.store) && writes == old(writes) + r.writes && failure == r.failure
    {
      hide ResourceLabels, BuildStatefulSet;
      var me, desired := AgentOwner(agent), BuildStatefulSet(agent, spec, inputs);
      failure := None;
      if agent !in cluster.statefulSets {
        var created := StatefulSet(Some(me), ResourceLabels(agent), desired, 1, 0, 0);
        cluster := cluster.(statefulSets := cluster.statefulSets[agent := created]);
        writes := writes + [Write(Create, StatefulSetResource, agent)];
        return;
      }
      var stored := cluster.statefulSets[agent];
      if stored.controller.Some? && stored.controller.value != me {
        return Some(AlreadyOwned(StatefulSetResource, agent, stored.controller.value));
      }
      var updated := stored.(labels := stored.labels + ResourceLabels(agent), spec := desired, controller := Some(me));
      if updated.spec != stored.spec { updated := updated.(generation := stored.generation + 1); }
      if updated != stored {
        cluster := cluster.(statefulSets := cluster.statefulSets[agent := updated]);
        writes := writes + [Write(Update, StatefulSetResource, agent)];
      }
    }

    // ---- optional resources ------------------------------------------------------------------------

    method ReconcileService(agent: string, spec: AgentSpec) returns (failure: Option<Failure>)
      modifies this`cluster, this`writes
      ensures var r := ServiceStep(old(cluster.services), agent, spec);
        cluster == old(cluster).(services := r.store) && writes == old(writes) + r.writes && failure == r.failure
    {
      hide ResourceLabels, ServiceType, ServicePortNumber, ServiceTargetPort, KeepsNodePort;
      var me, found := AgentOwner(agent), agent in cluster.services;
      failure := None;
      if !spec.service.enabled {
        if !found || cluster.services[agent].controller != Some(me) { return; }
        cluster := cluster.(services := cluster.services - {agent});
        writes := writes + [Write(Delete, ServiceResource, agent)];
        return;
      }
      if found && cluster.services[agent].controller != Some(me) { return Some(NotOwned(ServiceResource, agent)); }
      var existingPorts := if found then cluster.services[agent].spec.ports else [];
      var port := ServicePort(ServicePortNumber(spec), ServiceTargetPort(spec), 0);
      if KeepsNodePort(ServiceType(spec)) && |existingPorts| == 1 && existingPorts[0].nodePort != 0 {
        port := port.(nodePort := existingPorts[0].nodePort);
      }
      var labels := if found then cluster.services[agent].labels else map[];
      var service := Service(Some(me), labels + ResourceLabels(agent), spec.service.annotations,
        ServiceSpec(ServiceType(spec), ResourceLabels(agent), [port]));
      if !found {
        cluster := cluster.(services := cluster.services[agent := service]);
        writes := writes + [Write(Create, ServiceResource, agent)];
      } else if cluster.services[agent] != service {
        cluster := cluster.(services := cluster.services[agent := service]);
        writes := writes + [Write(Update, ServiceResource, agent)];
      }
    }

    method ReconcileNetworkPolicy(agent: string, spec: AgentSpec,
          inputs: ReferencedInputs) returns (failure: Option<Failure>)
      modifies this`cluster, this`writes
      ensures var r := PolicyStep(old(cluster.policies), agent, spec, EffectiveBackend(lib, spec, inputs));
        cluster == old(cluster).(policies := r.store) && writes == old(writes) + r.writes && failure == r.failure
    {
      hide ResourceLabels, BuildNetworkPolicy, EffectiveBackend;
      var me, found := AgentOwner(agent), agent in cluster.policies;
      failure := None;
      if !NetworkPolicyEnabled(spec) {
        if !found || cluster.policies[agent].controller != Some(me) { return; }
        cluster := cluster.(policies := cluster.policies - {agent});
        writes := writes + [Write(Delete, PolicyResource, agent)];
        return;
      }
      if found && cluster.policies[agent].controller != Some(me) { return Some(NotOwned(PolicyResource, agent)); }
      var labels := if found then cluster.policies[agent].labels else map[];
      var policy := Policy(Some(me), labels + ResourceLabels(agent),
        BuildNetworkPolicy(agent, spec, EffectiveBackend(lib, spec, inputs)));
      if !found {
        cluster := cluster.(policies := cluster.policies[agent := policy]);
        writes := writes + [Write(Create, PolicyResource, agent)];
      } else if cluster.policies[agent] != policy {
        cluster := cluster.(policies := cluster.policies[agent := policy]);
        writes := writes + [Write(Update, PolicyResource, agent)];
      }
    }

    method ReconcilePodDisruptionBudget(agent: string, spec: AgentSpec) returns (failure: Option<Failure>)
      modifies this`cluster, this`writes
      ensures var r := BudgetStep(old(cluster.budgets), agent, spec);
        cluster == old(cluster).(budgets := r.store) && writes == old(writes) + r.writes && failure == r.failure
    {
      hide ResourceLabels;
      var me, found := AgentOwner(agent), agent in cluster.budgets;
      failure := None;
      if !DisruptionBudgetEnabled(spec) {
        if !found || cluster.budgets[agent].controller != Some(me) { return; }
        cluster := cluster.(budgets := cluster.budgets - {agent});
        writes := writes + [Write(Delete, BudgetResource, agent)];
        return;
      }
      if found && cluster.budgets[agent].controller != Some(me) { return Some(NotOwned(BudgetResource, agent)); }
      var labels := if found then cluster.budgets[agent].labels else map[];
      var budget := Budget(Some(me), labels + ResourceLabels(agent), BuildBudget(agent));
      if !found {
        cluster := cluster.(budgets := cluster.budgets[agent := budget]);
        writes := writes + [Write(Create, BudgetResource, agent)];
      } else if cluster.budgets[agent] != budget {
        cluster := cluster.(budgets := cluster.budgets[agent := budget]);
        writes := writes + [Write(Update, BudgetResource, agent)];
      }
    }

    // ---- status --------------------------------------------------------------------------------------

    method ReadStatusView(agent: string, spec: AgentSpec) returns (view: StatusView)
      ensures view == ViewStatus(cluster, agent, spec)
    {
      hide ClaimName;
      var bound, persistence := false, Setting(PersistenceReady, ConditionTrue, PersistenceDisabled, Fixed);
      if PersistenceEnabled(spec) {
        var name := ClaimName(agent);
        if name !in cluster.claims {
          persistence := Setting(PersistenceReady, ConditionFalse, PersistentVolumeClaimMissing, OfClaim(name));
          return WaitingView(persistence, StoragePending, ClaimToBeCreated);
        }
        var phase := cluster.claims[name].phase;
        if phase != ClaimBound {
          persistence := Setting(PersistenceReady, ConditionFalse,
            if phase == ClaimLost then PersistentVolumeClaimLost else PersistentVolumeClaimPending, OfClaim(name));
          return WaitingView(persistence, if phase == ClaimLost then StorageErrorPhase else StoragePending,
            ClaimToBind);
        }
        bound, persistence := true, Setting(PersistenceReady, ConditionTrue, PersistentVolumeClaimBound, OfClaim(name));
      }
      if agent !in cluster.statefulSets {
        return PendingView(bound, persistence, 0, StatefulSetMissing, Fixed);
      }
      var s := cluster.statefulSets[agent];
      var desired := 1;
      if s.spec.replicas.Some? { desired := s.spec.replicas.value; }
      var count := ReplicaCount(s.readyReplicas, desired);
      if s.readyReplicas >= desired && s.observedGeneration >= s.generation {
        return StatusView(s.readyReplicas, bound, persistence,
          Setting(WorkloadReady, ConditionTrue, StatefulSetReady, count),
            Setting(Overall, ConditionTrue, Ready, Fixed), ReadyPhase);
      }
      if s.observedGeneration < s.generation {
        return PendingView(bound, persistence, s.readyReplicas, StatefulSetRolloutPending,
          RolloutLag(s.observedGeneration, s.generation));
      }
      return PendingView(bound, persistence, s.readyReplicas, StatefulSetWaitingForReadyReplicas, count);
    }

    /** patchStatus: mutate a copy of the latest status; write and announce it only if it differs. */
    method PatchStatus(agent: string, spec: AgentSpec, hash: string, change: StatusChange, now: nat)
      modifies this`cluster, this`patches, this`events
      ensures var r := Report(old(cluster), [], agent, spec, hash, change, now, Done);
        cluster == r.cluster && events == old(events) + r.events && patches == old(patches) + Sent(agent, r.patched)
    {
      hide Mark, Populate, SetAll, Settings, EventsFor, Applied, Mutated;
      if agent !in cluster.agents { return; }
      var latest := cluster.agents[agent];
      var record := new StatusRecord(latest.status.(observedGeneration := latest.generation));
      record.PopulateStatusMetadata(agent, spec, hash);
      record.Apply(change, now);
      AppliedIsMutated(latest.status, latest.generation, agent, spec, hash, change, now);
      TimeUntouched(latest.status, latest.generation, agent, spec, hash, change, now);
      if record.status == latest.status { return; }
      var status := record.status.(lastReconcileTime := now);
      cluster := cluster.(agents := cluster.agents[agent := latest.(status := status)]);
      patches := patches + [agent];
      var announced := StatusEventsForTransition(latest.status, status);
      events := events + announced;
    }

    // ---- the whole reconcile ---------------------------------------------------------------------------

    method Perform(job: Job, stage: Stage) returns (failure: Option<Failure>)
      modifies this`cluster, this`writes
      ensures var r := RunStage(lib, old(cluster), job, stage);
        cluster == r.cluster && writes == old(writes) + r.writes && failure == r.failure
    {
      hide GeneratedStep, ClaimStep, WorkloadStep, ServiceStep, PolicyStep, BudgetStep, EffectiveBackend,
        BuildStatefulSet, BuildTemplateInputs;
      match stage {
        case GeneratedStage => failure := ReconcileGeneratedConfigMaps(job.agent, job.plan.files);
        case ClaimStage => failure := ReconcilePersistentVolumeClaim(job.agent, job.spec);
        case WorkloadStage =>
          var builder := new TemplateBuilder(job.spec, job.plan);
          failure := ReconcileStatefulSet(job.agent, job.spec, builder.inputs);
        case ServiceStage => failure := ReconcileService(job.agent, job.spec);
        case PolicyStage => failure := ReconcileNetworkPolicy(job.agent, job.spec, job.inputs);
        case BudgetStage => failure := ReconcilePodDisruptionBudget(job.agent, job.spec);
      }
    }

    method RunPipeline(job: Job) returns (failure: Option<Failure>)
      modifies this`cluster, this`writes
      ensures var r := RunStages(lib, old(cluster), job, PIPELINE);
        cluster == r.cluster && writes == old(writes) + r.writes && failure == r.failure
    {
      hide RunStages, RunStage, StagesLeft;
      ghost var planned := RunStages(lib, cluster, job, PIPELINE);
      ghost var total := StageResult(planned.cluster, writes + planned.writes, planned.failure);
      StagesStart(lib, cluster, writes, job);
      StagesProceed(lib, total, cluster, writes, job, 0, GeneratedStage);
      failure := Perform(job, GeneratedStage);
      if failure.Some? { return; }
      StagesProceed(lib, total, cluster, writes, job, 1, ClaimStage);
      failure := Perform(job, ClaimStage);
      if failure.Some? { return; }
      StagesProceed(lib, total, cluster, writes, job, 2, WorkloadStage);
      failure := Perform(job, WorkloadStage);
      if failure.Some? { return; }
      StagesProceed(lib, total, cluster, writes, job, 3, ServiceStage);
      failure := Perform(job, ServiceStage);
      if failure.Some? { return; }
      StagesProceed(lib, total, cluster, writes, job, 4, PolicyStage);
      failure := Perform(job, PolicyStage);
      if failure.Some? { return; }
      StagesProceed(lib, total, cluster, writes, job, 5, BudgetStage);
      failure := Perform(job, BudgetStage);
      if failure.Some? { return; }
      StagesEnd(lib, total, cluster, writes, job);
    }

    /** Steps, then status: of the failure if there was one, else of what the cluster shows. */
    method RunAndReport(job: Job, now: nat) returns (outcome: Outcome)
      modifies this
      ensures var r := ReportStages(RunStages(lib, old(cluster), job, PIPELINE), job, now);
        && cluster == r.cluster && writes == old(writes) + r.writes && events == old(events) + r.events
        && patches == old(patches) + Sent(job.agent, r.patched) && outcome == r.outcome
    {
      hide RunStages, ViewStatus, ChangeFor, Patched, EventsFor;
      var failure := RunPipeline(job);
      if failure.Some? {
        PatchStatus(job.agent, job.spec, job.plan.hash, ChangeFor(failure.value), now);
        return Requeue(failure.value);
      }
      var view := ReadStatusView(job.agent, job.spec);
      PatchStatus(job.agent, job.spec, job.plan.hash, Observed(view), now);
      return Done;
    }

    /** The reconcile of the model, step by step. */
    method Reconcile(agent: string, now: nat) returns (outcome: Outcome)
      modifies this
      ensures var r := Reconciliation.Reconcile(lib, old(cluster), agent, now);
        && cluster == r.cluster && writes == old(writes) + r.writes && events == old(events) + r.events
        && patches == old(patches) + Sent(agent, r.patched) && outcome == r.outcome
    {
      hide ReportStages, RunStages, Resolve, MissingInputs, ValidConfig, Patched, EventsFor, ChangeFor, PlanFiles,
        PayloadOf;
      if agent !in cluster.agents { return Done; }
      var spec := cluster.agents[agent].spec;
      var draft := BuildConfigPlanWithReferences(lib, agent, spec, NO_INPUTS);
      if draft.Refusal? {
        PatchStatus(agent, spec, "", ChangeFor(InvalidConfig(draft.error)), now);
        return Done;
      }
      var collector := new InputCollector(InputsOf(cluster));
      collector.Collect(spec);
      var missing := MissingReferenceMessages(collector.inputs);
      if |missing| > 0 {
        PatchStatus(agent, spec, "", ChangeFor(MissingReferences(missing)), now);
        return Done;
      }
      // The inputs do not decide validity, so the plan exists.
      var plan := BuildConfigPlanWithReferences(lib, agent, spec, collector.inputs);
      var job := Job(agent, spec, collector.inputs, plan.value);
      assert Prepare(lib, cluster, agent, spec) == Prepared(job);
      outcome := RunAndReport(job, now);
    }
  }
}
