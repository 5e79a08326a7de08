/** The defaulting webhook writes into the spec exactly what the controller would have assumed. */
module Defaulting {
  import opened Prelude
  import opened Api
  import opened Validation
  import opened Admission
  import opened References
  import opened ConfigPlan
  import opened PodTemplate
  import opened Egress
  import opened Terminal
  import opened Store

  const DEFAULT_REPOSITORY := "ghcr.io/xmbshwll/hermes-agent-docker"
  const DEFAULT_TAG := "v2026.3.30"

  datatype ProbeDefaults = ProbeDefaults(initialDelaySeconds: int, periodSeconds: int, timeoutSeconds: int,
    failureThreshold: int)

  const STARTUP := ProbeDefaults(0, 10, 5, 18)
  const READINESS := ProbeDefaults(5, 10, 5, 3)
  const LIVENESS := ProbeDefaults(15, 10, 5, 3)

  function DefaultedProbe(probe: ProbeSpec, d: ProbeDefaults): ProbeSpec {
    ProbeSpec(
      Some(if probe.enabled.Some? then probe.enabled.value else true),
      if probe.initialDelaySeconds == 0 && d.initialDelaySeconds > 0 then d.initialDelaySeconds
        else probe.initialDelaySeconds,
      if probe.periodSeconds == 0 then d.periodSeconds else probe.periodSeconds,
      if probe.timeoutSeconds == 0 then d.timeoutSeconds else probe.timeoutSeconds,
      if probe.failureThreshold == 0 then d.failureThreshold else probe.failureThreshold)
  }

  function DefaultedImage(image: ImageSpec): ImageSpec {
    ImageSpec(
      if image.repository == "" then DEFAULT_REPOSITORY else image.repository,
      if image.tag == "" then DEFAULT_TAG else image.tag,
      if image.pullPolicy == "" then "IfNotPresent" else image.pullPolicy)
  }

  function DefaultedPersistence(p: PersistenceSpec): PersistenceSpec {
    p.(enabled := Some(if p.enabled.Some? then p.enabled.value else true),
       size := if p.size == "" then "10Gi" else p.size,
       accessModes := if p.accessModes == [] then ["ReadWriteOnce"] else p.accessModes)
  }

  function DefaultedService(s: ServiceOptions): ServiceOptions {
    s.(serviceType := if s.serviceType == "" then "ClusterIP" else s.serviceType,
       port := if s.port == 0 then 8080 else s.port)
  }

  function DefaultedProbes(p: ProbesSpec): ProbesSpec {
    p.(startup := DefaultedProbe(p.startup, STARTUP), readiness := DefaultedProbe(p.readiness, READINESS), liveness :=
      DefaultedProbe(p.liveness, LIVENESS))
  }

  function Defaulted(spec: AgentSpec): AgentSpec {
    spec.(
      mode := if spec.mode == "" then "gateway" else spec.mode,
      image := DefaultedImage(spec.image),
      persistence := DefaultedPersistence(spec.persistence),
      replicas := if spec.replicas == 0 then 1 else spec.replicas,
      automountServiceAccountToken :=
        Some(if spec.automountServiceAccountToken.Some? then spec.automountServiceAccountToken.value else false),
      service := DefaultedService(spec.service),
      networkPolicy := spec.networkPolicy.(enabled :=
        Some(if spec.networkPolicy.enabled.Some? then spec.networkPolicy.enabled.value else false)),
      updateStrategy := spec.updateStrategy.(strategy := if spec.updateStrategy.strategy == "" then "RollingUpdate"
        else spec.updateStrategy.strategy),
      probes := DefaultedProbes(spec.probes))
  }

  /** A probe handed to defaultProbe by reference. */
  class ProbeCell {
    var probe: ProbeSpec

    constructor (probe: ProbeSpec)
      ensures this.probe == probe
    {
      this.probe := probe;
    }

    method Default(d: ProbeDefaults)
      modifies this
      ensures probe == DefaultedProbe(old(probe), d)
    {
      if probe.enabled.None? { probe := probe.(enabled := Some(true)); }
      if probe.initialDelaySeconds == 0 && d.initialDelaySeconds > 0 {
        probe := probe.(initialDelaySeconds := d.initialDelaySeconds);
      }
      if probe.periodSeconds == 0 { probe := probe.(periodSeconds := d.periodSeconds); }
      if probe.timeoutSeconds == 0 { probe := probe.(timeoutSeconds := d.timeoutSeconds); }
      if probe.failureThreshold == 0 { probe := probe.(failureThreshold := d.failureThreshold); }
    }
  }

  /** The object of an admission request. */
  class Submission {
    var spec: AgentSpec

    constructor (spec: AgentSpec)
      ensures this.spec == spec
    {
      this.spec := spec;
    }

    /** Default overwrites the unset fields one after the other. */
    method Default()
      modifies this
      ensures spec == Defaulted(old(spec))
    {
      hide DefaultedProbes, DefaultedService, DefaultedPersistence, DefaultedImage;
      DefaultImage();
      DefaultWorkload();
      DefaultStorage();
      DefaultNetwork();
      DefaultProbes();
    }

    method DefaultWorkload()
      modifies this
      ensures var d := Defaulted(old(spec));
        spec == old(spec).(mode := d.mode, replicas := d.replicas, automountServiceAccountToken :=
          d.automountServiceAccountToken, updateStrategy := d.updateStrategy)
    {
      hide DefaultedProbes, DefaultedService, DefaultedPersistence, DefaultedImage;
      if spec.mode == "" { spec := spec.(mode := "gateway"); }
      if spec.replicas == 0 { spec := spec.(replicas := 1); }
      if spec.automountServiceAccountToken.None? { spec := spec.(automountServiceAccountToken := Some(false)); }
      if spec.updateStrategy.strategy == "" {
        spec := spec.(updateStrategy := spec.updateStrategy.(strategy := "RollingUpdate"));
      }
    }

    method DefaultNetwork()
      modifies this
      ensures spec == old(spec).(service := DefaultedService(old(spec).service), networkPolicy :=
        Defaulted(old(spec)).networkPolicy)
    {
      hide DefaultedProbes, DefaultedPersistence, DefaultedImage;
      if spec.service.serviceType == "" { spec := spec.(service := spec.service.(serviceType := "ClusterIP")); }
      if spec.service.port == 0 { spec := spec.(service := spec.service.(port := 8080)); }
      if spec.networkPolicy.enabled.None? {
        spec := spec.(networkPolicy := spec.networkPolicy.(enabled := Some(false)));
      }
    }

    method DefaultProbes()
      modifies this
      ensures spec == old(spec).(probes := DefaultedProbes(old(spec).probes))
    {
      hide DefaultedProbe;
      var startup := new ProbeCell(spec.probes.startup);
      startup.Default(STARTUP);
      var readiness := new ProbeCell(spec.probes.readiness);
      readiness.Default(READINESS);
      var liveness := new ProbeCell(spec.probes.liveness);
      liveness.Default(LIVENESS);
      spec := spec.(probes := spec.probes.(startup := startup.probe, readiness := readiness.probe, liveness :=
        liveness.probe));
    }

    method DefaultImage()
      modifies this
      ensures spec == old(spec).(image := DefaultedImage(old(spec).image))
    {
      if spec.image.repository == "" { spec := spec.(image := spec.image.(repository := DEFAULT_REPOSITORY)); }
      if spec.image.tag == "" { spec := spec.(image := spec.image.(tag := DEFAULT_TAG)); }
      if spec.image.pullPolicy == "" { spec := spec.(image := spec.image.(pullPolicy := "IfNotPresent")); }
    }

    method DefaultStorage()
      modifies this
      ensures spec == old(spec).(persistence := DefaultedPersistence(old(spec).persistence))
    {
      if spec.persistence.enabled.None? { spec := spec.(persistence := spec.persistence.(enabled := Some(true))); }
      if spec.persistence.size == "" { spec := spec.(persistence := spec.persistence.(size := "10Gi")); }
      if spec.persistence.accessModes == [] {
        spec := spec.(persistence := spec.persistence.(accessModes := ["ReadWriteOnce"]));
      }
    }
  }

  // ---- defaulting is idempotent and changes no meaning -----------------------------------------

  /** What was set stays, what was unset gets the default. */
  predicate Filled<T(==)>(after: T, before: T, unset: T, default_: T) {
    after == if before == unset then default_ else before
  }

  predicate ProbeFilled(after: ProbeSpec, before: ProbeSpec, delay: int, period: int, timeout: int, failures: int) {
    && Filled(after.enabled, before.enabled, None, Some(true))
    && Filled(after.initialDelaySeconds, before.initialDelaySeconds, 0, delay)
    && Filled(after.periodSeconds, before.periodSeconds, 0, period)
    && Filled(after.timeoutSeconds, before.timeoutSeconds, 0, timeout)
    && Filled(after.failureThreshold, before.failureThreshold, 0, failures)
  }

  /** The documented defaults, field by field; nothing else is touched. */
  lemma DefaultsExact(spec: AgentSpec)
    ensures var s := Defaulted(spec);
      && Filled(s.image.repository, spec.image.repository, "", "ghcr.io/xmbshwll/hermes-agent-docker")
      && Filled(s.image.tag, spec.image.tag, "", "v2026.3.30")
      && Filled(s.image.pullPolicy, spec.image.pullPolicy, "", "IfNotPresent")
      && Filled(s.mode, spec.mode, "", "gateway") && Filled(s.replicas, spec.replicas, 0, 1)
      && Filled(s.automountServiceAccountToken, spec.automountServiceAccountToken, None, Some(false))
      && Filled(s.updateStrategy.strategy, spec.updateStrategy.strategy, "", "RollingUpdate")
      && Filled(s.persistence.enabled, spec.persistence.enabled, None, Some(true))
      && Filled(s.persistence.size, spec.persistence.size, "", "10Gi")
      && Filled(s.persistence.accessModes, spec.persistence.accessModes, [], ["ReadWriteOnce"])
      && Filled(s.service.serviceType, spec.service.serviceType, "", "ClusterIP")
      && Filled(s.service.port, spec.service.port, 0, 8080)
      && Filled(s.networkPolicy.enabled, spec.networkPolicy.enabled, None, Some(false))
      && ProbeFilled(s.probes.startup, spec.probes.startup, 0, 10, 5, 18)
      && ProbeFilled(s.probes.readiness, spec.probes.readiness, 5, 10, 5, 3)
      && ProbeFilled(s.probes.liveness, spec.probes.liveness, 15, 10, 5, 3)
    ensures var s := Defaulted(spec);
      s == spec.(
        image := s.image, mode := s.mode, replicas := s.replicas,
        automountServiceAccountToken := s.automountServiceAccountToken,
        updateStrategy := spec.updateStrategy.(strategy := s.updateStrategy.strategy),
        persistence := spec.persistence.(enabled := s.persistence.enabled, size := s.persistence.size,
          accessModes := s.persistence.accessModes),
        service := spec.service.(serviceType := s.service.serviceType, port := s.service.port),
        networkPolicy := spec.networkPolicy.(enabled := s.networkPolicy.enabled),
        probes := spec.probes.(startup := s.probes.startup, readiness := s.probes.readiness,
          liveness := s.probes.liveness))
  {
  }

  lemma DefaultingIdempotent(spec: AgentSpec)
    ensures Defaulted(Defaulted(spec)) == Defaulted(spec)
  {
  }

  /** The webhook's probe defaults are the controller's, for negative numbers too. */
  lemma ProbeMeaning(probe: ProbeSpec, d: ProbeDefaults)
    requires d.initialDelaySeconds >= 0 && d.periodSeconds > 0 && d.timeoutSeconds > 0 && d.failureThreshold > 0
    ensures var config := ProbeConfig(true, d.initialDelaySeconds, d.periodSeconds, d.timeoutSeconds,
      d.failureThreshold);
      ResolveProbe(DefaultedProbe(probe, d), config) == ResolveProbe(probe, config)
  {
  }

  /** Every effective setting the controller derives is the same. */
  lemma SettingsKept(spec: AgentSpec)
    ensures var s := Defaulted(spec);
      && DesiredReplicas(s) == DesiredReplicas(spec) && PersistenceEnabled(s) == PersistenceEnabled(spec)
      && PersistenceSize(s) == PersistenceSize(spec) && PersistenceAccessModes(s) == PersistenceAccessModes(spec)
      && ServiceType(s) == ServiceType(spec) && ServicePortNumber(s) == ServicePortNumber(spec)
        && ServiceTargetPort(s) == ServiceTargetPort(spec)
      && NetworkPolicyEnabled(s) == NetworkPolicyEnabled(spec) && StrategyOf(s) == StrategyOf(spec)
  {
  }

  /** Same validity, same referenced inputs, same plan and payload. */
  lemma PlanKept(lib: Library, agent: string, spec: AgentSpec, inputs: ReferencedInputs, c: Inputs)
    ensures var s := Defaulted(spec);
      && (ValidConfig(s) <==> ValidConfig(spec)) && Resolve(s, c) == Resolve(spec, c)
      && BuildPlan(lib, agent, s, inputs) == BuildPlan(lib, agent, spec, inputs)
      && PayloadOf(agent, s, inputs) == PayloadOf(agent, spec, inputs)
      && EffectiveBackend(lib, s, inputs) == EffectiveBackend(lib, spec, inputs)
  {
    hide DefaultedImage, DefaultedPersistence, DefaultedService, DefaultedProbes, PlanFiles, SourceBackend,
      ValidMounts, ValidSource;
    FilesKept(agent, spec);
  }

  lemma FilesKept(agent: string, spec: AgentSpec)
    ensures PlanFiles(agent, Defaulted(spec)) == PlanFiles(agent, spec)
  {
    hide DefaultedImage, DefaultedPersistence, DefaultedService, DefaultedProbes, ResolveConfigFile;
  }

  lemma ClaimStepKept(lib: Library, claims: map<string, Claim>, agent: string, spec: AgentSpec)
    ensures ClaimStep(lib, claims, agent, Defaulted(spec)) == ClaimStep(lib, claims, agent, spec)
  {
    SettingsKept(spec);
    assert Defaulted(spec).persistence.storageClassName == spec.persistence.storageClassName;
    hide Defaulted, PersistenceEnabled, PersistenceSize, PersistenceAccessModes, SameModes, ResourceLabels,
      CreateOrUpdate, ClaimName;
  }

  lemma ServiceStepKept(services: map<string, Service>, agent: string, spec: AgentSpec)
    ensures ServiceStep(services, agent, Defaulted(spec)) == ServiceStep(services, agent, spec)
  {
    SettingsKept(spec);
    var s := Defaulted(spec).service;
    assert s.enabled == spec.service.enabled && s.annotations == spec.service.annotations;
    hide Defaulted, ServiceType, ServicePortNumber, ServiceTargetPort, ResourceLabels, OptionalStep, KeepsNodePort;
  }

  lemma PolicyStepKept(policies: map<string, Policy>, agent: string, spec: AgentSpec, backend: string)
    ensures PolicyStep(policies, agent, Defaulted(spec), backend) == PolicyStep(policies, agent, spec, backend)
  {
    SettingsKept(spec);
    assert EgressRules(Defaulted(spec).networkPolicy, backend) == EgressRules(spec.networkPolicy, backend);
    hide Defaulted, EgressRules, NetworkPolicyEnabled, ResourceLabels, OptionalStep;
  }

  lemma BudgetStepKept(budgets: map<string, Budget>, agent: string, spec: AgentSpec)
    ensures BudgetStep(budgets, agent, Defaulted(spec)) == BudgetStep(budgets, agent, spec)
  {
    SettingsKept(spec);
    hide Defaulted, OptionalStep, DesiredReplicas, ResourceLabels;
  }

  /** Claim, Service, NetworkPolicy and budget steps do the same to every store. */
  lemma StepsKept(lib: Library, c: Cluster, agent: string, spec: AgentSpec, backend: string)
    ensures ClaimStep(lib, c.claims, agent, Defaulted(spec)) == ClaimStep(lib, c.claims, agent, spec)
    ensures ServiceStep(c.services, agent, Defaulted(spec)) == ServiceStep(c.services, agent, spec)
    ensures PolicyStep(c.policies, agent, Defaulted(spec), backend) == PolicyStep(c.policies, agent, spec, backend)
    ensures BudgetStep(c.budgets, agent, Defaulted(spec)) == BudgetStep(c.budgets, agent, spec)
  {
    hide Defaulted, ClaimStep, ServiceStep, PolicyStep, BudgetStep;
    ClaimStepKept(lib, c.claims, agent, spec);
    ServiceStepKept(c.services, agent, spec);
    PolicyStepKept(c.policies, agent, spec, backend);
    BudgetStepKept(c.budgets, agent, spec);
  }

  /** The same StatefulSet, but for the image reference and the pull policy. */
  lemma WorkloadKept(agent: string, spec: AgentSpec, plan: Plan)
    ensures var s, d := BuildStatefulSet(agent, spec, BuildTemplateInputs(spec, plan)), Defaulted(spec);
      BuildStatefulSet(agent, d, BuildTemplateInputs(d, plan)) ==
        s.(template := s.template.(pod := s.template.pod.(image := HermesImage(d.image), imagePullPolicy :=
          d.image.pullPolicy)))
  {
    SettingsKept(spec);
    ProbeMeaning(spec.probes.startup, STARTUP);
    ProbeMeaning(spec.probes.readiness, READINESS);
    ProbeMeaning(spec.probes.liveness, LIVENESS);
    hide DesiredReplicas, PersistenceEnabled, ServiceTargetPort, StrategyOf, ResolveProbe, DefaultedProbe,
      ResourceLabels, HermesImage, DefaultedImage,
      DefaultedPersistence, Upserted, ConfigVolumes, ConfigMounts, SecretVolumes, SecretMounts, FileVolumes,
        FileVolumeMounts;
  }

  /** The image reference stays exactly when repository and tag were both given. */
  lemma ImageKept(image: ImageSpec)
    ensures HermesImage(DefaultedImage(image)) == HermesImage(image) <==> image.repository != "" && image.tag != ""
  {
    assert |DEFAULT_REPOSITORY| == 36 && |DEFAULT_TAG| == 10;
    if image.tag == "" {
      assert |HermesImage(DefaultedImage(image))| > |HermesImage(image)|;
    } else if image.repository == "" {
      assert |HermesImage(DefaultedImage(image))| > |HermesImage(image)|;
    }
  }

  predicate ImageGiven(image: ImageSpec) { image.repository != "" && image.tag != "" && image.pullPolicy != "" }

  lemma DesiredKept(job: Job)
    requires ImageGiven(job.spec.image)
    ensures DesiredStatefulSet(job.(spec := Defaulted(job.spec))) == DesiredStatefulSet(job)
  {
    assert Defaulted(job.spec).image == job.spec.image;
    assert BuildStatefulSet(job.agent, job.spec, BuildTemplateInputs(job.spec, job.plan)).template.pod.image ==
      HermesImage(job.spec.image);
    assert BuildStatefulSet(job.agent, job.spec, BuildTemplateInputs(job.spec,
      job.plan)).template.pod.imagePullPolicy == job.spec.image.pullPolicy;
    hide BuildStatefulSet, BuildTemplateInputs, Defaulted, HermesImage;
    WorkloadKept(job.agent, job.spec, job.plan);
  }

  lemma StageKept(lib: Library, c: Cluster, job: Job, stage: Stage)
    requires ImageGiven(job.spec.image)
    ensures RunStage(lib, c, job.(spec := Defaulted(job.spec)), stage) == RunStage(lib, c, job, stage)
  {
    hide Defaulted, DesiredStatefulSet, ClaimStep, ServiceStep, PolicyStep, BudgetStep, GeneratedStep, WorkloadStep,
      EffectiveBackend;
    match stage
    case GeneratedStage =>
    case ClaimStage => ClaimStepKept(lib, c.claims, job.agent, job.spec);
    case WorkloadStage => DesiredKept(job);
    case ServiceStage => ServiceStepKept(c.services, job.agent, job.spec);
    case PolicyStage =>
      BackendKept(lib, job.spec, job.inputs);
      PolicyStepKept(c.policies, job.agent, job.spec, EffectiveBackend(lib, job.spec, job.inputs));
    case BudgetStage => BudgetStepKept(c.budgets, job.agent, job.spec);
  }

  lemma BackendKept(lib: Library, spec: AgentSpec, inputs: ReferencedInputs)
    ensures EffectiveBackend(lib, Defaulted(spec), inputs) == EffectiveBackend(lib, spec, inputs)
  {
    hide SourceBackend, DefaultedImage, DefaultedPersistence, DefaultedService, DefaultedProbes;
  }

  /** With the image given in full, the pipeline cannot tell a defaulted spec from the original. */
  lemma {:induction false} PipelineKept(lib: Library, c: Cluster, job: Job, todo: seq<Stage>)
    requires ImageGiven(job.spec.image)
    ensures RunStages(lib, c, job.(spec := Defaulted(job.spec)), todo) == RunStages(lib, c, job, todo)
    decreases |todo|
  {
    if todo != [] {
      hide RunStage, Defaulted;
      StageKept(lib, c, job, todo[0]);
      PipelineKept(lib, RunStage(lib, c, job, todo[0]).cluster, job, todo[1..]);
    }
  }

  /** Defaulting rejects nothing that was admissible, and repairs only an unset replica count or port. */
  lemma AdmissionKept(p: Parsers, spec: AgentSpec)
    requires p.quantity("10Gi").Some? && p.quantity("10Gi").value > 0
    ensures Admitted(p, Defaulted(spec)) <==>
      Admitted(p, spec.(replicas := DesiredReplicas(spec), service :=
        spec.service.(port := if spec.service.port == 0 then 8080 else spec.service.port)))
  {
    hide DefaultedImage, ValidMounts, ValidSource, ValidEnv, ValidEnvFrom, ValidDestination, ValidPorts,
      DefaultedProbe, ValidProbe;
    ProbeAdmission(spec.probes.startup, STARTUP);
    ProbeAdmission(spec.probes.readiness, READINESS);
    ProbeAdmission(spec.probes.liveness, LIVENESS);
  }

  lemma ProbeAdmission(probe: ProbeSpec, d: ProbeDefaults)
    requires d.periodSeconds > 0 && d.timeoutSeconds > 0 && d.failureThreshold > 0
    ensures ValidProbe(DefaultedProbe(probe, d)) <==> ValidProbe(probe)
  {
  }
}
