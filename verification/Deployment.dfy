/** The objects a reconcile stores, in the raw fields of the spec: what is set is taken over, what is unset
    has its documented default. */
module Deployment {
  import opened Prelude
  import opened Api
  import opened Validation
  import opened ConfigPlan
  import opened PodTemplate
  import opened Store
  import opened Stages
  import opened Reconciliation
  import opened Guarantees
  import opened Serving
  import Claims

  // ---- the workload --------------------------------------------------------------------------------

  /** A positive number of the spec is taken over, anything else means the default. */
  predicate Chosen(stored: int, asked: int, default_: int) {
    (asked > 0 ==> stored == asked) && (asked <= 0 ==> stored == default_)
  }

  /** A probe is there unless it is switched off, with the numbers of its own part of the spec, and looks at the
      platforms exactly if `platform` says so. */
  predicate ProbeAsked(stored: Option<Probe>, asked: ProbeSpec, delay: int, period: int, timeout: int, failures: int,
        platform: bool) {
    && (stored.Some? <==> asked.enabled != Some(false))
    && (stored.Some? ==>
        && Chosen(stored.value.config.initialDelaySeconds, asked.initialDelaySeconds, delay)
        && Chosen(stored.value.config.periodSeconds, asked.periodSeconds, period)
        && Chosen(stored.value.config.timeoutSeconds, asked.timeoutSeconds, timeout)
        && Chosen(stored.value.config.failureThreshold, asked.failureThreshold, failures)
        && (stored.value.connectedPlatform <==> platform))
  }

  predicate ProbesAsked(pod: PodSpec, asked: ProbesSpec) {
    && ProbeAsked(pod.startup, asked.startup, 0, 10, 5, 18, false)
    && ProbeAsked(pod.readiness, asked.readiness, 5, 10, 5, 3, asked.requireConnectedPlatform)
    && ProbeAsked(pod.liveness, asked.liveness, 15, 10, 5, 3, false)
  }

  /** A repository, with a colon and the tag if there is one. */
  predicate ImageNamed(reference: string, image: ImageSpec) {
    && image.repository <= reference
    && (image.tag == "" ==> reference == image.repository)
    && (image.tag != "" ==>
        && |reference| == |image.repository| + 1 + |image.tag|
        && reference[|image.repository|] == ':' && reference[|image.repository| + 1..] == image.tag)
  }

  /** A rolling update unless something else is asked for, and only a rolling update has a partition, the one asked
      for. */
  predicate UpdateAsked(stored: UpdateStrategy, asked: UpdateStrategy) {
    && (asked.strategy != "" ==> stored.strategy == asked.strategy)
    && (asked.strategy == "" ==> stored.strategy == "RollingUpdate")
    && (stored.rollingUpdate.Some? <==> stored.strategy == "RollingUpdate")
    && (stored.rollingUpdate.Some? ==>
        && (asked.rollingUpdate.Some? ==> stored.rollingUpdate.value.partition == asked.rollingUpdate.value.partition)
        && (asked.rollingUpdate.None? ==> stored.rollingUpdate.value.partition == None))
  }

  predicate Argued(pod: PodSpec, mode: string) {
    && |pod.args| == 2 && pod.args[0] == "hermes"
    && (mode != "" ==> pod.args[1] == mode) && (mode == "" ==> pod.args[1] == "gateway")
  }

  /** The container opens the target port, or the service port where none is set, exactly if there is a Service. */
  predicate PortsAsked(pod: PodSpec, asked: ServiceOptions) {
    && (asked.enabled ==> |pod.ports| == 1 && TargetAsked(pod.ports[0], asked))
    && (!asked.enabled ==> pod.ports == [])
  }

  predicate PortAsked(stored: int, asked: ServiceOptions) { Chosen(stored, asked.port, 8080) }

  predicate TargetAsked(stored: int, asked: ServiceOptions) {
    (asked.targetPort > 0 ==> stored == asked.targetPort) && (asked.targetPort <= 0 ==> PortAsked(stored, asked))
  }

  predicate PodAsked(pod: PodSpec, spec: AgentSpec) {
    && ProbesAsked(pod, spec.probes)
    && ImageNamed(pod.image, spec.image) && pod.imagePullPolicy == spec.image.pullPolicy
    && Argued(pod, spec.mode)
    && pod.imagePullSecrets == spec.imagePullSecrets && pod.serviceAccountName == spec.serviceAccountName
    && (pod.automountServiceAccountToken <==> spec.automountServiceAccountToken == Some(true))
    && pod.scheduling == spec.scheduling && pod.envFrom == spec.envFrom
    && PortsAsked(pod, spec.service)
  }

  /** The three managed entries, whatever else says otherwise, and everything else as it was. */
  ghost predicate Managed(after: map<string, string>, before: map<string, string>, agent: string) {
    && Lookup(after, "app.kubernetes.io/name") == Some("k8s-operator-hermes-agent")
    && Lookup(after, "app.kubernetes.io/managed-by") == Some("kustomize")
    && Lookup(after, "app.kubernetes.io/instance") == Some(agent)
    && forall k | k != "app.kubernetes.io/name" && k != "app.kubernetes.io/managed-by"
      && k != "app.kubernetes.io/instance" :: Lookup(after, k) == Lookup(before, k)
  }

  /** The config hash under its own key, and the annotations asked for under all others. */
  ghost predicate Annotated(annotations: map<string, string>, asked: map<string, string>, hash: string) {
    && Lookup(annotations, "hermes.nous.ai/config-hash") == Some(hash)
    && forall k | k != "hermes.nous.ai/config-hash" :: Lookup(annotations, k) == Lookup(asked, k)
  }

  ghost predicate WorkloadAsked(stored: StatefulSetSpec, agent: string, spec: AgentSpec, hash: string) {
    && (spec.replicas != 0 ==> stored.replicas == Some(spec.replicas))
    && (spec.replicas == 0 ==> stored.replicas == Some(1))
    && stored.serviceName == agent
    && UpdateAsked(stored.updateStrategy, spec.updateStrategy)
    && Managed(stored.selector, map[], agent)
    && Managed(stored.template.labels, spec.podLabels, agent)
    && Annotated(stored.template.annotations, spec.podAnnotations, hash)
    && PodAsked(stored.template.pod, spec)
  }

  lemma ImageExact(image: ImageSpec)
    ensures ImageNamed(HermesImage(image), image)
  {
    if image.tag != "" { assert HermesImage(image) == image.repository + (":" + image.tag); }
  }

  lemma LabelsExact(before: map<string, string>, agent: string)
    ensures Managed(before + ResourceLabels(agent), before, agent)
  {
  }

  lemma SelectorExact(agent: string)
    ensures Managed(ResourceLabels(agent), map[], agent)
  {
    LabelsExact(map[], agent);
    assert map[] + ResourceLabels(agent) == ResourceLabels(agent);
  }

  lemma AnnotationsExact(asked: map<string, string>, hash: string)
    ensures Annotated(asked + map[HASH_ANNOTATION := hash], asked, hash)
  {
  }

  lemma PodExact(agent: string, spec: AgentSpec, inputs: TemplateInputs)
    requires inputs.envFrom == spec.envFrom
    ensures PodAsked(BuildStatefulSet(agent, spec, inputs).template.pod, spec)
  {
    ImageExact(spec.image);
    hide ImageNamed, HermesImage, ResourceLabels, StrategyOf, FixedVolumes;
  }

  /** The built StatefulSet, field by field, is what the spec asks for. */
  lemma WorkloadExact(agent: string, spec: AgentSpec, plan: Plan)
    ensures WorkloadAsked(BuildStatefulSet(agent, spec, BuildTemplateInputs(spec, plan)), agent, spec, plan.hash)
  {
    hide PodAsked, Managed, Annotated, ResourceLabels, FixedVolumes, ConfigVolumes, ConfigMounts, SecretVolumes,
      SecretMounts, FileVolumes, FileVolumeMounts, Upserted;
    PodExact(agent, spec, BuildTemplateInputs(spec, plan));
    LabelsExact(spec.podLabels, agent);
    SelectorExact(agent);
    AnnotationsExact(spec.podAnnotations, plan.hash);
  }

  /** A probe depends on its own settings only. */
  lemma ProbesIndependent(agent: string, a: AgentSpec, b: AgentSpec, inputs: TemplateInputs)
    ensures var p := BuildStatefulSet(agent, a, inputs).template.pod;
      var q := BuildStatefulSet(agent, b, inputs).template.pod;
      && (a.probes.startup == b.probes.startup ==> p.startup == q.startup)
      && (a.probes.liveness == b.probes.liveness ==> p.liveness == q.liveness)
      && (a.probes.requireConnectedPlatform == b.probes.requireConnectedPlatform ==>
        a.probes.readiness == b.probes.readiness ==> p.readiness == q.readiness)
  {
    hide HermesImage, ResourceLabels, StrategyOf, FixedVolumes;
  }

  /** So is the stored one, after every reconcile that got as far as storing it. */
  lemma WorkloadStoredAsAsked(lib: Library, c: Cluster, agent: string, now: nat)
    requires agent in c.agents
    ensures var p := Prepare(lib, c, agent, c.agents[agent].spec);
      var d := Reconcile(lib, c, agent, now).cluster;
      p.Prepared? && Stored(lib, c, p.job) ==>
        && agent in d.statefulSets && d.statefulSets[agent].controller == Some(AgentOwner(agent))
        && WorkloadAsked(d.statefulSets[agent].spec, agent, c.agents[agent].spec, p.job.plan.hash)
        && Managed(d.statefulSets[agent].labels,
          if agent in c.statefulSets then c.statefulSets[agent].labels else map[], agent)
  {
    hide Reconcile, Prepare, Stored, WorkloadAsked, Managed, DesiredStatefulSet;
    var p := Prepare(lib, c, agent, c.agents[agent].spec);
    if p.Prepared? && Stored(lib, c, p.job) {
      PreparedJob(lib, c, agent, c.agents[agent].spec, p.job);
      ReconcileParts(lib, c, agent, p.job, now);
      StoredWorkload(lib, c, p.job);
      WorkloadExact(agent, p.job.spec, p.job.plan);
      assert DesiredStatefulSet(p.job) == BuildStatefulSet(agent, p.job.spec, BuildTemplateInputs(p.job.spec,
        p.job.plan)) by { DesiredBuilt(p.job); }
    }
  }

  lemma DesiredBuilt(job: Job)
    ensures DesiredStatefulSet(job) == BuildStatefulSet(job.agent, job.spec, BuildTemplateInputs(job.spec, job.plan))
  {
  }

  lemma StoredWorkload(lib: Library, c: Cluster, job: Job)
    requires Stored(lib, c, job)
    ensures var after := WorkloadOf(c, job).store;
      && job.agent in after && after[job.agent].spec == DesiredStatefulSet(job)
      && after[job.agent].controller == Some(AgentOwner(job.agent))
      && Managed(after[job.agent].labels,
        if job.agent in c.statefulSets then c.statefulSets[job.agent].labels else map[], job.agent)
  {
    hide GeneratedOf, ClaimOf, DesiredStatefulSet, ResourceLabels, Managed;
    WorkloadStored(c.statefulSets, job.agent, DesiredStatefulSet(job));
    SelectorExact(job.agent);
    LabelsExact(if job.agent in c.statefulSets then c.statefulSets[job.agent].labels else map[], job.agent);
  }

  // ---- the environment --------------------------------------------------------------------------------

  /** Of several variables with one name the last one counts. */
  function Effective(env: seq<EnvVar>, name: string): Option<EnvVar> {
    if env == [] then None
    else if env[|env| - 1].name == name then Some(env[|env| - 1])
    else Effective(env[..|env| - 1], name)
  }

  function Occurrences(env: seq<EnvVar>, name: string): nat {
    if env == [] then 0 else (if env[0].name == name then 1 else 0) + Occurrences(env[1..], name)
  }

  lemma {:induction false} EffectiveCons(v: EnvVar, env: seq<EnvVar>, name: string)
    ensures Effective([v] + env, name) ==
      if Effective(env, name).Some? then Effective(env, name) else if v.name == name then Some(v) else None
  {
    if env == [] {
      assert [v] + env == [v];
    } else {
      EffectiveCons(v, env[..|env| - 1], name);
      assert ([v] + env)[..|env|] == [v] + env[..|env| - 1];
    }
  }

  lemma {:induction false} EffectiveOccurs(env: seq<EnvVar>, name: string)
    ensures Effective(env, name).Some? <==> Occurrences(env, name) > 0
  {
    if env != [] {
      EffectiveOccurs(env[1..], name);
      EffectiveCons(env[0], env[1..], name);
      assert env == [env[0]] + env[1..];
    }
  }

  lemma {:induction false} UpsertedEffective(env: seq<EnvVar>, value: EnvVar, name: string)
    ensures Effective(Upserted(env, value), name) ==
      if name != value.name || Occurrences(env, name) > 1 then Effective(env, name) else Some(value)
  {
    if env == [] {
      EffectiveCons(value, [], name);
      assert [value] + [] == [value];
    } else {
      assert env == [env[0]] + env[1..];
      EffectiveCons(env[0], env[1..], name);
      EffectiveOccurs(env[1..], name);
      if env[0].name == value.name {
        EffectiveCons(value, env[1..], name);
      } else {
        UpsertedEffective(env[1..], value, name);
        EffectiveCons(env[0], Upserted(env[1..], value), name);
      }
    }
  }

  /** The container's variables are those of the spec. Its home is the operator's unless the spec names HERMES_HOME more
      than once: only the first is replaced, and the last counts. */
  lemma EnvironmentExact(agent: string, spec: AgentSpec, plan: Plan, name: string)
    ensures var env := BuildStatefulSet(agent, spec, BuildTemplateInputs(spec, plan)).template.pod.env;
      && (name != "HERMES_HOME" ==> Effective(env, name) == Effective(spec.env, name))
      && (Effective(env, "HERMES_HOME") == Some(EnvVar("HERMES_HOME", "/data/hermes", None)) <==>
        Occurrences(spec.env, "HERMES_HOME") <= 1
        || Effective(spec.env, "HERMES_HOME") == Some(EnvVar("HERMES_HOME", "/data/hermes", None)))
  {
    hide ResourceLabels, FixedVolumes, ConfigVolumes, ConfigMounts, SecretVolumes, SecretMounts, FileVolumes,
      FileVolumeMounts, Upserted, Effective, Occurrences, StrategyOf;
    UpsertedEffective(spec.env, HOME_VARIABLE, name);
    UpsertedEffective(spec.env, HOME_VARIABLE, "HERMES_HOME");
  }

  // ---- the optional resources ----------------------------------------------------------------------------

  ghost predicate LabelsManaged(after: map<string, string>, before: Option<map<string, string>>, agent: string) {
    Managed(after, if before.Some? then before.value else map[], agent)
  }

  /** The node port is the one already allocated, for types that have one. */
  predicate NodePortKept(stored: ServicePort, serviceType: string, before: Option<Service>) {
    stored.nodePort ==
      if (serviceType == "NodePort" || serviceType == "LoadBalancer") && before.Some? && |before.value.spec.ports| == 1
      then before.value.spec.ports[0].nodePort else 0
  }

  ghost predicate ServiceAsked(stored: Service, agent: string, asked: ServiceOptions, before: Option<Service>) {
    && stored.controller == Some(AgentOwner(agent)) && stored.annotations == asked.annotations
    && LabelsManaged(stored.labels, if before.Some? then Some(before.value.labels) else None, agent)
    && (asked.serviceType != "" ==> stored.spec.serviceType == asked.serviceType)
    && (asked.serviceType == "" ==> stored.spec.serviceType == "ClusterIP")
    && Managed(stored.spec.selector, map[], agent)
    && |stored.spec.ports| == 1 && PortAsked(stored.spec.ports[0].port, asked)
    && TargetAsked(stored.spec.ports[0].targetPort, asked)
    && NodePortKept(stored.spec.ports[0], stored.spec.serviceType, before)
  }

  /** An unwanted optional resource is gone if it was the agent's, and else as it was. */
  ghost predicate Withdrawn<T>(after: map<string, T>, before: map<string, T>, agent: string, mine: bool) {
    Lookup(after, agent) == if mine then None else Lookup(before, agent)
  }

  ghost predicate PolicyAsked(stored: Policy, agent: string, asked: EgressOptions, backend: string,
        before: Option<Policy>) {
    && stored.controller == Some(AgentOwner(agent))
    && LabelsManaged(stored.labels, if before.Some? then Some(before.value.labels) else None, agent)
    && Managed(stored.spec.podSelector, map[], agent) && stored.spec.egress == Egress.EgressRules(asked, backend)
  }

  ghost predicate BudgetAsked(stored: Budget, agent: string, before: Option<Budget>) {
    && stored.controller == Some(AgentOwner(agent))
    && LabelsManaged(stored.labels, if before.Some? then Some(before.value.labels) else None, agent)
    && Managed(stored.spec.selector, map[], agent) && stored.spec.maxUnavailable == 1
  }

  ghost predicate ClaimAsked(lib: Library, stored: Claim, agent: string, spec: AgentSpec, before: Option<Claim>) {
    && stored.controller == Some(AgentOwner(agent)) && Claims.SizeAsked(lib, spec, stored.spec.request)
    && LabelsManaged(stored.labels, if before.Some? then Some(before.value.labels) else None, agent)
    && Claims.SameStorage(spec, stored.spec)
  }

  predicate Owned(controller: Option<Owner>, agent: string) { controller == Some(AgentOwner(agent)) }

  lemma ServiceExact(services: map<string, Service>, agent: string, spec: AgentSpec)
    requires ServiceStep(services, agent, spec).failure.None?
    ensures var after := ServiceStep(services, agent, spec).store;
      if spec.service.enabled then
        agent in after && ServiceAsked(after[agent], agent, spec.service, Lookup(services, agent))
      else Withdrawn(after, services, agent, agent in services && Owned(services[agent].controller, agent))
  {
    hide ResourceLabels, Managed;
    SelectorExact(agent);
    LabelsExact(if agent in services then services[agent].labels else map[], agent);
  }

  /** A policy exists exactly if it is asked for, selects the agent's pods, and compiles the allowlist. */
  lemma PolicyExact(policies: map<string, Policy>, agent: string, spec: AgentSpec, backend: string)
    requires PolicyStep(policies, agent, spec, backend).failure.None?
    ensures var after := PolicyStep(policies, agent, spec, backend).store;
      if spec.networkPolicy.enabled == Some(true) then
        agent in after && PolicyAsked(after[agent], agent, spec.networkPolicy, backend, Lookup(policies, agent))
      else Withdrawn(after, policies, agent, agent in policies && Owned(policies[agent].controller, agent))
  {
    hide ResourceLabels, Managed, Egress.EgressRules;
    SelectorExact(agent);
    LabelsExact(if agent in policies then policies[agent].labels else map[], agent);
  }

  /** A budget exists exactly for more than one replica, and lets one pod of the agent be missing. */
  lemma BudgetExact(budgets: map<string, Budget>, agent: string, spec: AgentSpec)
    requires BudgetStep(budgets, agent, spec).failure.None?
    ensures var after := BudgetStep(budgets, agent, spec).store;
      if spec.replicas > 1 then agent in after && BudgetAsked(after[agent], agent, Lookup(budgets, agent))
      else Withdrawn(after, budgets, agent, agent in budgets && Owned(budgets[agent].controller, agent))
  {
    hide ResourceLabels, Managed;
    SelectorExact(agent);
    LabelsExact(if agent in budgets then budgets[agent].labels else map[], agent);
  }

  lemma ClaimLabelled(lib: Library, claims: map<string, Claim>, agent: string, spec: AgentSpec)
    requires ClaimStep(lib, claims, agent, spec).failure.None? && spec.persistence.enabled != Some(false)
    ensures var after, n := ClaimStep(lib, claims, agent, spec).store, agent + "-data";
      n in after && LabelsManaged(after[n].labels, if n in claims then Some(claims[n].labels) else None, agent)
  {
    hide ResourceLabels, Managed, DriftedFields, BuildClaim;
    SelectorExact(agent);
    LabelsExact(if agent + "-data" in claims then claims[agent + "-data"].labels else map[], agent);
  }

  lemma ClaimStoredAsAsked(lib: Library, claims: map<string, Claim>, agent: string, spec: AgentSpec)
    requires ClaimStep(lib, claims, agent, spec).failure.None?
    ensures var after, n := ClaimStep(lib, claims, agent, spec).store, agent + "-data";
      if spec.persistence.enabled == Some(false) then after == claims
      else n in after && ClaimAsked(lib, after[n], agent, spec, Lookup(claims, n))
  {
    hide ClaimStep, LabelsManaged, Claims.SizeAsked;
    Claims.ClaimExact(lib, claims, agent, spec);
    if spec.persistence.enabled != Some(false) { ClaimLabelled(lib, claims, agent, spec); }
  }

  // ---- the generated ConfigMaps -----------------------------------------------------------------------------

  /** A generated ConfigMap holds one key with the raw text; binary data somebody else put there stays. */
  ghost predicate ConfigMapAsked(stored: ConfigMap, agent: string, key: string, raw: Bytes, before: Option<ConfigMap>) {
    && stored.controller == Some(AgentOwner(agent)) && stored.data == map[key := raw]
    && LabelsManaged(stored.labels, if before.Some? then Some(before.value.labels) else None, agent)
    && stored.binaryData == if before.Some? then before.value.binaryData else map[]
  }

  lemma GeneratedExact(agent: string, file: ConfigFile, before: Option<ConfigMap>)
    ensures ConfigMapAsked(GeneratedConfigMap(agent, file, before), agent, file.sourceKey, file.content, before)
  {
    hide ResourceLabels, Managed;
    LabelsExact(if before.Some? then before.value.labels else map[], agent);
  }

  lemma {:induction false} InlineExact(configMaps: ConfigMaps, agent: string, files: seq<ConfigFile>, i: nat)
    requires DistinctGenerated(files) && InlineSteps(configMaps, agent, files).failure.None?
    requires i < |files| && files[i].generated
    ensures var n, after := files[i].configMapName, InlineSteps(configMaps, agent, files).store;
      Lookup(after, n) == Some(GeneratedConfigMap(agent, files[i], Lookup(configMaps, n)))
    decreases |files|
  {
    hide GeneratedConfigMap;
    var rest := files[1..];
    assert forall k :: 0 <= k < |rest| ==> rest[k] == files[k + 1];
    if files[0].generated {
      var first := InlineConfigMapStep(configMaps, agent, files[0]);
      InlineSettles(configMaps, agent, files[0]);
      if i > 0 {
        InlineExact(first.store, agent, rest, i - 1);
      } else {
        InlineStepsSettle(first.store, agent, rest);
        assert files[0].configMapName !in DesiredNames(rest);
        assert Lookup(first.store, files[0].configMapName) ==
          Some(GeneratedConfigMap(agent, files[0], Lookup(configMaps, files[0].configMapName)));
      }
    } else {
      InlineExact(configMaps, agent, rest, i - 1);
    }
  }

  lemma GeneratedStored(c: Cluster, job: Job, i: nat)
    requires Planned(job) && GeneratedOf(c, job).failure.None? && i < |job.plan.files| && job.plan.files[i].generated
    ensures var file := job.plan.files[i];
      && file.configMapName in GeneratedOf(c, job).store
      && ConfigMapAsked(GeneratedOf(c, job).store[file.configMapName], job.agent, file.sourceKey, file.content,
        Lookup(c.configMaps, file.configMapName))
  {
    var files := job.plan.files;
    PlanShape(job.agent, job.spec);
    var inlined := InlineSteps(c.configMaps, job.agent, files);
    CleanupSettles(inlined.store, job.agent, DesiredNames(files));
    assert files[i].configMapName in DesiredNames(files);
    hide InlineSteps, Cleanup, DesiredNames, GeneratedConfigMap, PlanFiles, ConfigMapAsked;
    InlineExact(c.configMaps, job.agent, files, i);
    GeneratedExact(job.agent, files[i], Lookup(c.configMaps, files[i].configMapName));
  }

  /** The raw texts of a spec, each under its name in the file it becomes. */
  lemma RawFiles(agent: string, spec: AgentSpec)
    requires ValidSource(spec.config) && ValidSource(spec.gatewayConfig)
    ensures spec.config.raw != [] ==> exists i ::
      0 <= i < |PlanFiles(agent, spec)| && RawFile(PlanFiles(agent, spec)[i], agent + "-config", "config.yaml",
        spec.config.raw)
    ensures spec.gatewayConfig.raw != [] ==> exists i ::
      0 <= i < |PlanFiles(agent, spec)| && RawFile(PlanFiles(agent, spec)[i], agent + "-gateway-config", "gateway.json",
        spec.gatewayConfig.raw)
  {
    var files := PlanFiles(agent, spec);
    assert CONFIG_ID == "config" && GATEWAY_ID == "gateway-config";
    RawNames(agent);
    hide GeneratedConfigMapName;
    if spec.config.raw != [] {
      assert RawFile(files[0], agent + "-config", "config.yaml", spec.config.raw);
    }
    if spec.gatewayConfig.raw != [] {
      assert RawFile(files[|files| - 1], agent + "-gateway-config", "gateway.json", spec.gatewayConfig.raw);
    }
  }

  predicate RawFile(file: ConfigFile, name: string, key: string, raw: Bytes) {
    file.generated && file.configMapName == name && file.sourceKey == key && file.content == raw
  }

  lemma RawNames(agent: string)
    ensures GeneratedConfigMapName(agent, CONFIG_ID) == agent + "-config"
    ensures GeneratedConfigMapName(agent, GATEWAY_ID) == agent + "-gateway-config"
  {
    assert agent + "-" + "config" == agent + "-config";
    assert agent + "-" + "gateway-config" == agent + "-gateway-config";
  }

  ghost predicate RawStored(c: Cluster, d: Cluster, agent: string, name: string, key: string, raw: Bytes) {
    raw != [] ==>
      name in d.configMaps && ConfigMapAsked(d.configMaps[name], agent, key, raw, Lookup(c.configMaps, name))
  }

  lemma RawTextsStored(c: Cluster, job: Job, d: Cluster)
    requires Planned(job) && ValidSource(job.spec.config) && ValidSource(job.spec.gatewayConfig)
    requires GeneratedOf(c, job).failure.None? && d.configMaps == GeneratedOf(c, job).store
    ensures RawStored(c, d, job.agent, job.agent + "-config", "config.yaml", job.spec.config.raw)
    ensures RawStored(c, d, job.agent, job.agent + "-gateway-config", "gateway.json", job.spec.gatewayConfig.raw)
  {
    RawFiles(job.agent, job.spec);
    hide GeneratedOf, PlanFiles, ConfigMapAsked, ValidSource;
    if job.spec.config.raw != [] {
      var i :| 0 <= i < |job.plan.files| && RawFile(job.plan.files[i], job.agent + "-config", "config.yaml",
        job.spec.config.raw);
      GeneratedStored(c, job, i);
    }
    if job.spec.gatewayConfig.raw != [] {
      var i :| 0 <= i < |job.plan.files| && RawFile(job.plan.files[i], job.agent + "-gateway-config", "gateway.json",
        job.spec.gatewayConfig.raw);
      GeneratedStored(c, job, i);
    }
  }

  // ---- all of it ----------------------------------------------------------------------------------------------

  /** The objects of the agent in the fields of its spec, given those found before: the wanted ones are as asked for,
      the unwanted ones gone if they were the agent's. */
  ghost predicate ResourcesAsked(lib: Library, c: Cluster, d: Cluster, job: Job) {
    var agent, spec, n := job.agent, job.spec, job.agent + "-data";
    && RawStored(c, d, agent, agent + "-config", "config.yaml", spec.config.raw)
    && RawStored(c, d, agent, agent + "-gateway-config", "gateway.json", spec.gatewayConfig.raw)
    && agent in d.statefulSets && WorkloadAsked(d.statefulSets[agent].spec, agent, spec, job.plan.hash)
    && (if spec.persistence.enabled == Some(false) then d.claims == c.claims
        else n in d.claims && ClaimAsked(lib, d.claims[n], agent, spec, Lookup(c.claims, n)))
    && (if spec.service.enabled then
          agent in d.services && ServiceAsked(d.services[agent], agent, spec.service, Lookup(c.services, agent))
        else
          Withdrawn(d.services, c.services, agent, agent in c.services && Owned(c.services[agent].controller, agent)))
    && (if spec.networkPolicy.enabled == Some(true) then
          agent in d.policies && PolicyAsked(d.policies[agent], agent, spec.networkPolicy,
            Terminal.EffectiveBackend(lib, spec, job.inputs), Lookup(c.policies, agent))
        else
          Withdrawn(d.policies, c.policies, agent, agent in c.policies && Owned(c.policies[agent].controller, agent)))
    && (if spec.replicas > 1 then
          agent in d.budgets && BudgetAsked(d.budgets[agent], agent, Lookup(c.budgets, agent))
        else Withdrawn(d.budgets, c.budgets, agent, agent in c.budgets && Owned(c.budgets[agent].controller, agent)))
  }

  lemma PipelineAsAsked(lib: Library, c: Cluster, job: Job, agents: map<string, Agent>)
    requires Planned(job) && ValidSource(job.spec.config) && ValidSource(job.spec.gatewayConfig)
    requires AllSucceed(lib, c, job)
    ensures ResourcesAsked(lib, c, AfterAll(lib, c, job).(agents := agents), job)
  {
    hide WorkloadAsked, ClaimAsked, ServiceAsked, PolicyAsked, BudgetAsked, Withdrawn, GeneratedStep, ClaimStep,
      WorkloadStep, ServiceStep, PolicyStep, BudgetStep, Terminal.EffectiveBackend, BuildStatefulSet,
      BuildTemplateInputs, Managed, RawStored, PlanFiles, ValidSource;
    RawTextsStored(c, job, AfterAll(lib, c, job).(agents := agents));
    StoredWorkload(lib, c, job);
    WorkloadExact(job.agent, job.spec, job.plan);
    ClaimStoredAsAsked(lib, c.claims, job.agent, job.spec);
    ServiceExact(c.services, job.agent, job.spec);
    PolicyExact(c.policies, job.agent, job.spec, Terminal.EffectiveBackend(lib, job.spec, job.inputs));
    BudgetExact(c.budgets, job.agent, job.spec);
  }

  lemma PreparedValid(lib: Library, c: Cluster, agent: string, spec: AgentSpec)
    requires Prepare(lib, c, agent, spec).Prepared?
    ensures ValidConfig(spec)
  {
    hide ValidConfig;
  }

  /** After every successful reconcile that reached the steps the stored objects say, in the fields of the spec, what it
      asks for. */
  lemma StoredAsAsked(lib: Library, c: Cluster, agent: string, now: nat)
    requires agent in c.agents
    ensures var p := Prepare(lib, c, agent, c.agents[agent].spec);
      var r := Reconcile(lib, c, agent, now);
      p.Prepared? && r.outcome == Done ==> ResourcesAsked(lib, c, r.cluster, p.job)
  {
    hide Reconcile, Prepare, AllSucceed, AfterAll, ResourcesAsked;
    var p := Prepare(lib, c, agent, c.agents[agent].spec);
    if p.Prepared? && Reconcile(lib, c, agent, now).outcome == Done {
      PreparedJob(lib, c, agent, c.agents[agent].spec, p.job);
      PreparedValid(lib, c, agent, c.agents[agent].spec);
      PreparedOutcome(lib, c, agent, p.job, now);
      PipelineAsAsked(lib, c, p.job, Reconcile(lib, c, agent, now).cluster.agents);
    }
  }
}
