/** The accumulating validation of the admission webhook, beyond config sources and file mounts. */
module Admission {
  import opened Prelude
  import opened Api
  import opened Validation

  ghost predicate ValidEnv(env: seq<EnvVar>) {
    forall i :: 0 <= i < |env| ==> ValidEnvVar(env[i])
  }

  predicate ValidEnvVar(env: EnvVar) {
    && env.name != ""
    && (env.valueFrom.Some? ==>
      NamedKey(env.valueFrom.value.configMapKeyRef) && NamedKey(env.valueFrom.value.secretKeyRef))
  }

  predicate ValidEnvSource(source: EnvFromSource) {
    && source.configMapRef.Some? != source.secretRef.Some?
    && (source.configMapRef.Some? ==> source.configMapRef.value.name != "")
    && (source.secretRef.Some? ==> source.secretRef.value.name != "")
  }

  ghost predicate ValidEnvFrom(sources: seq<EnvFromSource>) {
    forall i :: 0 <= i < |sources| ==> ValidEnvSource(sources[i])
  }

  /** More than one replica is admitted only without the agent's own claim. */
  predicate ValidReplicas(spec: AgentSpec) {
    spec.replicas >= 1 && (spec.replicas > 1 ==> !PersistenceEnabled(spec))
  }

  /** Library checks the webhook calls: quantity parsing, CIDR parsing and label selector validation. */
  datatype Parsers = Parsers(quantity: string -> Option<int>, prefix: string -> bool, selector: LabelSelector -> bool)

  predicate ValidStorage(p: Parsers, size: string) {
    size == "" || (p.quantity(size).Some? && p.quantity(size).value > 0)
  }

  predicate ValidUpdateStrategy(strategy: UpdateStrategy) {
    strategy.rollingUpdate.Some? ==>
      && strategy.strategy != "OnDelete"
      && var partition := strategy.rollingUpdate.value.partition; partition.Some? ==> partition.value >= 0
  }

  predicate ValidService(service: ServiceOptions) {
    (service.enabled ==> service.port > 0) && service.targetPort >= 0
  }

  predicate ValidDestination(p: Parsers, d: Destination) {
    && (d.cidr != "" || d.namespaceSelector.Some? || d.podSelector.Some?)
    && (d.cidr != "" ==> p.prefix(d.cidr))
    && (d.except != [] ==> d.cidr != "")
    && (forall i :: 0 <= i < |d.except| ==> p.prefix(d.except[i]))
    && (d.namespaceSelector.Some? ==> p.selector(d.namespaceSelector.value))
    && (d.podSelector.Some? ==> p.selector(d.podSelector.value))
  }

  predicate ValidPorts(ports: seq<int>) {
    forall i :: 0 <= i < |ports| ==> 0 < ports[i] <= 65535
  }

  predicate ValidNetworkPolicy(p: Parsers, options: EgressOptions) {
    && (forall i :: 0 <= i < |options.destinations| ==> ValidDestination(p, options.destinations[i]))
    && ValidPorts(options.additionalTCPPorts) && ValidPorts(options.additionalUDPPorts)
  }

  predicate ValidProbe(probe: ProbeSpec) {
    probe.periodSeconds >= 0 && probe.timeoutSeconds >= 0 && probe.failureThreshold >= 0
      && probe.initialDelaySeconds >= 0
  }

  ghost predicate Admitted(p: Parsers, spec: AgentSpec) {
    && ValidConfig(spec)
    && ValidEnv(spec.env)
    && ValidEnvFrom(spec.envFrom)
    && "" !in spec.secretRefs
    && "" !in spec.imagePullSecrets
    && ValidReplicas(spec)
    && ValidUpdateStrategy(spec.updateStrategy)
    && ValidService(spec.service)
    && ValidNetworkPolicy(p, spec.networkPolicy)
    && ValidStorage(p, spec.persistence.size)
    && ValidProbe(spec.probes.startup) && ValidProbe(spec.probes.readiness) && ValidProbe(spec.probes.liveness)
  }

  // ---- which field an error names -------------------------------------------------------------------

  predicate KeyFault(selector: Option<KeySelector>, field: string, at: nat, e: FieldError) {
    && selector.Some?
    && ((selector.value.name == "" && e == Required(field + ".name", [at]))
        || (selector.value.key == "" && e == Required(field + ".key", [at])))
  }

  predicate EnvFault(env: EnvVar, at: nat, e: FieldError) {
    || (env.name == "" && e == Required("name", [at]))
    || (env.valueFrom.Some? && KeyFault(env.valueFrom.value.configMapKeyRef, "configMapKeyRef", at, e))
    || (env.valueFrom.Some? && KeyFault(env.valueFrom.value.secretKeyRef, "secretKeyRef", at, e))
  }

  predicate EnvSourceFault(source: EnvFromSource, at: nat, e: FieldError) {
    || (source.configMapRef.Some? == source.secretRef.Some? && e == Invalid("envFrom", [at]))
    || (source.configMapRef.Some? && source.configMapRef.value.name == "" && e == Required("configMapRef.name", [at]))
    || (source.secretRef.Some? && source.secretRef.value.name == "" && e == Required("secretRef.name", [at]))
  }

  predicate ProbeFault(probe: ProbeSpec, e: FieldError) {
    || (probe.periodSeconds < 0 && e == Invalid("periodSeconds", []))
    || (probe.timeoutSeconds < 0 && e == Invalid("timeoutSeconds", []))
    || (probe.failureThreshold < 0 && e == Invalid("failureThreshold", []))
    || (probe.initialDelaySeconds < 0 && e == Invalid("initialDelaySeconds", []))
  }

  predicate UpdateFault(strategy: UpdateStrategy, e: FieldError) {
    && strategy.rollingUpdate.Some?
    && var partition := strategy.rollingUpdate.value.partition;
       || (strategy.strategy == "OnDelete" && e == Invalid("rollingUpdate", []))
       || (partition.Some? && partition.value < 0 && e == Invalid("rollingUpdate.partition", []))
  }

  predicate DestinationFault(p: Parsers, d: Destination, at: nat, e: FieldError) {
    || (d.cidr == "" && d.namespaceSelector.None? && d.podSelector.None? && e == Invalid("destinations", [at]))
    || (d.cidr != "" && !p.prefix(d.cidr) && e == Invalid("cidr", [at]))
    || (d.except != [] && d.cidr == "" && e == Invalid("except", [at]))
    || (exists i :: 0 <= i < |d.except| && !p.prefix(d.except[i]) && e == Invalid("except", [at, i]))
    || (d.namespaceSelector.Some? && !p.selector(d.namespaceSelector.value) && e == Invalid("namespaceSelector", [at]))
    || (d.podSelector.Some? && !p.selector(d.podSelector.value) && e == Invalid("podSelector", [at]))
  }

  method ValidateKeySelector(selector: Option<KeySelector>, field: string, at: nat) returns (errors: seq<FieldError>)
    ensures errors == [] <==> NamedKey(selector)
    ensures forall e :: e in errors <==> KeyFault(selector, field, at, e)
  {
    errors := [];
    if selector.Some? {
      if selector.value.name == "" { errors := errors + [Required(field + ".name", [at])]; }
      if selector.value.key == "" { errors := errors + [Required(field + ".key", [at])]; }
    }
  }

  method ValidateEnv(env: seq<EnvVar>) returns (errors: seq<FieldError>)
    ensures errors == [] <==> ValidEnv(env)
    ensures forall e :: e in errors <==> exists i :: 0 <= i < |env| && EnvFault(env[i], i, e)
  {
    errors := [];
    for i := 0 to |env|
      invariant errors == [] <==> forall k :: 0 <= k < i ==> ValidEnvVar(env[k])
      invariant forall e :: e in errors <==> exists k :: 0 <= k < i && EnvFault(env[k], k, e)
    {
      ghost var before := errors;
      if env[i].name == "" { errors := errors + [Required("name", [i])]; }
      if env[i].valueFrom.Some? {
        var configMapErrors := ValidateKeySelector(env[i].valueFrom.value.configMapKeyRef, "configMapKeyRef", i);
        var secretErrors := ValidateKeySelector(env[i].valueFrom.value.secretKeyRef, "secretKeyRef", i);
        errors := errors + configMapErrors + secretErrors;
      }
      assert forall e :: e in errors <==> e in before || EnvFault(env[i], i, e);
      hide EnvFault, ValidEnvVar;
    }
  }

  method ValidateEnvFrom(sources: seq<EnvFromSource>) returns (errors: seq<FieldError>)
    ensures errors == [] <==> ValidEnvFrom(sources)
    ensures forall e :: e in errors <==> exists i :: 0 <= i < |sources| && EnvSourceFault(sources[i], i, e)
  {
    errors := [];
    for i := 0 to |sources|
      invariant errors == [] <==> forall k :: 0 <= k < i ==> ValidEnvSource(sources[k])
      invariant forall e :: e in errors <==> exists k :: 0 <= k < i && EnvSourceFault(sources[k], k, e)
    {
      ghost var before := errors;
      var source := sources[i];
      var hasConfigMap, hasSecret := source.configMapRef.Some?, source.secretRef.Some?;
      if hasConfigMap && hasSecret {
        errors := errors + [Invalid("envFrom", [i])];
      } else if !hasConfigMap && !hasSecret {
        errors := errors + [Invalid("envFrom", [i])];
      }
      if hasConfigMap && source.configMapRef.value.name == "" {
        errors := errors + [Required("configMapRef.name", [i])];
      }
      if hasSecret && source.secretRef.value.name == "" { errors := errors + [Required("secretRef.name", [i])]; }
      assert forall e :: e in errors <==> e in before || EnvSourceFault(sources[i], i, e);
      hide EnvSourceFault, ValidEnvSource;
    }
  }

  method ValidateLocalObjectReferences(names: seq<string>) returns (errors: seq<FieldError>)
    ensures errors == [] <==> "" !in names
    ensures forall e :: e in errors <==> exists i :: 0 <= i < |names| && names[i] == "" && e == Required("name", [i])
  {
    errors := [];
    for i := 0 to |names|
      invariant errors == [] <==> "" !in names[..i]
      invariant forall e :: e in errors <==> exists k :: 0 <= k < i && names[k] == "" && e == Required("name", [k])
    {
      if names[i] == "" { errors := errors + [Required("name", [i])]; }
    }
  }

  method ValidateReplicas(spec: AgentSpec) returns (errors: seq<FieldError>)
    ensures errors == [] <==> ValidReplicas(spec)
    ensures forall e :: e in errors ==> e == Invalid("replicas", [])
  {
    errors := [];
    if spec.replicas <= 0 { errors := errors + [Invalid("replicas", [])]; }
    var persistenceEnabled := spec.persistence.enabled.None? || spec.persistence.enabled.value;
    if spec.replicas > 1 && persistenceEnabled { errors := errors + [Invalid("replicas", [])]; }
  }

  method ValidateUpdateStrategy(strategy: UpdateStrategy) returns (errors: seq<FieldError>)
    ensures errors == [] <==> ValidUpdateStrategy(strategy)
    ensures forall e :: e in errors <==> UpdateFault(strategy, e)
  {
    errors := [];
    if strategy.rollingUpdate.None? { return; }
    if strategy.strategy == "OnDelete" { errors := errors + [Invalid("rollingUpdate", [])]; }
    var partition := strategy.rollingUpdate.value.partition;
    if partition.Some? && partition.value < 0 { errors := errors + [Invalid("rollingUpdate.partition", [])]; }
  }

  method ValidateService(service: ServiceOptions) returns (errors: seq<FieldError>)
    ensures errors == [] <==> ValidService(service)
    ensures forall e :: e in errors <==>
      (service.enabled && service.port <= 0 && e == Invalid("port", []))
      || (service.targetPort < 0 && e == Invalid("targetPort", []))
  {
    errors := [];
    if service.enabled && service.port <= 0 { errors := errors + [Invalid("port", [])]; }
    if service.targetPort < 0 { errors := errors + [Invalid("targetPort", [])]; }
  }

  method ValidateDestination(p: Parsers, d: Destination, at: nat) returns (errors: seq<FieldError>)
    ensures errors == [] <==> ValidDestination(p, d)
    ensures forall e :: e in errors <==> DestinationFault(p, d, at, e)
  {
    errors := [];
    if d.cidr == "" && d.namespaceSelector.None? && d.podSelector.None? {
      errors := errors + [Invalid("destinations", [at])];
    }
    if d.cidr != "" && !p.prefix(d.cidr) { errors := errors + [Invalid("cidr", [at])]; }
    if |d.except| > 0 && d.cidr == "" { errors := errors + [Invalid("except", [at])]; }
    ghost var before := errors;
    for i := 0 to |d.except|
      invariant errors == [] <==> before == [] && forall k :: 0 <= k < i ==> p.prefix(d.except[k])
      invariant forall e :: e in errors <==>
        e in before || exists k :: 0 <= k < i && !p.prefix(d.except[k]) && e == Invalid("except", [at, k])
    {
      if !p.prefix(d.except[i]) { errors := errors + [Invalid("except", [at, i])]; }
    }
    if d.namespaceSelector.Some? && !p.selector(d.namespaceSelector.value) {
      errors := errors + [Invalid("namespaceSelector", [at])];
    }
    if d.podSelector.Some? && !p.selector(d.podSelector.value) { errors := errors + [Invalid("podSelector", [at])]; }
  }

  method ValidateNetworkPolicyPorts(ports: seq<int>) returns (errors: seq<FieldError>)
    ensures errors == [] <==> ValidPorts(ports)
    ensures forall e :: e in errors <==> exists i ::
      0 <= i < |ports| && !(0 < ports[i] <= 65535) && e == Invalid("ports", [i])
  {
    errors := [];
    for i := 0 to |ports|
      invariant forall e :: e in errors <==> exists k ::
        0 <= k < i && !(0 < ports[k] <= 65535) && e == Invalid("ports", [k])
      invariant errors == [] <==> forall k :: 0 <= k < i ==> 0 < ports[k] <= 65535
    {
      if ports[i] <= 0 || ports[i] > 65535 { errors := errors + [Invalid("ports", [i])]; }
    }
  }

  method ValidateNetworkPolicy(p: Parsers, options: EgressOptions) returns (errors: seq<FieldError>)
    ensures errors == [] <==> ValidNetworkPolicy(p, options)
  {
    hide ValidDestination, ValidPorts;
    errors := [];
    for i := 0 to |options.destinations|
      invariant errors == [] <==> forall k :: 0 <= k < i ==> ValidDestination(p, options.destinations[k])
    {
      var more := ValidateDestination(p, options.destinations[i], i);
      errors := errors + more;
    }
    var tcp := ValidateNetworkPolicyPorts(options.additionalTCPPorts);
    var udp := ValidateNetworkPolicyPorts(options.additionalUDPPorts);
    errors := errors + tcp + udp;
  }

  method ValidateStorage(p: Parsers, size: string) returns (errors: seq<FieldError>)
    ensures errors == [] <==> ValidStorage(p, size)
    ensures forall e :: e in errors ==> e == Invalid("size", [])
  {
    errors := [];
    if size == "" { return; }
    var quantity := p.quantity(size);
    if quantity.None? { return [Invalid("size", [])]; }
    if quantity.value <= 0 { errors := errors + [Invalid("size", [])]; }
  }

  method ValidateProbeSpec(probe: ProbeSpec) returns (errors: seq<FieldError>)
    ensures errors == [] <==> ValidProbe(probe)
    ensures forall e :: e in errors <==> ProbeFault(probe, e)
  {
    errors := [];
    if probe.periodSeconds < 0 { errors := errors + [Invalid("periodSeconds", [])]; }
    if probe.timeoutSeconds < 0 { errors := errors + [Invalid("timeoutSeconds", [])]; }
    if probe.failureThreshold < 0 { errors := errors + [Invalid("failureThreshold", [])]; }
    if probe.initialDelaySeconds < 0 { errors := errors + [Invalid("initialDelaySeconds", [])]; }
  }

  method ValidateHermesAgent(p: Parsers, spec: AgentSpec) returns (errors: seq<FieldError>)
    ensures errors == [] <==> Admitted(p, spec)
  {
    hide ValidMounts, ValidSource, ValidEnv, ValidEnvFrom, ValidReplicas, ValidUpdateStrategy, ValidService,
      ValidNetworkPolicy, ValidStorage, ValidProbe;
    errors := ValidateConfigSource(spec.config);
    var more := ValidateConfigSource(spec.gatewayConfig);
    errors := errors + more;
    more := ValidateEnv(spec.env);
    errors := errors + more;
    more := ValidateEnvFrom(spec.envFrom);
    errors := errors + more;
    more := ValidateLocalObjectReferences(spec.secretRefs);
    errors := errors + more;
    more := ValidateFileMounts(spec.fileMounts);
    errors := errors + more;
    more := ValidateLocalObjectReferences(spec.imagePullSecrets);
    errors := errors + more;
    more := ValidateReplicas(spec);
    errors := errors + more;
    more := ValidateUpdateStrategy(spec.updateStrategy);
    errors := errors + more;
    more := ValidateService(spec.service);
    errors := errors + more;
    more := ValidateNetworkPolicy(p, spec.networkPolicy);
    errors := errors + more;
    more := ValidateStorage(p, spec.persistence.size);
    errors := errors + more;
    more := ValidateProbeSpec(spec.probes.startup);
    errors := errors + more;
    more := ValidateProbeSpec(spec.probes.readiness);
    errors := errors + more;
    more := ValidateProbeSpec(spec.probes.liveness);
    errors := errors + more;
  }
}
