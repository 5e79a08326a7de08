/** The HermesAgent resource and the cluster objects the operator reads and writes.
    One namespace is modelled: every lookup of the operator is in the agent's own. */
module Api {
  import opened Prelude

  // ---- spec -------------------------------------------------------------------

  datatype KeySelector = KeySelector(name: string, key: string, optional: Option<bool>)

  datatype ConfigSource = ConfigSource(
    raw: Bytes, configMapRef: Option<KeySelector>, secretRef: Option<KeySelector>)

  datatype EnvVarSource = EnvVarSource(
    configMapKeyRef: Option<KeySelector>, secretKeyRef: Option<KeySelector>, fieldRef: Option<string>)

  datatype EnvVar = EnvVar(name: string, value: string, valueFrom: Option<EnvVarSource>)

  datatype EnvSource = EnvSource(name: string, optional: Option<bool>)

  datatype EnvFromSource = EnvFromSource(
    prefix: string, configMapRef: Option<EnvSource>, secretRef: Option<EnvSource>)

  datatype ProjectionItem = ProjectionItem(key: string, path: string, mode: Option<int>)

  datatype FileMount = FileMount(
    mountPath: string, configMapRef: Option<string>, secretRef: Option<string>,
    items: seq<ProjectionItem>, defaultMode: Option<int>)

  datatype ImageSpec = ImageSpec(repository: string, tag: string, pullPolicy: string)

  datatype PersistenceSpec = PersistenceSpec(
    enabled: Option<bool>, size: string, storageClassName: Option<string>, accessModes: seq<string>)

  datatype ProbeSpec = ProbeSpec(
    enabled: Option<bool>, initialDelaySeconds: int, periodSeconds: int, timeoutSeconds: int, failureThreshold: int)

  datatype ProbesSpec = ProbesSpec(
    startup: ProbeSpec, readiness: ProbeSpec, liveness: ProbeSpec, requireConnectedPlatform: bool)

  datatype RollingUpdate = RollingUpdate(partition: Option<int>)

  datatype UpdateStrategy = UpdateStrategy(strategy: string, rollingUpdate: Option<RollingUpdate>)

  datatype ServiceOptions = ServiceOptions(
    enabled: bool, annotations: map<string, string>, serviceType: string, port: int, targetPort: int)

  datatype LabelSelector = LabelSelector(matchLabels: map<string, string>, matchExpressions: seq<string>)

  datatype Destination = Destination(
    cidr: string, except: seq<string>,
    namespaceSelector: Option<LabelSelector>, podSelector: Option<LabelSelector>)

  datatype EgressOptions = EgressOptions(
    enabled: Option<bool>, destinations: seq<Destination>,
    additionalTCPPorts: seq<int>, additionalUDPPorts: seq<int>)

  /** `scheduling` stands for the pod fields that are copied through unchanged: node selector,
      tolerations, affinity, spread constraints, grace period and resources. */
  datatype AgentSpec = AgentSpec(
    image: ImageSpec,
    mode: string,
    config: ConfigSource,
    gatewayConfig: ConfigSource,
    env: seq<EnvVar>,
    envFrom: seq<EnvFromSource>,
    secretRefs: seq<string>,
    fileMounts: seq<FileMount>,
    imagePullSecrets: seq<string>,
    podLabels: map<string, string>,
    podAnnotations: map<string, string>,
    serviceAccountName: string,
    automountServiceAccountToken: Option<bool>,
    scheduling: string,
    replicas: int,
    updateStrategy: UpdateStrategy,
    persistence: PersistenceSpec,
    terminalBackend: string,
    probes: ProbesSpec,
    service: ServiceOptions,
    networkPolicy: EgressOptions)

  // ---- objects shared by the whole model -----------------------------------------

  /** Who controls an object: one of the agents of the namespace, or anybody else. */
  datatype Owner = AgentOwner(agent: string) | OtherOwner(id: string)

  datatype ConfigMap = ConfigMap(
    controller: Option<Owner>, labels: map<string, string>,
    data: map<string, Bytes>, binaryData: map<string, Bytes>)

  datatype Secret = Secret(data: map<string, Bytes>)

  type ConfigMaps = map<string, ConfigMap>
  type Secrets = map<string, Secret>

  // ---- effective settings ----------------------------------------------------------

  function OptionalValue(value: Option<bool>): bool {
    value == Some(true)
  }

  function DesiredReplicas(spec: AgentSpec): int {
    if spec.replicas == 0 then 1 else spec.replicas
  }

  predicate PersistenceEnabled(spec: AgentSpec) {
    spec.persistence.enabled.None? || spec.persistence.enabled.value
  }

  predicate NetworkPolicyEnabled(spec: AgentSpec) {
    spec.networkPolicy.enabled == Some(true)
  }

  predicate DisruptionBudgetEnabled(spec: AgentSpec) {
    DesiredReplicas(spec) > 1
  }

  function PersistenceSize(spec: AgentSpec): string {
    if spec.persistence.size == "" then "10Gi" else spec.persistence.size
  }

  function PersistenceAccessModes(spec: AgentSpec): seq<string> {
    if spec.persistence.accessModes == [] then ["ReadWriteOnce"] else spec.persistence.accessModes
  }

  function ServiceType(spec: AgentSpec): string {
    if spec.service.serviceType == "" then "ClusterIP" else spec.service.serviceType
  }

  function ServicePortNumber(spec: AgentSpec): int {
    if spec.service.port <= 0 then 8080 else spec.service.port
  }

  function ServiceTargetPort(spec: AgentSpec): int {
    if spec.service.targetPort <= 0 then ServicePortNumber(spec) else spec.service.targetPort
  }

  function HermesImage(image: ImageSpec): string {
    if image.tag == "" then image.repository else image.repository + ":" + image.tag
  }

  function ResourceLabels(agent: string): map<string, string> {
    map["app.kubernetes.io/name" := "k8s-operator-hermes-agent",
        "app.kubernetes.io/managed-by" := "kustomize",
        "app.kubernetes.io/instance" := agent]
  }

  function GeneratedConfigMapName(agent: string, id: string): string {
    agent + "-" + id
  }

  function ClaimName(agent: string): string {
    agent + "-data"
  }
}
