/** The pod template and the StatefulSet built around it. */
module PodTemplate {
  import opened Prelude
  import opened Api
  import opened ConfigPlan
  import Decimal

  datatype KeyToPath = KeyToPath(key: string, path: string, mode: Option<int>)

  datatype VolumeSource =
    | ConfigMapVolume(name: string, items: seq<KeyToPath>, defaultMode: Option<int>)
    | SecretVolume(name: string, items: seq<KeyToPath>, defaultMode: Option<int>)
    | ClaimVolume(name: string)
    | EmptyDir

  datatype Volume = Volume(name: string, source: VolumeSource)
  datatype VolumeMount = VolumeMount(name: string, mountPath: string, subPath: string, readOnly: bool)

  datatype TemplateInputs = TemplateInputs(
    annotations: map<string, string>, env: seq<EnvVar>, envFrom: seq<EnvFromSource>,
    volumes: seq<Volume>, mounts: seq<VolumeMount>)

  const HASH_ANNOTATION := "hermes.nous.ai/config-hash"
  const HOME_VARIABLE := EnvVar("HERMES_HOME", HOME, None)

  // ---- environment ------------------------------------------------------------------------

  ghost predicate FirstNamed(env: seq<EnvVar>, i: nat, name: string) {
    i < |env| && env[i].name == name && forall k :: 0 <= k < i ==> env[k].name != name
  }

  /** Replace the first variable of that name, or append. */
  function Upserted(env: seq<EnvVar>, value: EnvVar): seq<EnvVar> {
    if env == [] then [value]
    else if env[0].name == value.name then [value] + env[1..]
    else [env[0]] + Upserted(env[1..], value)
  }

  lemma {:induction false} UpsertedAt(env: seq<EnvVar>, value: EnvVar, i: nat)
    requires FirstNamed(env, i, value.name)
    ensures Upserted(env, value) == env[i := value]
  {
    if i > 0 {
      assert forall k :: 0 <= k < i - 1 ==> env[1..][k] == env[k + 1];
      UpsertedAt(env[1..], value, i - 1);
    }
  }

  lemma {:induction false} UpsertedAppends(env: seq<EnvVar>, value: EnvVar)
    requires forall k :: 0 <= k < |env| ==> env[k].name != value.name
    ensures Upserted(env, value) == env + [value]
  {
    if env != [] {
      assert forall k :: 0 <= k < |env| - 1 ==> env[1..][k] == env[k + 1];
      UpsertedAppends(env[1..], value);
    }
  }

  method UpsertEnvVar(env: seq<EnvVar>, value: EnvVar) returns (r: seq<EnvVar>)
    ensures r == Upserted(env, value)
  {
    for i := 0 to |env|
      invariant forall k :: 0 <= k < i ==> env[k].name != value.name
    {
      if env[i].name == value.name {
        UpsertedAt(env, value, i);
        return env[i := value];
      }
    }
    UpsertedAppends(env, value);
    return env + [value];
  }

  // ---- volumes and mounts ---------------------------------------------------------------------

  function ConfigFileSource(file: ConfigFile): VolumeSource {
    var items := [KeyToPath(file.sourceKey, file.fileName, None)];
    if file.secretName != "" then SecretVolume(file.secretName, items, None)
    else ConfigMapVolume(file.configMapName, items, None)
  }

  function ConfigVolumes(files: seq<ConfigFile>): seq<Volume> {
    seq(|files|, i requires 0 <= i < |files| => Volume("hermes-" + files[i].id, ConfigFileSource(files[i])))
  }

  function ConfigMounts(files: seq<ConfigFile>): seq<VolumeMount> {
    seq(|files|, i requires 0 <= i < |files| => VolumeMount("hermes-" + files[i].id, files[i].mountPath,
      files[i].fileName, true))
  }

  function SecretRefVolumeName(i: nat): string { "secret-ref-" + Decimal.Print(i) }
  function FileMountVolumeName(i: nat): string { "file-mount-" + Decimal.Print(i) }

  function SecretVolumes(names: seq<string>): seq<Volume> {
    if names == [] then []
    else
      var last := |names| - 1;
      SecretVolumes(names[..last])
      + (if names[last] == "" then [] else [Volume(SecretRefVolumeName(last), SecretVolume(names[last], [], None))])
  }

  function SecretMounts(names: seq<string>): seq<VolumeMount> {
    if names == [] then []
    else
      var last := |names| - 1;
      SecretMounts(names[..last])
      + (if names[last] == "" then []
         else [VolumeMount(SecretRefVolumeName(last), "/var/run/hermes/secrets/" + names[last], "", true)])
  }

  function ProjectionItems(items: seq<ProjectionItem>): seq<KeyToPath> {
    seq(|items|, i requires 0 <= i < |items| => KeyToPath(items[i].key, items[i].path, items[i].mode))
  }

  function FileMountSource(mount: FileMount): Option<VolumeSource> {
    var items := ProjectionItems(mount.items);
    if mount.configMapRef.Some? && mount.configMapRef.value != "" then
      Some(ConfigMapVolume(mount.configMapRef.value, items, mount.defaultMode))
    else if mount.secretRef.Some? && mount.secretRef.value != "" then
      Some(SecretVolume(mount.secretRef.value, items, mount.defaultMode))
    else None
  }

  function FileVolumes(mounts: seq<FileMount>): seq<Volume> {
    if mounts == [] then []
    else
      var last := |mounts| - 1;
      var source := FileMountSource(mounts[last]);
      FileVolumes(mounts[..last]) + (if source.None? then [] else [Volume(FileMountVolumeName(last), source.value)])
  }

  function FileVolumeMounts(mounts: seq<FileMount>): seq<VolumeMount> {
    if mounts == [] then []
    else
      var last := |mounts| - 1;
      FileVolumeMounts(mounts[..last])
      + (if FileMountSource(mounts[last]).None? then []
         else [VolumeMount(FileMountVolumeName(last), mounts[last].mountPath, "", true)])
  }

  function BuildTemplateInputs(spec: AgentSpec, plan: Plan): TemplateInputs {
    TemplateInputs(
      map[HASH_ANNOTATION := plan.hash],
      Upserted(spec.env, HOME_VARIABLE),
      spec.envFrom,
      ConfigVolumes(plan.files) + SecretVolumes(spec.secretRefs) + FileVolumes(spec.fileMounts),
      ConfigMounts(plan.files) + SecretMounts(spec.secretRefs) + FileVolumeMounts(spec.fileMounts))
  }

  /** buildPodTemplateInputs: the record grows step by step through one reference. */
  class TemplateBuilder {
    var inputs: TemplateInputs

    constructor (spec: AgentSpec, plan: Plan)
      ensures inputs == BuildTemplateInputs(spec, plan)
    {
      inputs := TemplateInputs(map[HASH_ANNOTATION := plan.hash], spec.env, spec.envFrom, [], []);
      new;
      hide Upserted, ConfigVolumes, ConfigMounts, SecretVolumes, SecretMounts, FileVolumes, FileVolumeMounts;
      var env := UpsertEnvVar(inputs.env, HOME_VARIABLE);
      inputs := inputs.(env := env);
      AppendConfigFileInputs(plan.files);
      AppendSecretReferenceInputs(spec.secretRefs);
      AppendFileMountInputs(spec.fileMounts);
    }

    method AppendConfigFileInputs(files: seq<ConfigFile>)
      modifies this
      ensures inputs == old(inputs).(volumes := old(inputs).volumes + ConfigVolumes(files), mounts :=
        old(inputs).mounts + ConfigMounts(files))
    {
      for i := 0 to |files|
        invariant inputs == old(inputs).(volumes := old(inputs).volumes + ConfigVolumes(files)[..i], mounts :=
          old(inputs).mounts + ConfigMounts(files)[..i])
      {
        var volumeName := "hermes-" + files[i].id;
        inputs := inputs.(
          volumes := inputs.volumes + [Volume(volumeName, ConfigFileSource(files[i]))],
          mounts := inputs.mounts + [VolumeMount(volumeName, files[i].mountPath, files[i].fileName, true)]);
      }
    }

    method AppendSecretReferenceInputs(names: seq<string>)
      modifies this
      ensures inputs == old(inputs).(volumes := old(inputs).volumes + SecretVolumes(names), mounts :=
        old(inputs).mounts + SecretMounts(names))
    {
      for i := 0 to |names|
        invariant inputs == old(inputs).(volumes := old(inputs).volumes + SecretVolumes(names[..i]), mounts :=
          old(inputs).mounts + SecretMounts(names[..i]))
      {
        assert names[..i + 1][..i] == names[..i];
        if names[i] == "" { continue; }
        var volumeName := SecretRefVolumeName(i);
        inputs := inputs.(
          volumes := inputs.volumes + [Volume(volumeName, SecretVolume(names[i], [], None))],
          mounts := inputs.mounts + [VolumeMount(volumeName, "/var/run/hermes/secrets/" + names[i], "", true)]);
      }
      assert names[..|names|] == names;
    }

    method AppendFileMountInputs(fileMounts: seq<FileMount>)
      modifies this
      ensures inputs == old(inputs).(volumes := old(inputs).volumes + FileVolumes(fileMounts), mounts :=
        old(inputs).mounts + FileVolumeMounts(fileMounts))
    {
      for i := 0 to |fileMounts|
        invariant inputs == old(inputs).(volumes := old(inputs).volumes + FileVolumes(fileMounts[..i]), mounts :=
          old(inputs).mounts + FileVolumeMounts(fileMounts[..i]))
      {
        assert fileMounts[..i + 1][..i] == fileMounts[..i];
        var source := FileMountSource(fileMounts[i]);
        if source.None? { continue; }
        var volumeName := FileMountVolumeName(i);
        inputs := inputs.(
          volumes := inputs.volumes + [Volume(volumeName, source.value)],
          mounts := inputs.mounts + [VolumeMount(volumeName, fileMounts[i].mountPath, "", true)]);
      }
      assert fileMounts[..|fileMounts|] == fileMounts;
    }
  }

  // ---- the StatefulSet -----------------------------------------------------------------------------

  datatype ProbeConfig = ProbeConfig(
    enabled: bool, initialDelaySeconds: int, periodSeconds: int, timeoutSeconds: int, failureThreshold: int)

  const STARTUP_DEFAULTS := ProbeConfig(true, 0, 10, 5, 18)
  const READINESS_DEFAULTS := ProbeConfig(true, 5, 10, 5, 3)
  const LIVENESS_DEFAULTS := ProbeConfig(true, 15, 10, 5, 3)

  function ResolveProbe(spec: ProbeSpec, defaults: ProbeConfig): ProbeConfig {
    ProbeConfig(
      if spec.enabled.Some? then spec.enabled.value else defaults.enabled,
      if spec.initialDelaySeconds > 0 then spec.initialDelaySeconds else defaults.initialDelaySeconds,
      if spec.periodSeconds > 0 then spec.periodSeconds else defaults.periodSeconds,
      if spec.timeoutSeconds > 0 then spec.timeoutSeconds else defaults.timeoutSeconds,
      if spec.failureThreshold > 0 then spec.failureThreshold else defaults.failureThreshold)
  }

  /** A probe is present only when enabled; the shell text of its command is not modelled, only
      whether the connected-platform check is part of it. */
  datatype Probe = Probe(config: ProbeConfig, connectedPlatform: bool)

  function BuildProbe(config: ProbeConfig, connectedPlatform: bool): Option<Probe> {
    if config.enabled then Some(Probe(config, connectedPlatform)) else None
  }

  datatype PodSpec = PodSpec(
    imagePullSecrets: seq<string>, serviceAccountName: string, automountServiceAccountToken: bool, scheduling: string,
    image: string, imagePullPolicy: string, args: seq<string>, env: seq<EnvVar>, envFrom: seq<EnvFromSource>,
    ports: seq<int>, mounts: seq<VolumeMount>, volumes: seq<Volume>,
    startup: Option<Probe>, readiness: Option<Probe>, liveness: Option<Probe>)

  datatype Template = Template(labels: map<string, string>, annotations: map<string, string>, pod: PodSpec)

  datatype StatefulSetSpec = StatefulSetSpec(
    replicas: Option<int>, serviceName: string, updateStrategy: UpdateStrategy,
    selector: map<string, string>, template: Template)

  function StrategyOf(spec: AgentSpec): UpdateStrategy {
    var strategy := if spec.updateStrategy.strategy == "" then "RollingUpdate" else spec.updateStrategy.strategy;
    if strategy != "RollingUpdate" then UpdateStrategy(strategy, None)
    else
      UpdateStrategy(strategy, Some(RollingUpdate(
        if spec.updateStrategy.rollingUpdate.Some? then spec.updateStrategy.rollingUpdate.value.partition else None)))
  }

  function DataVolume(agent: string, spec: AgentSpec): Volume {
    Volume("hermes-data", if PersistenceEnabled(spec) then ClaimVolume(ClaimName(agent)) else EmptyDir)
  }

  const FIXED_MOUNTS := [VolumeMount("hermes-data", HOME, "", false), VolumeMount("tmp", "/tmp", "", false)]

  function FixedVolumes(agent: string, spec: AgentSpec): seq<Volume> {
    [DataVolume(agent, spec), Volume("tmp", EmptyDir)]
  }

  function BuildStatefulSet(agent: string, spec: AgentSpec, inputs: TemplateInputs): StatefulSetSpec {
    StatefulSetSpec(
      Some(DesiredReplicas(spec)),
      agent,
      StrategyOf(spec),
      ResourceLabels(agent),
      Template(
        spec.podLabels + ResourceLabels(agent),
        spec.podAnnotations + inputs.annotations,
        PodSpec(
          spec.imagePullSecrets, spec.serviceAccountName, OptionalValue(spec.automountServiceAccountToken),
            spec.scheduling,
          HermesImage(spec.image), spec.image.pullPolicy, ["hermes", if spec.mode == "" then "gateway" else spec.mode],
          inputs.env, inputs.envFrom,
          if spec.service.enabled then [ServiceTargetPort(spec)] else [],
          inputs.mounts + FIXED_MOUNTS,
          inputs.volumes + FixedVolumes(agent, spec),
          BuildProbe(ResolveProbe(spec.probes.startup, STARTUP_DEFAULTS), false),
          BuildProbe(ResolveProbe(spec.probes.readiness, READINESS_DEFAULTS), spec.probes.requireConnectedPlatform),
          BuildProbe(ResolveProbe(spec.probes.liveness, LIVENESS_DEFAULTS), false))))
  }

  // ---- wiring -----------------------------------------------------------------------------------------

  ghost predicate DistinctNames(volumes: seq<Volume>) {
    forall i, j :: 0 <= i < j < |volumes| ==> volumes[i].name != volumes[j].name
  }

  ghost predicate Paired(volumes: seq<Volume>, mounts: seq<VolumeMount>) {
    |volumes| == |mounts| && forall i :: 0 <= i < |volumes| ==> volumes[i].name == mounts[i].name
  }

  ghost predicate Numbered(name: string, prefix: string, bound: nat) {
    exists i: nat :: i < bound && name == prefix + Decimal.Print(i)
  }

  ghost predicate Indexed(volumes: seq<Volume>, prefix: string, bound: nat) {
    forall k :: 0 <= k < |volumes| ==> Numbered(volumes[k].name, prefix, bound)
  }

  lemma NumberedName(name: string, prefix: string, bound: nat)
    requires Numbered(name, prefix, bound)
    ensures |name| >= |prefix| && name[..|prefix|] == prefix && name != prefix + Decimal.Print(bound)
    ensures Numbered(name, prefix, bound + 1)
  {
    var i: nat :| i < bound && name == prefix + Decimal.Print(i);
    if name == prefix + Decimal.Print(bound) {
      var a, b := Decimal.Print(i), Decimal.Print(bound);
      assert a == (prefix + a)[|prefix|..] && b == (prefix + b)[|prefix|..];
      Decimal.PrintInjective(i, bound);
    }
  }

  /** One more volume, numbered with the next index, and its mount. */
  lemma NextWiring(volumes: seq<Volume>, mounts: seq<VolumeMount>, prefix: string, bound: nat, volume: Volume,
        mount: VolumeMount)
    requires Indexed(volumes, prefix, bound) && DistinctNames(volumes) && Paired(volumes, mounts)
    requires volume.name == prefix + Decimal.Print(bound) && mount.name == volume.name
    ensures Indexed(volumes, prefix, bound + 1) && Indexed(volumes + [volume], prefix, bound + 1)
    ensures DistinctNames(volumes + [volume]) && Paired(volumes + [volume], mounts + [mount])
  {
    forall k | 0 <= k < |volumes| ensures Numbered(volumes[k].name, prefix, bound + 1)
      && volumes[k].name != volume.name {
      NumberedName(volumes[k].name, prefix, bound);
    }
    assert Numbered(volume.name, prefix, bound + 1);
  }

  lemma {:induction false} SecretWiring(names: seq<string>)
    ensures Indexed(SecretVolumes(names), "secret-ref-", |names|)
    ensures DistinctNames(SecretVolumes(names))
    ensures Paired(SecretVolumes(names), SecretMounts(names))
  {
    if names != [] {
      var last := |names| - 1;
      SecretWiring(names[..last]);
      hide Indexed, DistinctNames, Paired;
      NextWiring(SecretVolumes(names[..last]), SecretMounts(names[..last]), "secret-ref-", last,
        Volume(SecretRefVolumeName(last), SecretVolume(names[last], [], None)),
        VolumeMount(SecretRefVolumeName(last), "/var/run/hermes/secrets/" + names[last], "", true));
      assert SecretVolumes(names[..last]) + [] == SecretVolumes(names[..last]);
      assert SecretMounts(names[..last]) + [] == SecretMounts(names[..last]);
    }
  }

  lemma {:induction false} FileWiring(mounts: seq<FileMount>)
    ensures Indexed(FileVolumes(mounts), "file-mount-", |mounts|)
    ensures DistinctNames(FileVolumes(mounts))
    ensures Paired(FileVolumes(mounts), FileVolumeMounts(mounts))
  {
    if mounts != [] {
      var last := |mounts| - 1;
      FileWiring(mounts[..last]);
      hide Indexed, DistinctNames, Paired, FileMountSource;
      var source := FileMountSource(mounts[last]);
      NextWiring(FileVolumes(mounts[..last]), FileVolumeMounts(mounts[..last]), "file-mount-", last,
        Volume(FileMountVolumeName(last), if source.Some? then source.value else EmptyDir),
        VolumeMount(FileMountVolumeName(last), mounts[last].mountPath, "", true));
      assert FileVolumes(mounts[..last]) + [] == FileVolumes(mounts[..last]);
      assert FileVolumeMounts(mounts[..last]) + [] == FileVolumeMounts(mounts[..last]);
    }
  }

  ghost predicate Apart(a: seq<Volume>, b: seq<Volume>) {
    forall i, j :: 0 <= i < |a| && 0 <= j < |b| ==> a[i].name != b[j].name
  }

  lemma JoinWiring(a: seq<Volume>, am: seq<VolumeMount>, b: seq<Volume>, bm: seq<VolumeMount>)
    requires DistinctNames(a) && Paired(a, am) && DistinctNames(b) && Paired(b, bm) && Apart(a, b)
    ensures DistinctNames(a + b) && Paired(a + b, am + bm)
  {
  }

  /** The first letter tells the families of volume names apart. */
  ghost predicate Family(volumes: seq<Volume>, letter: char) {
    forall k :: 0 <= k < |volumes| ==> volumes[k].name != "" && volumes[k].name[0] == letter
  }

  lemma IndexedFamily(volumes: seq<Volume>, prefix: string, bound: nat)
    requires Indexed(volumes, prefix, bound) && prefix != ""
    ensures Family(volumes, prefix[0])
  {
    forall k | 0 <= k < |volumes| ensures volumes[k].name != "" && volumes[k].name[0] == prefix[0] {
      NumberedName(volumes[k].name, prefix, bound);
      assert volumes[k].name[0] == volumes[k].name[..|prefix|][0];
    }
  }

  lemma ConfigWiring(agent: string, spec: AgentSpec)
    ensures var files := PlanFiles(agent, spec);
      && DistinctNames(ConfigVolumes(files)) && Paired(ConfigVolumes(files), ConfigMounts(files))
      && Family(ConfigVolumes(files), 'h') && Apart(ConfigVolumes(files), FixedVolumes(agent, spec))
  {
    var files := PlanFiles(agent, spec);
    assert forall i :: 0 <= i < |files| ==> files[i].id == CONFIG_ID || files[i].id == GATEWAY_ID;
    assert |files| <= 2 && (|files| == 2 ==> files[0].id == CONFIG_ID && files[1].id == GATEWAY_ID);
    hide PlanFiles, ConfigFileSource;
    var a, b := "hermes-" + CONFIG_ID, "hermes-" + GATEWAY_ID;
    assert a[0] == 'h' && b[0] == 'h' && |a| == 13 && |b| == 21 && |"hermes-data"| == 11;
  }

  lemma JoinFamilies(c: seq<Volume>, cm: seq<VolumeMount>, s: seq<Volume>, sm: seq<VolumeMount>,
                     f: seq<Volume>, fm: seq<VolumeMount>, r: seq<Volume>, rm: seq<VolumeMount>)
    requires DistinctNames(c) && Paired(c, cm) && DistinctNames(s) && Paired(s, sm)
    requires DistinctNames(f) && Paired(f, fm) && DistinctNames(r) && Paired(r, rm)
    requires Apart(c, s) && Apart(c, f) && Apart(s, f) && Apart(c, r) && Apart(s, r) && Apart(f, r)
    ensures DistinctNames(c + s + f + r) && Paired(c + s + f + r, cm + sm + fm + rm)
  {
    JoinWiring(c, cm, s, sm);
    JoinWiring(c + s, cm + sm, f, fm);
    JoinWiring(c + s + f, cm + sm + fm, r, rm);
  }

  /** Every volume of the generated pod has its own name and exactly one mount, in the same order,
      for any number of secret references and file mounts. */
  lemma VolumeWiring(agent: string, spec: AgentSpec, hash: string)
    ensures
      var pod := BuildStatefulSet(agent, spec, BuildTemplateInputs(spec,
        Plan(PlanFiles(agent, spec), hash))).template.pod;
      DistinctNames(pod.volumes) && Paired(pod.volumes, pod.mounts)
  {
    var files := PlanFiles(agent, spec);
    var s, f := SecretVolumes(spec.secretRefs), FileVolumes(spec.fileMounts);
    ConfigWiring(agent, spec);
    SecretWiring(spec.secretRefs);
    IndexedFamily(s, "secret-ref-", |spec.secretRefs|);
    FileWiring(spec.fileMounts);
    IndexedFamily(f, "file-mount-", |spec.fileMounts|);
    var r := FixedVolumes(agent, spec);
    assert Apart(s, f);
    assert Apart(s, r) && Apart(f, r) && DistinctNames(r) && Paired(r, FIXED_MOUNTS) by {
      assert r[0].name[0] == 'h' && r[1].name[0] == 't';
    }
    JoinFamilies(ConfigVolumes(files), ConfigMounts(files), s, SecretMounts(spec.secretRefs),
      f, FileVolumeMounts(spec.fileMounts), r, FIXED_MOUNTS);
  }

  // ---- selectors ------------------------------------------------------------------------------------

  /** A label selector by equality: every pair it asks for is there. */
  ghost predicate Selected(selector: map<string, string>, labels: map<string, string>) {
    forall k | k in selector :: k in labels && labels[k] == selector[k]
  }

  /** The labels that StatefulSet, Service, NetworkPolicy and budget select by pick out the pods of exactly
      their own agent, whatever labels specs put on pods. */
  lemma SelectorsExact(agent: string, spec: AgentSpec, inputs: TemplateInputs, other: string)
    ensures Selected(ResourceLabels(other), BuildStatefulSet(agent, spec, inputs).template.labels) <==> other == agent
  {
    var selector, labels := ResourceLabels(other), BuildStatefulSet(agent, spec, inputs).template.labels;
    var instance := "app.kubernetes.io/instance";
    assert selector[instance] == other && labels[instance] == agent;
    assert ResourceLabels(agent).Keys == selector.Keys;
    if other == agent {
      forall k | k in selector ensures k in labels && labels[k] == selector[k] {}
    }
  }
}
