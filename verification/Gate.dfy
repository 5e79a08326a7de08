/** The missing-input gate: it lets a reconcile through exactly when every required reference
    of an admitted spec resolves. */
module Gate {
  import opened Prelude
  import opened Api
  import opened Validation
  import opened Admission
  import opened References

  datatype MissingInput = NotFound(kind: Kind, name: string) | MissingKey(kind: Kind, name: string, key: string)

  function KeyMessages(s: Snapshot): seq<MissingInput> {
    seq(|s.missingKeys|, i requires 0 <= i < |s.missingKeys| => MissingKey(s.kind, s.name, s.missingKeys[i]))
  }

  function Messages(s: Snapshot): seq<MissingInput> {
    if s.optional && !s.present then []
    else if s.present && s.keyFound then []
    else if !s.present then [NotFound(s.kind, s.name)]
    else if s.optional && s.key != "" && !s.keyFound then []
    else (if s.key != "" && !s.keyFound then [MissingKey(s.kind, s.name, s.key)] else []) + KeyMessages(s)
  }

  function MissingInputs(inputs: ReferencedInputs): seq<MissingInput> {
    FlatMap(Messages, AllSnapshots(inputs))
  }

  /** The closure appendMessages: one snapshot. */
  method AppendSnapshot(messages: seq<MissingInput>, s: Snapshot) returns (all: seq<MissingInput>)
    ensures all == messages + Messages(s)
  {
    all := messages;
    if s.optional && !s.present { return; }
    if s.present && s.keyFound { return; }
    if !s.present { return all + [NotFound(s.kind, s.name)]; }
    if s.optional && s.key != "" && !s.keyFound { return; }
    if s.key != "" && !s.keyFound { all := all + [MissingKey(s.kind, s.name, s.key)]; }
    ghost var start := all;
    for k := 0 to |s.missingKeys|
      invariant all == start + KeyMessages(s)[..k]
    {
      all := all + [MissingKey(s.kind, s.name, s.missingKeys[k])];
    }
  }

  method AppendMessages(messages: seq<MissingInput>, snapshots: seq<Snapshot>) returns (all: seq<MissingInput>)
    ensures all == messages + FlatMap(Messages, snapshots)
  {
    hide Messages;
    all := messages;
    for i := 0 to |snapshots|
      invariant all == messages + FlatMap(Messages, snapshots[..i])
    {
      assert snapshots[..i + 1][..i] == snapshots[..i];
      all := AppendSnapshot(all, snapshots[i]);
    }
    assert snapshots[..|snapshots|] == snapshots;
  }

  method MissingReferenceMessages(inputs: ReferencedInputs) returns (messages: seq<MissingInput>)
    ensures messages == MissingInputs(inputs)
  {
    hide FlatMap, Messages;
    messages := AppendMessages([], inputs.fileRefs);
    messages := AppendMessages(messages, inputs.fileMountRefs);
    messages := AppendMessages(messages, inputs.envValueRefs);
    messages := AppendMessages(messages, inputs.envFrom);
    messages := AppendMessages(messages, inputs.secretRefs);
    MissingBySection(inputs);
  }

  lemma MissingBySection(inputs: ReferencedInputs)
    ensures MissingInputs(inputs) ==
      FlatMap(Messages, inputs.fileRefs) + FlatMap(Messages, inputs.fileMountRefs)
        + FlatMap(Messages, inputs.envValueRefs)
      + FlatMap(Messages, inputs.envFrom) + FlatMap(Messages, inputs.secretRefs)
  {
    hide FlatMap, Messages;
    FlatMapAppend(Messages, inputs.fileRefs, inputs.fileMountRefs);
    FlatMapAppend(Messages, inputs.fileRefs + inputs.fileMountRefs, inputs.envValueRefs);
    FlatMapAppend(Messages, inputs.fileRefs + inputs.fileMountRefs + inputs.envValueRefs, inputs.envFrom);
    FlatMapAppend(Messages, inputs.fileRefs + inputs.fileMountRefs + inputs.envValueRefs + inputs.envFrom,
      inputs.secretRefs);
  }

  // ---- what it means that nothing is missing -----------------------------------------------------

  predicate ConfigMapHas(c: Inputs, name: string, key: string) {
    name in c.configMaps && (key in c.configMaps[name].data || key in c.configMaps[name].binaryData)
  }

  predicate SecretHas(c: Inputs, name: string, key: string) {
    name in c.secrets && key in c.secrets[name].data
  }

  predicate SourceComplete(source: ConfigSource, c: Inputs) {
    && (source.configMapRef.Some? ==> ConfigMapHas(c, source.configMapRef.value.name, source.configMapRef.value.key))
    && (source.secretRef.Some? ==> SecretHas(c, source.secretRef.value.name, source.secretRef.value.key))
  }

  predicate MountComplete(mount: FileMount, c: Inputs) {
    && (mount.configMapRef.Some? ==>
          && mount.configMapRef.value in c.configMaps
          && forall item | item in mount.items :: ConfigMapHas(c, mount.configMapRef.value, item.key))
    && (mount.secretRef.Some? ==>
          && mount.secretRef.value in c.secrets
          && forall item | item in mount.items :: SecretHas(c, mount.secretRef.value, item.key))
  }

  predicate Required(optional: Option<bool>) { optional != Some(true) }

  predicate EnvComplete(env: EnvVar, c: Inputs) {
    env.valueFrom.Some? ==>
      var from := env.valueFrom.value;
      && (from.configMapKeyRef.Some? && Required(from.configMapKeyRef.value.optional) ==>
            ConfigMapHas(c, from.configMapKeyRef.value.name, from.configMapKeyRef.value.key))
      && (from.secretKeyRef.Some? && Required(from.secretKeyRef.value.optional) ==>
            SecretHas(c, from.secretKeyRef.value.name, from.secretKeyRef.value.key))
  }

  predicate EnvSourceComplete(source: EnvFromSource, c: Inputs) {
    && (source.configMapRef.Some? && Required(source.configMapRef.value.optional) ==>
      source.configMapRef.value.name in c.configMaps)
    && (source.secretRef.Some? && Required(source.secretRef.value.optional) ==>
      source.secretRef.value.name in c.secrets)
  }

  /** Every non-optional reference names an object that exists and has every selected key. */
  ghost predicate InputsComplete(spec: AgentSpec, c: Inputs) {
    && SourceComplete(spec.config, c)
    && SourceComplete(spec.gatewayConfig, c)
    && (forall i :: 0 <= i < |spec.fileMounts| ==> MountComplete(spec.fileMounts[i], c))
    && (forall i :: 0 <= i < |spec.env| ==> EnvComplete(spec.env[i], c))
    && (forall i :: 0 <= i < |spec.envFrom| ==> EnvSourceComplete(spec.envFrom[i], c))
    && (forall i :: 0 <= i < |spec.secretRefs| ==> spec.secretRefs[i] in c.secrets)
  }

  /** The part of admission the gate depends on: every reference is fully named. */
  ghost predicate FullyNamed(spec: AgentSpec) {
    && ValidConfig(spec) && ValidEnv(spec.env) && ValidEnvFrom(spec.envFrom) && "" !in spec.secretRefs
  }

  lemma {:induction false} MissingKeysEmpty(items: seq<ProjectionItem>, present: set<string>)
    ensures MissingKeys(items, present) == [] <==> forall item | item in items :: item.key in present
  {
    if items != [] {
      var front, last := items[..|items| - 1], items[|items| - 1];
      MissingKeysEmpty(front, present);
      assert items == front + [last];
    }
  }

  lemma ProjectionGate(kind: Kind, name: string, items: seq<ProjectionItem>, values: map<string, Bytes>)
    ensures Messages(ProjectionSnapshot(kind, name, items, values)) == [] <==> forall item | item in items ::
      item.key in values
  {
    MissingKeysEmpty(items, values.Keys);
  }

  ghost predicate Quiet(snapshots: seq<Snapshot>) {
    forall s :: s in snapshots ==> Messages(s) == []
  }

  lemma NoMessages(snapshots: seq<Snapshot>)
    ensures FlatMap(Messages, snapshots) == [] <==> Quiet(snapshots)
  {
    FlatMapEmpty(Messages, snapshots);
    if Quiet(snapshots) {
      forall i | 0 <= i < |snapshots| ensures Messages(snapshots[i]) == [] { assert snapshots[i] in snapshots; }
    }
  }

  lemma SectionGate<T>(f: T -> seq<Snapshot>, s: seq<T>)
    ensures Quiet(FlatMap(f, s)) <==> forall i :: 0 <= i < |s| ==> Quiet(f(s[i]))
  {
    FlatMapMembers(f, s);
  }

  lemma MountGate(mount: FileMount, c: Inputs)
    requires ValidTarget(mount)
    ensures Quiet(FileMountSnapshots(mount, c)) <==> MountComplete(mount, c)
  {
    var snapshots := FileMountSnapshots(mount, c);
    assert snapshots[0] in snapshots && |snapshots| == 1;
    if mount.configMapRef.Some? {
      var cm := Lookup(c.configMaps, mount.configMapRef.value);
      if cm.Some? && mount.items != [] {
        ProjectionGate(ConfigMapKind, mount.configMapRef.value, mount.items, ConfigMapValues(cm.value));
      }
    } else {
      var secret := Lookup(c.secrets, mount.secretRef.value);
      if secret.Some? && mount.items != [] {
        ProjectionGate(SecretKind, mount.secretRef.value, mount.items, EncodeAll(secret.value.data));
      }
    }
  }

  lemma ConfigMapKeyGate(name: string, key: string, optional: bool, c: Inputs)
    requires key != ""
    ensures Messages(ConfigMapKeySnapshot(name, key, optional, Lookup(c.configMaps, name))) == [] <==>
      optional || ConfigMapHas(c, name, key)
  {
  }

  lemma SecretKeyGate(name: string, key: string, optional: bool, c: Inputs)
    requires key != ""
    ensures Messages(SecretKeySnapshot(name, key, optional, Lookup(c.secrets, name))) == [] <==>
      optional || SecretHas(c, name, key)
  {
  }

  lemma SourceGate(source: ConfigSource, c: Inputs)
    requires ValidSource(source)
    ensures Quiet(ConfigFileSnapshots(source, c)) <==> SourceComplete(source, c)
  {
    var snapshots := ConfigFileSnapshots(source, c);
    if Named(source.configMapRef) {
      ConfigMapKeyGate(source.configMapRef.value.name, source.configMapRef.value.key, false, c);
      assert snapshots[0] in snapshots;
    } else if Named(source.secretRef) {
      SecretKeyGate(source.secretRef.value.name, source.secretRef.value.key, false, c);
      assert snapshots[0] in snapshots;
    }
  }

  lemma EnvGate(env: EnvVar, c: Inputs)
    requires ValidEnvVar(env)
    ensures Quiet(EnvValueSnapshots(env, c)) <==> EnvComplete(env, c)
  {
    var snapshots := EnvValueSnapshots(env, c);
    if env.valueFrom.Some? {
      var from := env.valueFrom.value;
      var a: seq<Snapshot>, b: seq<Snapshot> := [], [];
      if from.configMapKeyRef.Some? {
        var ref := from.configMapKeyRef.value;
        ConfigMapKeyGate(ref.name, ref.key, OptionalValue(ref.optional), c);
        a := [ConfigMapKeySnapshot(ref.name, ref.key, OptionalValue(ref.optional), Lookup(c.configMaps, ref.name))];
        assert a[0] in a;
      }
      if from.secretKeyRef.Some? {
        var ref := from.secretKeyRef.value;
        SecretKeyGate(ref.name, ref.key, OptionalValue(ref.optional), c);
        b := [SecretKeySnapshot(ref.name, ref.key, OptionalValue(ref.optional), Lookup(c.secrets, ref.name))];
        assert b[0] in b;
      }
      assert snapshots == a + b;
      assert Quiet(snapshots) <==> Quiet(a) && Quiet(b);
    }
  }

  lemma EnvSourceGate(source: EnvFromSource, c: Inputs)
    requires ValidEnvSource(source)
    ensures Quiet(EnvFromSnapshots(source, c)) <==> EnvSourceComplete(source, c)
  {
    var snapshots := EnvFromSnapshots(source, c);
    assert |snapshots| == 1 && snapshots[0] in snapshots;
  }

  lemma SectionsQuiet(inputs: ReferencedInputs)
    ensures MissingInputs(inputs) == [] <==>
      Quiet(inputs.fileRefs) && Quiet(inputs.fileMountRefs) && Quiet(inputs.envValueRefs) && Quiet(inputs.envFrom)
        && Quiet(inputs.secretRefs)
  {
    NoMessages(AllSnapshots(inputs));
  }

  lemma SourcesGate(spec: AgentSpec, c: Inputs)
    requires ValidSource(spec.config) && ValidSource(spec.gatewayConfig)
    ensures Quiet(Resolve(spec, c).fileRefs) <==>
      SourceComplete(spec.config, c) && SourceComplete(spec.gatewayConfig, c)
  {
    var f, sources := OfConfigFile(c), [spec.config, spec.gatewayConfig];
    SectionGate(f, sources);
    SourceGate(spec.config, c);
    SourceGate(spec.gatewayConfig, c);
    assert f(sources[0]) == ConfigFileSnapshots(spec.config, c);
    assert f(sources[1]) == ConfigFileSnapshots(spec.gatewayConfig, c);
  }

  lemma MountsGate(mounts: seq<FileMount>, c: Inputs)
    requires ValidMounts(mounts)
    ensures Quiet(FlatMap(OfFileMount(c), mounts)) <==> forall i :: 0 <= i < |mounts| ==> MountComplete(mounts[i], c)
  {
    SectionGate(OfFileMount(c), mounts);
    forall i | 0 <= i < |mounts| ensures Quiet(OfFileMount(c)(mounts[i])) <==> MountComplete(mounts[i], c) {
      MountGate(mounts[i], c);
    }
  }

  lemma EnvsGate(env: seq<EnvVar>, c: Inputs)
    requires ValidEnv(env)
    ensures Quiet(FlatMap(OfEnvValue(c), env)) <==> forall i :: 0 <= i < |env| ==> EnvComplete(env[i], c)
  {
    SectionGate(OfEnvValue(c), env);
    forall i | 0 <= i < |env| ensures Quiet(OfEnvValue(c)(env[i])) <==> EnvComplete(env[i], c) {
      EnvGate(env[i], c);
    }
  }

  lemma EnvSourcesGate(sources: seq<EnvFromSource>, c: Inputs)
    requires ValidEnvFrom(sources)
    ensures Quiet(FlatMap(OfEnvFrom(c), sources)) <==> forall i :: 0 <= i < |sources| ==>
      EnvSourceComplete(sources[i], c)
  {
    SectionGate(OfEnvFrom(c), sources);
    forall i | 0 <= i < |sources| ensures Quiet(OfEnvFrom(c)(sources[i])) <==> EnvSourceComplete(sources[i], c) {
      EnvSourceGate(sources[i], c);
    }
  }

  lemma SecretRefsGate(names: seq<string>, c: Inputs)
    requires "" !in names
    ensures Quiet(FlatMap(OfSecretRef(c), names)) <==> forall i :: 0 <= i < |names| ==> names[i] in c.secrets
  {
    SectionGate(OfSecretRef(c), names);
    forall i | 0 <= i < |names| ensures Quiet(OfSecretRef(c)(names[i])) <==> names[i] in c.secrets {
      var snapshots := SecretRefSnapshots(names[i], c);
      assert snapshots[0] in snapshots;
    }
  }

  /** The gate is exact on every spec whose references are fully named. */
  lemma GateExact(spec: AgentSpec, c: Inputs)
    requires FullyNamed(spec)
    ensures MissingInputs(Resolve(spec, c)) == [] <==> InputsComplete(spec, c)
  {
    SectionsQuiet(Resolve(spec, c));
    SourcesGate(spec, c);
    MountsGate(spec.fileMounts, c);
    EnvsGate(spec.env, c);
    EnvSourcesGate(spec.envFrom, c);
    SecretRefsGate(spec.secretRefs, c);
  }
}
