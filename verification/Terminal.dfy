/** Which terminal backend the operator believes in, against the config.yaml the pod mounts. */
module Terminal {
  import opened Prelude
  import opened Api
  import opened Validation
  import opened References
  import opened ConfigPlan
  import opened PodTemplate
  import opened PodView
  import opened Rollout

  function BackendFromContent(lib: Library, content: Bytes): Option<string> {
    var declared := lib.yamlBackend(content);
    if declared.None? || declared.value == "" then None else declared
  }

  /** The first snapshot of that reference. */
  function FirstMatch(snapshots: seq<Snapshot>, kind: Kind, name: string, key: string): Option<Snapshot> {
    if snapshots == [] then None
    else if snapshots[0].kind == kind && snapshots[0].name == name && snapshots[0].key == key then Some(snapshots[0])
    else FirstMatch(snapshots[1..], kind, name, key)
  }

  function SnapshotContent(s: Snapshot, key: string): Option<Bytes> {
    if !s.present || !s.keyFound || key !in s.data then None
    else if s.kind.SecretKind? then Base64.Decode(s.data[key])
    else Some(s.data[key])
  }

  function SourceBackend(lib: Library, source: ConfigSource, inputs: ReferencedInputs): Option<string> {
    if source.raw != [] then BackendFromContent(lib, source.raw)
    else
      var byConfigMap := source.configMapRef.Some? && source.configMapRef.value.name != ""
        && source.configMapRef.value.key != "";
      var bySecret := source.secretRef.Some? && source.secretRef.value.name != "" && source.secretRef.value.key != "";
      if !byConfigMap && !bySecret then None
      else
        var kind := if byConfigMap then ConfigMapKind else SecretKind;
        var ref := if byConfigMap then source.configMapRef.value else source.secretRef.value;
        var match_ := FirstMatch(inputs.fileRefs, kind, ref.name, ref.key);
        if match_.None? then None
        else
          var content := SnapshotContent(match_.value, ref.key);
          if content.None? then None else BackendFromContent(lib, content.value)
  }

  function EffectiveBackend(lib: Library, spec: AgentSpec, inputs: ReferencedInputs): string {
    var declared := SourceBackend(lib, spec.config, inputs);
    if declared.Some? then declared.value else spec.terminalBackend
  }

  /** The bytes of config.yaml in the pod, as the kubelet mounts the config volume. */
  function MountedConfig(agent: string, spec: AgentSpec, c: Inputs): Option<Bytes> {
    var r := ResolveConfigFile(agent, CONFIG_ID, "config.yaml", spec.config);
    if !r.File? then None
    else
      var contents := VolumeContents(ConfigFileSource(r.file), c);
      if contents.Files? && r.file.fileName in contents.files then Some(contents.files[r.file.fileName].content)
        else None
  }

  /** The backend the mounted file declares, else the fallback of the spec. */
  function DeclaredBackend(lib: Library, spec: AgentSpec, mounted: Option<Bytes>): string {
    if mounted.Some? && lib.yamlBackend(mounted.value).Some? && lib.yamlBackend(mounted.value) != Some("")
    then lib.yamlBackend(mounted.value).value
    else spec.terminalBackend
  }

  /** The config key exists only in the BinaryData of its ConfigMap. */
  predicate BinaryOnly(spec: AgentSpec, c: Inputs) {
    && spec.config.configMapRef.Some?
    && var ref := spec.config.configMapRef.value;
       && ref.name in c.configMaps
       && ref.key !in c.configMaps[ref.name].data
       && ref.key in c.configMaps[ref.name].binaryData
  }

  lemma ConfigSnapshotFirst(spec: AgentSpec, c: Inputs)
    requires ConfigFileSnapshots(spec.config, c) != []
    ensures Resolve(spec, c).fileRefs != [] && Resolve(spec, c).fileRefs[0] == ConfigFileSnapshots(spec.config, c)[0]
  {
    var f := OfConfigFile(c);
    FlatMapAppend(f, [spec.config], [spec.gatewayConfig]);
    FlatMapOne(f, spec.config);
    FlatMapOne(f, spec.gatewayConfig);
    assert [spec.config, spec.gatewayConfig] == [spec.config] + [spec.gatewayConfig];
  }

  lemma ProjectOne(key: string, path: string, values: map<string, Bytes>)
    ensures Materialise([KeyToPath(key, path, None)], values) ==
      if key in values then Files(map[path := MountedFile(values[key], None)]) else Unavailable
  {
    var item := KeyToPath(key, path, None);
    assert [item][..0] == [] && [item][0] == item;
    assert Project([], values) == Files(map[]);
    if key in values {
      assert map[][path := MountedFile(values[key], None)] == map[path := MountedFile(values[key], None)];
    }
  }

  lemma RawMounted(agent: string, spec: AgentSpec, c: Inputs)
    requires ValidConfig(spec) && GeneratedInPlace(PlanFiles(agent, spec), c) && spec.config.raw != []
    ensures MountedConfig(agent, spec, c) == Some(spec.config.raw) && !BinaryOnly(spec, c)
  {
    var file := PlanFiles(agent, spec)[0];
    ProjectOne("config.yaml", "config.yaml", ConfigMapFiles(c.configMaps[file.configMapName]));
  }

  lemma ConfigMapMounted(agent: string, spec: AgentSpec, c: Inputs)
    requires ValidSource(spec.config) && spec.config.configMapRef.Some?
    ensures var ref := spec.config.configMapRef.value;
      MountedConfig(agent, spec, c) == if ref.name in c.configMaps then Lookup(ConfigMapFiles(c.configMaps[ref.name]),
        ref.key) else None
  {
    var ref := spec.config.configMapRef.value;
    if ref.name in c.configMaps { ProjectOne(ref.key, "config.yaml", ConfigMapFiles(c.configMaps[ref.name])); }
  }

  lemma SecretMounted(agent: string, spec: AgentSpec, c: Inputs)
    requires ValidSource(spec.config) && spec.config.secretRef.Some?
    ensures var ref := spec.config.secretRef.value;
      MountedConfig(agent, spec, c) == if ref.name in c.secrets then Lookup(c.secrets[ref.name].data, ref.key) else None
  {
    var ref := spec.config.secretRef.value;
    if ref.name in c.secrets { ProjectOne(ref.key, "config.yaml", c.secrets[ref.name].data); }
  }

  lemma ParsedConfigMap(spec: AgentSpec, c: Inputs, lib: Library)
    requires ValidSource(spec.config) && spec.config.configMapRef.Some?
    ensures var ref := spec.config.configMapRef.value;
      var content := if ref.name in c.configMaps then ConfigMapValue(c.configMaps[ref.name], ref.key) else None;
      EffectiveBackend(lib, spec, Resolve(spec, c)) == DeclaredBackend(lib, spec, content)
  {
    ConfigSnapshotFirst(spec, c);
    var ref, refs := spec.config.configMapRef.value, Resolve(spec, c).fileRefs;
    assert FirstMatch(refs, ConfigMapKind, ref.name, ref.key) == Some(refs[0]);
  }

  lemma ParsedSecret(spec: AgentSpec, c: Inputs, lib: Library)
    requires ValidSource(spec.config) && spec.config.secretRef.Some?
    ensures var ref := spec.config.secretRef.value;
      var content := if ref.name in c.secrets then Lookup(c.secrets[ref.name].data, ref.key) else None;
      EffectiveBackend(lib, spec, Resolve(spec, c)) == DeclaredBackend(lib, spec, content)
  {
    ConfigSnapshotFirst(spec, c);
    var ref, refs := spec.config.secretRef.value, Resolve(spec, c).fileRefs;
    assert FirstMatch(refs, SecretKind, ref.name, ref.key) == Some(refs[0]);
    if ref.name in c.secrets && ref.key in c.secrets[ref.name].data {
      Base64.RoundTrip(c.secrets[ref.name].data[ref.key]);
    }
  }

  /** What the operator parses is what the pod mounts, except that a binary key is parsed as base64 text. */
  lemma ParsedContent(lib: Library, agent: string, spec: AgentSpec, c: Inputs)
    requires ValidConfig(spec) && GeneratedInPlace(PlanFiles(agent, spec), c)
    ensures var mounted := MountedConfig(agent, spec, c);
      EffectiveBackend(lib, spec, Resolve(spec, c)) ==
      DeclaredBackend(lib, spec, if BinaryOnly(spec, c) && mounted.Some? then Some(Base64.Encode(mounted.value))
        else mounted)
  {
    if spec.config.raw != [] {
      RawMounted(agent, spec, c);
    } else if spec.config.configMapRef.Some? {
      ConfigMapMounted(agent, spec, c);
      ParsedConfigMap(spec, c, lib);
    } else if spec.config.secretRef.Some? {
      SecretMounted(agent, spec, c);
      ParsedSecret(spec, c, lib);
    }
  }

  /** Under every YAML reading the operator's backend is the one the mounted config.yaml declares, even when both
      config files share a reference, unless the config is non-empty binary data; then some reading tells them apart. */
  lemma BackendAgrees(agent: string, spec: AgentSpec, c: Inputs)
    requires ValidConfig(spec) && GeneratedInPlace(PlanFiles(agent, spec), c)
    ensures (forall lib: Library ::
      EffectiveBackend(lib, spec, Resolve(spec, c)) == DeclaredBackend(lib, spec, MountedConfig(agent, spec, c)))
      <==> (BinaryOnly(spec, c) ==> MountedConfig(agent, spec, c) == Some([]))
  {
    assert Base64.Encode([]) == [];
    hide EffectiveBackend, DeclaredBackend, Resolve, ValidConfig, GeneratedInPlace, Base64.Encode;
    var mounted := MountedConfig(agent, spec, c);
    if BinaryOnly(spec, c) {
      BinaryMounted(agent, spec, c);
      if mounted != Some([]) { var lib := BinaryConfigDisagrees(agent, spec, c); }
    }
    if BinaryOnly(spec, c) ==> mounted == Some([]) {
      forall lib: Library ensures
        EffectiveBackend(lib, spec, Resolve(spec, c)) == DeclaredBackend(lib, spec, MountedConfig(agent, spec, c)) {
        ParsedContent(lib, agent, spec, c);
      }
    }
  }

  lemma BinaryMounted(agent: string, spec: AgentSpec, c: Inputs)
    requires ValidConfig(spec) && BinaryOnly(spec, c)
    ensures MountedConfig(agent, spec, c) ==
      Some(c.configMaps[spec.config.configMapRef.value.name].binaryData[spec.config.configMapRef.value.key])
  {
    ConfigMapMounted(agent, spec, c);
  }

  /** Such a reading for every non-empty binary-only config: one that finds a backend in the mounted bytes alone. */
  lemma BinaryConfigDisagrees(agent: string, spec: AgentSpec, c: Inputs) returns (lib: Library)
    requires ValidConfig(spec) && GeneratedInPlace(PlanFiles(agent, spec), c) && BinaryOnly(spec, c)
    requires MountedConfig(agent, spec, c) != Some([])
    ensures EffectiveBackend(lib, spec, Resolve(spec, c)) != DeclaredBackend(lib, spec, MountedConfig(agent, spec, c))
  {
    BinaryMounted(agent, spec, c);
    var bytes := MountedConfig(agent, spec, c).value;
    var declared := spec.terminalBackend + "ssh";
    lib := Library((_) => None, (_) => "",
      (content: Bytes) => if content == bytes then Some(declared) else None, (_) => "");
    ParsedContent(lib, agent, spec, c);
    Base64.EncodeLonger(bytes);
    assert |declared| > |spec.terminalBackend|;
  }
}
