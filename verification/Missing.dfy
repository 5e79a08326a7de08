/** What the gate says is missing: for every fully named spec, exactly the required references that
    do not resolve. */
module Missing {
  import opened Prelude
  import opened Api
  import opened Validation
  import opened Admission
  import opened References
  import opened Gate

  // ---- what a spec requires, in its own fields --------------------------------------------------

  predicate ObjectExists(c: Inputs, kind: Kind, name: string) {
    match kind
    case ConfigMapKind => name in c.configMaps
    case SecretKind => name in c.secrets
  }

  predicate ObjectHas(c: Inputs, kind: Kind, name: string, key: string) {
    match kind
    case ConfigMapKind =>
      name in c.configMaps && (key in c.configMaps[name].data || key in c.configMaps[name].binaryData)
    case SecretKind => name in c.secrets && key in c.secrets[name].data
  }

  function SourceRef(source: ConfigSource, kind: Kind): Option<KeySelector> {
    if kind.ConfigMapKind? then source.configMapRef else source.secretRef
  }

  function MountRef(mount: FileMount, kind: Kind): Option<string> {
    if kind.ConfigMapKind? then mount.configMapRef else mount.secretRef
  }

  function VariableRef(env: EnvVar, kind: Kind): Option<KeySelector> {
    if env.valueFrom.None? then None
    else if kind.ConfigMapKind? then env.valueFrom.value.configMapKeyRef
    else env.valueFrom.value.secretKeyRef
  }

  function BundleRef(source: EnvFromSource, kind: Kind): Option<EnvSource> {
    if kind.ConfigMapKind? then source.configMapRef else source.secretRef
  }

  predicate NamesKey(selector: Option<KeySelector>, name: string, key: string) {
    selector.Some? && selector.value.name == name && selector.value.key == key
  }

  predicate Obliges(selector: Option<KeySelector>) { selector.Some? && selector.value.optional != Some(true) }

  /** A reference that is not optional names the object. */
  ghost predicate RequiresObject(spec: AgentSpec, kind: Kind, name: string) {
    || Selects(SourceRef(spec.config, kind), name)
    || Selects(SourceRef(spec.gatewayConfig, kind), name)
    || (exists i :: 0 <= i < |spec.fileMounts| && MountRef(spec.fileMounts[i], kind) == Some(name))
    || (exists i :: 0 <= i < |spec.env| && RequiredVariable(spec.env[i], kind, name))
    || (exists i :: 0 <= i < |spec.envFrom| && RequiredBundle(spec.envFrom[i], kind, name))
    || (kind.SecretKind? && name in spec.secretRefs)
  }

  predicate RequiredVariable(env: EnvVar, kind: Kind, name: string) {
    Obliges(VariableRef(env, kind)) && VariableRef(env, kind).value.name == name
  }

  predicate RequiredBundle(source: EnvFromSource, kind: Kind, name: string) {
    var ref := BundleRef(source, kind);
    ref.Some? && ref.value.name == name && ref.value.optional != Some(true)
  }

  /** A reference that is not optional selects the key of the object. */
  ghost predicate RequiresKey(spec: AgentSpec, kind: Kind, name: string, key: string) {
    || NamesKey(SourceRef(spec.config, kind), name, key)
    || NamesKey(SourceRef(spec.gatewayConfig, kind), name, key)
    || (exists i :: 0 <= i < |spec.fileMounts| && MountSelects(spec.fileMounts[i], kind, name, key))
    || (exists i :: 0 <= i < |spec.env| && Obliges(VariableRef(spec.env[i], kind))
          && NamesKey(VariableRef(spec.env[i], kind), name, key))
  }

  predicate MountSelects(mount: FileMount, kind: Kind, name: string, key: string) {
    MountRef(mount, kind) == Some(name) && exists item | item in mount.items :: item.key == key
  }

  /** The message is true: a required object is absent, or a required key of an existing one. */
  ghost predicate Lacks(spec: AgentSpec, c: Inputs, m: MissingInput) {
    match m
    case NotFound(kind, name) => RequiresObject(spec, kind, name) && !ObjectExists(c, kind, name)
    case MissingKey(kind, name, key) =>
      RequiresKey(spec, kind, name, key) && ObjectExists(c, kind, name) && !ObjectHas(c, kind, name, key)
  }

  // ---- what snapshots say ------------------------------------------------------------------------

  ghost predicate Says(snapshots: seq<Snapshot>, m: MissingInput) {
    exists s :: s in snapshots && m in Messages(s)
  }

  lemma SaysAll(snapshots: seq<Snapshot>, m: MissingInput)
    ensures m in FlatMap(Messages, snapshots) <==> Says(snapshots, m)
  {
    FlatMapMembers(Messages, snapshots);
    if Says(snapshots, m) {
      var s :| s in snapshots && m in Messages(s);
      var i :| 0 <= i < |snapshots| && snapshots[i] == s;
    }
  }

  lemma SaysSection<T>(f: T -> seq<Snapshot>, s: seq<T>, m: MissingInput)
    ensures Says(FlatMap(f, s), m) <==> exists i :: 0 <= i < |s| && Says(f(s[i]), m)
  {
    FlatMapMembers(f, s);
  }

  lemma SaysOne(s: Snapshot, m: MissingInput)
    ensures Says([s], m) <==> m in Messages(s)
  {
    assert s in [s];
  }

  lemma SaysTwo(a: seq<Snapshot>, b: seq<Snapshot>, m: MissingInput)
    ensures Says(a + b, m) <==> Says(a, m) || Says(b, m)
  {
  }

  function KeyOf(m: MissingInput): string { if m.MissingKey? then m.key else "" }

  /** The message, given what a reference asks of the object and key the message names. */
  predicate Lack(c: Inputs, m: MissingInput, asksObject: bool, asksKey: bool) {
    match m
    case NotFound(kind, name) => asksObject && !ObjectExists(c, kind, name)
    case MissingKey(kind, name, key) => asksKey && ObjectExists(c, kind, name) && !ObjectHas(c, kind, name, key)
  }

  function KeySnapshot(kind: Kind, ref: KeySelector, optional: bool, c: Inputs): Snapshot {
    if kind.ConfigMapKind? then ConfigMapKeySnapshot(ref.name, ref.key, optional, Lookup(c.configMaps, ref.name))
    else SecretKeySnapshot(ref.name, ref.key, optional, Lookup(c.secrets, ref.name))
  }

  lemma KeyMissing(kind: Kind, ref: KeySelector, optional: bool, c: Inputs, m: MissingInput)
    requires ref.key != ""
    ensures m in Messages(KeySnapshot(kind, ref, optional, c)) <==>
      m.kind == kind && !optional && Lack(c, m, ref.name == m.name, ref.name == m.name && ref.key == KeyOf(m))
  {
    var s := KeySnapshot(kind, ref, optional, c);
    assert s.missingKeys == [];
  }

  lemma SourceSays(source: ConfigSource, c: Inputs, m: MissingInput)
    requires ValidSource(source)
    ensures Says(ConfigFileSnapshots(source, c), m) <==>
      Lack(c, m, Selects(SourceRef(source, m.kind), m.name), NamesKey(SourceRef(source, m.kind), m.name, KeyOf(m)))
  {
    if source.configMapRef.Some? {
      var s := KeySnapshot(ConfigMapKind, source.configMapRef.value, false, c);
      KeyMissing(ConfigMapKind, source.configMapRef.value, false, c, m);
      SaysOne(s, m);
      assert ConfigFileSnapshots(source, c) == [s];
    } else if source.secretRef.Some? {
      var s := KeySnapshot(SecretKind, source.secretRef.value, false, c);
      KeyMissing(SecretKind, source.secretRef.value, false, c, m);
      SaysOne(s, m);
      assert ConfigFileSnapshots(source, c) == [s];
    }
  }

  lemma {:induction false} MissingMembers(items: seq<ProjectionItem>, present: set<string>, key: string)
    ensures key in MissingKeys(items, present) <==> key !in present && exists item | item in items :: item.key == key
  {
    if items != [] {
      var front, last := items[..|items| - 1], items[|items| - 1];
      MissingMembers(front, present, key);
      assert items == front + [last];
    }
  }

  lemma KeyMessagesMembers(s: Snapshot, m: MissingInput)
    ensures m in KeyMessages(s) <==> m.MissingKey? && m.kind == s.kind && m.name == s.name && m.key in s.missingKeys
  {
    if m.MissingKey? && m.kind == s.kind && m.name == s.name && m.key in s.missingKeys {
      var i :| 0 <= i < |s.missingKeys| && s.missingKeys[i] == m.key;
      assert KeyMessages(s)[i] == m;
    }
  }

  lemma MountSays(mount: FileMount, c: Inputs, m: MissingInput)
    requires ValidTarget(mount)
    ensures Says(FileMountSnapshots(mount, c), m) <==>
      Lack(c, m, MountRef(mount, m.kind) == Some(m.name), MountSelects(mount, m.kind, m.name, KeyOf(m)))
  {
    hide EncodeAll, ConfigMapValues, SelectedKeys;
    var s := FileMountSnapshots(mount, c)[0];
    assert FileMountSnapshots(mount, c) == [s];
    SaysOne(s, m);
    KeyMessagesMembers(s, m);
    MountKeys(mount, c, KeyOf(m));
  }

  lemma MountKeys(mount: FileMount, c: Inputs, key: string)
    requires ValidTarget(mount)
    ensures var s := FileMountSnapshots(mount, c)[0];
      && s.key == "" && !s.optional && s.kind == (if mount.configMapRef.Some? then ConfigMapKind else SecretKind)
      && Some(s.name) == MountRef(mount, s.kind) && MountRef(mount, if s.kind.SecretKind? then ConfigMapKind else
        SecretKind).None?
      && (s.present <==> ObjectExists(c, s.kind, s.name))
      && (s.present ==>
        (key in s.missingKeys <==> MountSelects(mount, s.kind, s.name, key) && !ObjectHas(c, s.kind, s.name, key)))
      && (s.present && s.missingKeys != [] ==> !s.keyFound)
  {
    if mount.configMapRef.Some? {
      var cm := Lookup(c.configMaps, mount.configMapRef.value);
      if cm.Some? {
        MissingMembers(mount.items, ConfigMapValues(cm.value).Keys, key);
      }
    } else {
      var secret := Lookup(c.secrets, mount.secretRef.value);
      if secret.Some? { MissingMembers(mount.items, EncodeAll(secret.value.data).Keys, key); }
    }
  }

  lemma VariableSays(env: EnvVar, c: Inputs, m: MissingInput)
    requires ValidEnvVar(env)
    ensures Says(EnvValueSnapshots(env, c), m) <==>
      Lack(c, m, RequiredVariable(env, m.kind, m.name),
        Obliges(VariableRef(env, m.kind)) && NamesKey(VariableRef(env, m.kind), m.name, KeyOf(m)))
  {
    if env.valueFrom.Some? {
      var from := env.valueFrom.value;
      var a := VariablePart(ConfigMapKind, from.configMapKeyRef, c);
      var b := VariablePart(SecretKind, from.secretKeyRef, c);
      PartSays(ConfigMapKind, from.configMapKeyRef, c, m);
      PartSays(SecretKind, from.secretKeyRef, c, m);
      assert EnvValueSnapshots(env, c) == a + b;
      SaysTwo(a, b, m);
    }
  }

  function VariablePart(kind: Kind, ref: Option<KeySelector>, c: Inputs): seq<Snapshot> {
    if ref.Some? then [KeySnapshot(kind, ref.value, OptionalValue(ref.value.optional), c)] else []
  }

  lemma PartSays(kind: Kind, ref: Option<KeySelector>, c: Inputs, m: MissingInput)
    requires NamedKey(ref)
    ensures Says(VariablePart(kind, ref, c), m) <==>
      m.kind == kind && Obliges(ref) && Lack(c, m, ref.value.name == m.name, NamesKey(ref, m.name, KeyOf(m)))
  {
    if ref.Some? {
      KeyMissing(kind, ref.value, OptionalValue(ref.value.optional), c, m);
      SaysOne(KeySnapshot(kind, ref.value, OptionalValue(ref.value.optional), c), m);
    }
  }

  lemma BundleSays(source: EnvFromSource, c: Inputs, m: MissingInput)
    requires ValidEnvSource(source)
    ensures Says(EnvFromSnapshots(source, c), m) <==> Lack(c, m, RequiredBundle(source, m.kind, m.name), false)
  {
    hide EncodeAll, CopyConfigMapData;
    var s := EnvFromSnapshots(source, c)[0];
    assert EnvFromSnapshots(source, c) == [s];
    SaysOne(s, m);
  }

  lemma SecretSays(name: string, c: Inputs, m: MissingInput)
    requires name != ""
    ensures Says(SecretRefSnapshots(name, c), m) <==> Lack(c, m, m.kind.SecretKind? && m.name == name, false)
  {
    hide EncodeAll;
    var s := SecretRefSnapshots(name, c)[0];
    assert SecretRefSnapshots(name, c) == [s];
    SaysOne(s, m);
  }

  // ---- section by section --------------------------------------------------------------------------

  lemma SourcesSay(spec: AgentSpec, c: Inputs, m: MissingInput)
    requires ValidSource(spec.config) && ValidSource(spec.gatewayConfig)
    ensures Says(Resolve(spec, c).fileRefs, m) <==>
      Lack(c, m, Selects(SourceRef(spec.config, m.kind), m.name) || Selects(SourceRef(spec.gatewayConfig, m.kind),
          m.name),
        NamesKey(SourceRef(spec.config, m.kind), m.name, KeyOf(m))
          || NamesKey(SourceRef(spec.gatewayConfig, m.kind), m.name, KeyOf(m)))
  {
    var f, sources := OfConfigFile(c), [spec.config, spec.gatewayConfig];
    hide Says, Lack, ConfigFileSnapshots, FlatMap;
    SaysSection(f, sources, m);
    assert f(sources[0]) == ConfigFileSnapshots(spec.config, c);
    assert f(sources[1]) == ConfigFileSnapshots(spec.gatewayConfig, c);
    SourceSays(spec.config, c, m);
    SourceSays(spec.gatewayConfig, c, m);
    EitherLacks(c, m, Selects(SourceRef(spec.config, m.kind), m.name), Selects(SourceRef(spec.gatewayConfig, m.kind),
      m.name), NamesKey(SourceRef(spec.config, m.kind), m.name, KeyOf(m)),
      NamesKey(SourceRef(spec.gatewayConfig, m.kind), m.name, KeyOf(m)));
  }

  lemma EitherLacks(c: Inputs, m: MissingInput, a: bool, b: bool, x: bool, y: bool)
    ensures Lack(c, m, a || b, x || y) <==> Lack(c, m, a, x) || Lack(c, m, b, y)
  {
  }

  lemma MountsSay(mounts: seq<FileMount>, c: Inputs, m: MissingInput)
    requires ValidMounts(mounts)
    ensures Says(FlatMap(OfFileMount(c), mounts), m) <==>
      Lack(c, m, exists i :: 0 <= i < |mounts| && MountRef(mounts[i], m.kind) == Some(m.name),
        exists i :: 0 <= i < |mounts| && MountSelects(mounts[i], m.kind, m.name, KeyOf(m)))
  {
    hide FileMountSnapshots, Says, MountSelects, ValidItems, FlatMap;
    SaysSection(OfFileMount(c), mounts, m);
    forall i | 0 <= i < |mounts| ensures Says(OfFileMount(c)(mounts[i]), m) <==>
      Lack(c, m, MountRef(mounts[i], m.kind) == Some(m.name), MountSelects(mounts[i], m.kind, m.name, KeyOf(m))) {
      MountSays(mounts[i], c, m);
    }
  }

  lemma VariablesSay(env: seq<EnvVar>, c: Inputs, m: MissingInput)
    requires ValidEnv(env)
    ensures Says(FlatMap(OfEnvValue(c), env), m) <==>
      Lack(c, m, exists i :: 0 <= i < |env| && RequiredVariable(env[i], m.kind, m.name),
        exists i :: 0 <= i < |env| && Obliges(VariableRef(env[i], m.kind))
          && NamesKey(VariableRef(env[i], m.kind), m.name, KeyOf(m)))
  {
    hide EnvValueSnapshots, Says, RequiredVariable, VariableRef, FlatMap, ValidEnvVar, Obliges, NamesKey;
    SaysSection(OfEnvValue(c), env, m);
    forall i | 0 <= i < |env| ensures Says(OfEnvValue(c)(env[i]), m) <==>
      Lack(c, m, RequiredVariable(env[i], m.kind, m.name),
        Obliges(VariableRef(env[i], m.kind)) && NamesKey(VariableRef(env[i], m.kind), m.name, KeyOf(m))) {
      VariableSays(env[i], c, m);
    }
  }

  lemma BundlesSay(sources: seq<EnvFromSource>, c: Inputs, m: MissingInput)
    requires ValidEnvFrom(sources)
    ensures Says(FlatMap(OfEnvFrom(c), sources), m) <==>
      Lack(c, m, exists i :: 0 <= i < |sources| && RequiredBundle(sources[i], m.kind, m.name), false)
  {
    hide EnvFromSnapshots, Says, RequiredBundle, FlatMap, ValidEnvSource;
    SaysSection(OfEnvFrom(c), sources, m);
    forall i | 0 <= i < |sources| ensures Says(OfEnvFrom(c)(sources[i]), m) <==>
      Lack(c, m, RequiredBundle(sources[i], m.kind, m.name), false) {
      BundleSays(sources[i], c, m);
    }
  }

  lemma SecretsSay(names: seq<string>, c: Inputs, m: MissingInput)
    requires "" !in names
    ensures Says(FlatMap(OfSecretRef(c), names), m) <==> Lack(c, m, m.kind.SecretKind? && m.name in names, false)
  {
    hide SecretRefSnapshots, Says, FlatMap;
    SaysSection(OfSecretRef(c), names, m);
    forall i | 0 <= i < |names| ensures Says(OfSecretRef(c)(names[i]), m) <==>
      Lack(c, m, m.kind.SecretKind? && m.name == names[i], false) {
      SecretSays(names[i], c, m);
    }
  }

  lemma SectionsSay(inputs: ReferencedInputs, m: MissingInput)
    ensures m in MissingInputs(inputs) <==>
      Says(inputs.fileRefs, m) || Says(inputs.fileMountRefs, m) || Says(inputs.envValueRefs, m)
        || Says(inputs.envFrom, m) || Says(inputs.secretRefs, m)
  {
    hide Messages, FlatMap;
    MissingBySection(inputs);
    SaysAll(inputs.fileRefs, m);
    SaysAll(inputs.fileMountRefs, m);
    SaysAll(inputs.envValueRefs, m);
    SaysAll(inputs.envFrom, m);
    SaysAll(inputs.secretRefs, m);
    hide Says;
  }

  /** For every fully named spec and every cluster the gate reports exactly the true messages: an object as not found
      exactly if some required reference names it and it is absent, a key as missing exactly if some required
      reference selects it in an existing object that lacks it. */
  lemma MissingExact(spec: AgentSpec, c: Inputs, m: MissingInput)
    requires FullyNamed(spec)
    ensures m in MissingInputs(Resolve(spec, c)) <==> Lacks(spec, c, m)
  {
    SectionsSay(Resolve(spec, c), m);
    hide MissingInputs, Says, FlatMap, ValidSource, ValidMounts, Selects, NamesKey, MountRef, MountSelects,
      RequiredVariable, RequiredBundle, VariableRef, Obliges;
    SourcesSay(spec, c, m);
    MountsSay(spec.fileMounts, c, m);
    VariablesSay(spec.env, c, m);
    BundlesSay(spec.envFrom, c, m);
    SecretsSay(spec.secretRefs, c, m);
  }
}
