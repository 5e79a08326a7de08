/** Referenced ConfigMaps and Secrets: what the operator reads, what it remembers of it,
    which object changes wake it up, and the missing-input gate. */
module References {
  import opened Prelude
  import opened Api
  import Base64

  datatype Kind = ConfigMapKind | SecretKind

  datatype Snapshot = Snapshot(
    kind: Kind, name: string, key: string, optional: bool,
    present: bool, keyFound: bool, missingKeys: seq<string>, data: map<string, Bytes>)

  datatype ReferencedInputs = ReferencedInputs(
    fileRefs: seq<Snapshot>, fileMountRefs: seq<Snapshot>, envValueRefs: seq<Snapshot>,
    envFrom: seq<Snapshot>, secretRefs: seq<Snapshot>)

  const NO_INPUTS := ReferencedInputs([], [], [], [], [])

  // ---- snapshots ------------------------------------------------------------------------

  /** Plain data wins; binary data is remembered as base64 text. */
  function ConfigMapValue(cm: ConfigMap, key: string): Option<Bytes> {
    if key in cm.data then Some(cm.data[key])
    else if key in cm.binaryData then Some(Base64.Encode(cm.binaryData[key]))
    else None
  }

  function SecretValue(secret: Secret, key: string): Option<Bytes> {
    if key in secret.data then Some(Base64.Encode(secret.data[key])) else None
  }

  function EncodeAll(values: map<string, Bytes>): map<string, Bytes> {
    map k | k in values :: Base64.Encode(values[k])
  }

  function CopyConfigMapData(cm: ConfigMap): map<string, Bytes> {
    cm.data + EncodeAll(cm.binaryData)
  }

  function KeySnapshot(kind: Kind, name: string, key: string, optional: bool, present: bool,
        value: Option<Bytes>): Snapshot {
    Snapshot(kind, name, key, optional, present, value.Some?, [], if value.Some? then map[key := value.value]
      else map[])
  }

  function ConfigMapKeySnapshot(name: string, key: string, optional: bool, cm: Option<ConfigMap>): Snapshot {
    KeySnapshot(ConfigMapKind, name, key, optional, cm.Some?,
      if cm.Some? then ConfigMapValue(cm.value, key) else None)
  }

  function SecretKeySnapshot(name: string, key: string, optional: bool, secret: Option<Secret>): Snapshot {
    KeySnapshot(SecretKind, name, key, optional, secret.Some?,
      if secret.Some? then SecretValue(secret.value, key) else None)
  }

  function WholeSnapshot(kind: Kind, name: string, optional: bool, present: bool, data: map<string, Bytes>): Snapshot {
    Snapshot(kind, name, "", optional, present, false, [], data)
  }

  function ConfigMapSnapshot(name: string, optional: bool, cm: Option<ConfigMap>): Snapshot {
    WholeSnapshot(ConfigMapKind, name, optional, cm.Some?, if cm.Some? then CopyConfigMapData(cm.value) else map[])
  }

  function SecretSnapshot(name: string, optional: bool, secret: Option<Secret>): Snapshot {
    WholeSnapshot(SecretKind, name, optional, secret.Some?, if secret.Some? then EncodeAll(secret.value.data)
      else map[])
  }

  /** The selected keys that are absent, in item order. */
  function MissingKeys(items: seq<ProjectionItem>, present: set<string>): seq<string> {
    if items == [] then []
    else
      var last := items[|items| - 1].key;
      MissingKeys(items[..|items| - 1], present) + (if last in present then [] else [last])
  }

  function SelectedKeys(items: seq<ProjectionItem>): set<string> {
    set item | item in items :: item.key
  }

  function ProjectionSnapshot(kind: Kind, name: string, items: seq<ProjectionItem>, values: map<string,
        Bytes>): Snapshot {
    var missing := MissingKeys(items, values.Keys);
    Snapshot(kind, name, "", false, true, missing == [], missing,
      map k | k in values && k in SelectedKeys(items) :: values[k])
  }

  /** Every key of a ConfigMap with the value a single-key snapshot would record. */
  function ConfigMapValues(cm: ConfigMap): map<string, Bytes> {
    map k | k in cm.data.Keys + cm.binaryData.Keys :: ConfigMapValue(cm, k).value
  }

  function ConfigMapProjectionSnapshot(name: string, items: seq<ProjectionItem>, cm: Option<ConfigMap>): Snapshot {
    if cm.None? || items == [] then ConfigMapSnapshot(name, false, cm)
    else ProjectionSnapshot(ConfigMapKind, name, items, ConfigMapValues(cm.value))
  }

  function SecretProjectionSnapshot(name: string, items: seq<ProjectionItem>, secret: Option<Secret>): Snapshot {
    if secret.None? || items == [] then SecretSnapshot(name, false, secret)
    else ProjectionSnapshot(SecretKind, name, items, EncodeAll(secret.value.data))
  }

  // ---- the loops that fill snapshots -----------------------------------------------------------

  method EncodeSecretData(values: map<string, Bytes>) returns (encoded: map<string, Bytes>)
    ensures encoded == EncodeAll(values)
  {
    hide Base64.Encode;
    encoded := map[];
    var todo := values.Keys;
    while todo != {}
      invariant todo <= values.Keys
      invariant encoded == map k | k in values && k !in todo :: Base64.Encode(values[k])
      decreases |todo|
    {
      var key :| key in todo;
      encoded := encoded[key := Base64.Encode(values[key])];
      todo := todo - {key};
    }
  }

  /** Plain data with the binary keys outside `todo` already copied over it. */
  ghost predicate Copied(cm: ConfigMap, todo: set<string>, values: map<string, Bytes>) {
    values == cm.data + map k | k in cm.binaryData && k !in todo :: Base64.Encode(cm.binaryData[k])
  }

  lemma CopiedNext(cm: ConfigMap, todo: set<string>, values: map<string, Bytes>, key: string)
    requires Copied(cm, todo, values) && key in todo && key in cm.binaryData
    ensures Copied(cm, todo - {key}, values[key := Base64.Encode(cm.binaryData[key])])
  {
    hide Base64.Encode;
    var done := map k | k in cm.binaryData && k !in todo :: Base64.Encode(cm.binaryData[k]);
    assert (map k | k in cm.binaryData && k !in todo - {key} :: Base64.Encode(cm.binaryData[k])) ==
      done[key := Base64.Encode(cm.binaryData[key])];
  }

  lemma CopiedEnds(cm: ConfigMap, values: map<string, Bytes>)
    ensures Copied(cm, cm.binaryData.Keys, cm.data)
    ensures Copied(cm, {}, values) ==> values == CopyConfigMapData(cm)
  {
    hide Base64.Encode;
  }

  method CopyData(cm: ConfigMap) returns (values: map<string, Bytes>)
    ensures values == CopyConfigMapData(cm)
  {
    hide Copied, CopyConfigMapData, Base64.Encode;
    values := cm.data;
    var todo := cm.binaryData.Keys;
    CopiedEnds(cm, values);
    while todo != {}
      invariant todo <= cm.binaryData.Keys && Copied(cm, todo, values)
      decreases |todo|
    {
      var key :| key in todo;
      CopiedNext(cm, todo, values, key);
      values := values[key := Base64.Encode(cm.binaryData[key])];
      todo := todo - {key};
    }
    CopiedEnds(cm, values);
  }

  /** What a projection has recorded after some of its items. */
  ghost predicate Recorded(items: seq<ProjectionItem>, values: map<string, Bytes>, keyFound: bool,
        missing: seq<string>, data: map<string, Bytes>) {
    && missing == MissingKeys(items, values.Keys) && (keyFound <==> missing == [])
    && data == map k | k in values && k in SelectedKeys(items) :: values[k]
  }

  lemma RecordedNext(items: seq<ProjectionItem>, item: ProjectionItem, values: map<string, Bytes>, keyFound: bool,
        missing: seq<string>, data: map<string, Bytes>)
    requires Recorded(items, values, keyFound, missing, data)
    ensures item.key !in values ==> Recorded(items + [item], values, false, missing + [item.key], data)
    ensures item.key in values ==>
      Recorded(items + [item], values, keyFound, missing, data[item.key := values[item.key]])
  {
    assert (items + [item])[..|items|] == items;
    assert SelectedKeys(items + [item]) == SelectedKeys(items) + {item.key};
  }

  method NewConfigMapProjectionSnapshot(name: string, items: seq<ProjectionItem>,
        cm: Option<ConfigMap>) returns (s: Snapshot)
    ensures s == ConfigMapProjectionSnapshot(name, items, cm)
  {
    s := Snapshot(ConfigMapKind, name, "", false, cm.Some?, false, [], map[]);
    if cm.None? { return; }
    if |items| == 0 {
      var copied := CopyData(cm.value);
      return s.(data := copied);
    }
    var keyFound, missing, data := true, [], map[];
    for j := 0 to |items|
      invariant Recorded(items[..j], ConfigMapValues(cm.value), keyFound, missing, data)
    {
      assert items[..j + 1] == items[..j] + [items[j]];
      RecordedNext(items[..j], items[j], ConfigMapValues(cm.value), keyFound, missing, data);
      var value := ConfigMapValue(cm.value, items[j].key);
      if value.None? {
        keyFound, missing := false, missing + [items[j].key];
        continue;
      }
      data := data[items[j].key := value.value];
    }
    assert items[..|items|] == items;
    s := s.(keyFound := keyFound, missingKeys := missing, data := data);
  }

  method NewSecretProjectionSnapshot(name: string, items: seq<ProjectionItem>,
        secret: Option<Secret>) returns (s: Snapshot)
    ensures s == SecretProjectionSnapshot(name, items, secret)
  {
    s := Snapshot(SecretKind, name, "", false, secret.Some?, false, [], map[]);
    if secret.None? { return; }
    if |items| == 0 {
      var encoded := EncodeSecretData(secret.value.data);
      return s.(data := encoded);
    }
    var keyFound, missing, data := true, [], map[];
    for j := 0 to |items|
      invariant Recorded(items[..j], EncodeAll(secret.value.data), keyFound, missing, data)
    {
      assert items[..j + 1] == items[..j] + [items[j]];
      RecordedNext(items[..j], items[j], EncodeAll(secret.value.data), keyFound, missing, data);
      if items[j].key !in secret.value.data {
        keyFound, missing := false, missing + [items[j].key];
        continue;
      }
      data := data[items[j].key := Base64.Encode(secret.value.data[items[j].key])];
    }
    assert items[..|items|] == items;
    s := s.(keyFound := keyFound, missingKeys := missing, data := data);
  }

  // ---- resolution -------------------------------------------------------------------------

  predicate Named(selector: Option<KeySelector>) { selector.Some? && selector.value.name != "" }
  predicate NamedSource(source: Option<EnvSource>) { source.Some? && source.value.name != "" }
  predicate NamedRef(ref: Option<string>) { ref.Some? && ref.value != "" }

  /** The objects of the namespace that references can name. */
  datatype Inputs = Inputs(configMaps: ConfigMaps, secrets: Secrets)

  function ConfigFileSnapshots(source: ConfigSource, c: Inputs): seq<Snapshot> {
    (if Named(source.configMapRef) then
       var ref := source.configMapRef.value;
       [ConfigMapKeySnapshot(ref.name, ref.key, false, Lookup(c.configMaps, ref.name))]
     else [])
    + (if Named(source.secretRef) then
         var ref := source.secretRef.value;
         [SecretKeySnapshot(ref.name, ref.key, false, Lookup(c.secrets, ref.name))]
       else [])
  }

  function FileMountSnapshots(mount: FileMount, c: Inputs): seq<Snapshot> {
    if NamedRef(mount.configMapRef) then
      [ConfigMapProjectionSnapshot(mount.configMapRef.value, mount.items,
        Lookup(c.configMaps, mount.configMapRef.value))]
    else if NamedRef(mount.secretRef) then
      [SecretProjectionSnapshot(mount.secretRef.value, mount.items, Lookup(c.secrets, mount.secretRef.value))]
    else []
  }

  function EnvValueSnapshots(env: EnvVar, c: Inputs): seq<Snapshot> {
    if env.valueFrom.None? then []
    else
      var from := env.valueFrom.value;
      (if Named(from.configMapKeyRef) then
         var ref := from.configMapKeyRef.value;
         [ConfigMapKeySnapshot(ref.name, ref.key, OptionalValue(ref.optional), Lookup(c.configMaps, ref.name))]
       else [])
      + (if Named(from.secretKeyRef) then
           var ref := from.secretKeyRef.value;
           [SecretKeySnapshot(ref.name, ref.key, OptionalValue(ref.optional), Lookup(c.secrets, ref.name))]
         else [])
  }

  function EnvFromSnapshots(source: EnvFromSource, c: Inputs): seq<Snapshot> {
    (if NamedSource(source.configMapRef) then
       var ref := source.configMapRef.value;
       [ConfigMapSnapshot(ref.name, OptionalValue(ref.optional), Lookup(c.configMaps, ref.name))]
     else [])
    + (if NamedSource(source.secretRef) then
         var ref := source.secretRef.value;
         [SecretSnapshot(ref.name, OptionalValue(ref.optional), Lookup(c.secrets, ref.name))]
       else [])
  }

  function SecretRefSnapshots(name: string, c: Inputs): seq<Snapshot> {
    if name == "" then [] else [SecretSnapshot(name, false, Lookup(c.secrets, name))]
  }

  function OfConfigFile(c: Inputs): ConfigSource -> seq<Snapshot> { source => ConfigFileSnapshots(source, c) }
  function OfFileMount(c: Inputs): FileMount -> seq<Snapshot> { mount => FileMountSnapshots(mount, c) }
  function OfEnvValue(c: Inputs): EnvVar -> seq<Snapshot> { env => EnvValueSnapshots(env, c) }
  function OfEnvFrom(c: Inputs): EnvFromSource -> seq<Snapshot> { source => EnvFromSnapshots(source, c) }
  function OfSecretRef(c: Inputs): string -> seq<Snapshot> { name => SecretRefSnapshots(name, c) }

  function Resolve(spec: AgentSpec, c: Inputs): ReferencedInputs {
    ReferencedInputs(
      FlatMap(OfConfigFile(c), [spec.config, spec.gatewayConfig]),
      FlatMap(OfFileMount(c), spec.fileMounts),
      FlatMap(OfEnvValue(c), spec.env),
      FlatMap(OfEnvFrom(c), spec.envFrom),
      FlatMap(OfSecretRef(c), spec.secretRefs))
  }

  function AllSnapshots(inputs: ReferencedInputs): seq<Snapshot> {
    inputs.fileRefs + inputs.fileMountRefs + inputs.envValueRefs + inputs.envFrom + inputs.secretRefs
  }

  // ---- watches ---------------------------------------------------------------------------------

  predicate Selects(selector: Option<KeySelector>, name: string) { selector.Some? && selector.value.name == name }
  predicate Draws(source: Option<EnvSource>, name: string) { source.Some? && source.value.name == name }

  ghost predicate ReferencesConfigMap(spec: AgentSpec, name: string) {
    && name != ""
    && (|| Selects(spec.config.configMapRef, name)
        || Selects(spec.gatewayConfig.configMapRef, name)
        || (exists i :: 0 <= i < |spec.env| && spec.env[i].valueFrom.Some?
              && Selects(spec.env[i].valueFrom.value.configMapKeyRef, name))
        || (exists i :: 0 <= i < |spec.envFrom| && Draws(spec.envFrom[i].configMapRef, name))
        || (exists i :: 0 <= i < |spec.fileMounts| && spec.fileMounts[i].configMapRef == Some(name)))
  }

  ghost predicate ReferencesSecret(spec: AgentSpec, name: string) {
    && name != ""
    && (|| Selects(spec.config.secretRef, name)
        || Selects(spec.gatewayConfig.secretRef, name)
        || (exists i :: 0 <= i < |spec.env| && spec.env[i].valueFrom.Some?
              && Selects(spec.env[i].valueFrom.value.secretKeyRef, name))
        || (exists i :: 0 <= i < |spec.envFrom| && Draws(spec.envFrom[i].secretRef, name))
        || name in spec.secretRefs
        || (exists i :: 0 <= i < |spec.fileMounts| && spec.fileMounts[i].secretRef == Some(name)))
  }

  /** The predicate behind the ConfigMap watch. */
  method WatchesConfigMap(spec: AgentSpec, name: string) returns (matches: bool)
    ensures matches <==> ReferencesConfigMap(spec, name)
  {
    if name == "" { return false; }
    if Selects(spec.config.configMapRef, name) || Selects(spec.gatewayConfig.configMapRef, name) { return true; }
    for i := 0 to |spec.env|
      invariant !exists k ::
        0 <= k < i && spec.env[k].valueFrom.Some? && Selects(spec.env[k].valueFrom.value.configMapKeyRef, name)
    {
      if spec.env[i].valueFrom.Some? && Selects(spec.env[i].valueFrom.value.configMapKeyRef, name) { return true; }
    }
    for i := 0 to |spec.envFrom|
      invariant !exists k :: 0 <= k < i && Draws(spec.envFrom[k].configMapRef, name)
    {
      if Draws(spec.envFrom[i].configMapRef, name) { return true; }
    }
    for i := 0 to |spec.fileMounts|
      invariant !exists k :: 0 <= k < i && spec.fileMounts[k].configMapRef == Some(name)
    {
      if spec.fileMounts[i].configMapRef == Some(name) { return true; }
    }
    return false;
  }

  /** The predicate behind the Secret watch. */
  method WatchesSecret(spec: AgentSpec, name: string) returns (matches: bool)
    ensures matches <==> ReferencesSecret(spec, name)
  {
    if name == "" { return false; }
    if Selects(spec.config.secretRef, name) || Selects(spec.gatewayConfig.secretRef, name) { return true; }
    for i := 0 to |spec.env|
      invariant !exists k ::
        0 <= k < i && spec.env[k].valueFrom.Some? && Selects(spec.env[k].valueFrom.value.secretKeyRef, name)
    {
      if spec.env[i].valueFrom.Some? && Selects(spec.env[i].valueFrom.value.secretKeyRef, name) { return true; }
    }
    for i := 0 to |spec.envFrom|
      invariant !exists k :: 0 <= k < i && Draws(spec.envFrom[k].secretRef, name)
    {
      if Draws(spec.envFrom[i].secretRef, name) { return true; }
    }
    for i := 0 to |spec.secretRefs|
      invariant name !in spec.secretRefs[..i]
    {
      if spec.secretRefs[i] == name { return true; }
    }
    for i := 0 to |spec.fileMounts|
      invariant !exists k :: 0 <= k < i && spec.fileMounts[k].secretRef == Some(name)
    {
      if spec.fileMounts[i].secretRef == Some(name) { return true; }
    }
    return false;
  }
}
