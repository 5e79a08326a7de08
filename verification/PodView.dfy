/** What a pod sees of its inputs, as the kubelet materialises a template: mounted files and
    environment values. The config hash is faithful to this view. */
module PodView {
  import opened Prelude
  import opened Api
  import opened Validation
  import opened Admission
  import opened References
  import opened PodTemplate
  import opened Gate

  // ---- the kubelet's reading of a template ------------------------------------------------

  datatype MountedFile = MountedFile(content: Bytes, mode: Option<int>)

  /** Unavailable: the pod cannot start. */
  datatype Contents = Unavailable | Files(files: map<string, MountedFile>) | Storage(source: VolumeSource)

  function Project(items: seq<KeyToPath>, values: map<string, Bytes>): Contents {
    if items == [] then Files(map[])
    else
      var last, front := items[|items| - 1], Project(items[..|items| - 1], values);
      if front.Files? && last.key in values
      then Files(front.files[last.path := MountedFile(values[last.key], last.mode)])
      else Unavailable
  }

  function Materialise(items: seq<KeyToPath>, values: map<string, Bytes>): Contents {
    if items == [] then Files(map k | k in values :: MountedFile(values[k], None)) else Project(items, values)
  }

  function ConfigMapFiles(cm: ConfigMap): map<string, Bytes> {
    cm.binaryData + cm.data
  }

  function VolumeContents(source: VolumeSource, c: Inputs): Contents {
    match source
    case ConfigMapVolume(name, items, _) =>
      if name in c.configMaps then Materialise(items, ConfigMapFiles(c.configMaps[name])) else Unavailable
    case SecretVolume(name, items, _) =>
      if name in c.secrets then Materialise(items, c.secrets[name].data) else Unavailable
    case _ => Storage(source)
  }

  datatype EnvValue = Literal(text: string) | Field(path: string) | Bound(value: Bytes) | Unset | Unbound

  function KeyValue(values: Option<map<string, Bytes>>, selector: KeySelector): EnvValue {
    if values.Some? && selector.key in values.value then Bound(values.value[selector.key])
    else if OptionalValue(selector.optional) then Unset
    else Unbound
  }

  /** Environment variables come from plain ConfigMap data only, never from binary data. */
  function PlainData(c: Inputs, name: string): Option<map<string, Bytes>> {
    if name != "" && name in c.configMaps then Some(c.configMaps[name].data) else None
  }

  function SecretData(c: Inputs, name: string): Option<map<string, Bytes>> {
    if name != "" && name in c.secrets then Some(c.secrets[name].data) else None
  }

  function ValueOf(env: EnvVar, c: Inputs): EnvValue {
    if env.valueFrom.None? then Literal(env.value)
    else
      var from := env.valueFrom.value;
      if from.configMapKeyRef.Some? then KeyValue(PlainData(c, from.configMapKeyRef.value.name),
        from.configMapKeyRef.value)
      else if from.secretKeyRef.Some? then KeyValue(SecretData(c, from.secretKeyRef.value.name),
        from.secretKeyRef.value)
      else Field(if from.fieldRef.Some? then from.fieldRef.value else "")
  }

  datatype EnvBundle = EnvBundle(prefix: string, plain: Option<map<string, Bytes>>, secret: Option<map<string, Bytes>>)

  function BundleOf(source: EnvFromSource, c: Inputs): EnvBundle {
    EnvBundle(source.prefix,
      if source.configMapRef.Some? then PlainData(c, source.configMapRef.value.name) else None,
      if source.secretRef.Some? then SecretData(c, source.secretRef.value.name) else None)
  }

  datatype View = View(env: seq<(string, EnvValue)>, bundles: seq<EnvBundle>, mounts: seq<VolumeMount>,
    volumes: seq<Contents>)

  function ViewOf(inputs: TemplateInputs, c: Inputs): View {
    View(
      seq(|inputs.env|, i requires 0 <= i < |inputs.env| => (inputs.env[i].name, ValueOf(inputs.env[i], c))),
      seq(|inputs.envFrom|, i requires 0 <= i < |inputs.envFrom| => BundleOf(inputs.envFrom[i], c)),
      inputs.mounts,
      seq(|inputs.volumes|, i requires 0 <= i < |inputs.volumes| => VolumeContents(inputs.volumes[i].source, c)))
  }

  /** The template asks for a ConfigMap key that exists as binary data only: the gate counts it as found,
      an environment variable cannot take it. */
  predicate BinaryOnlyVariable(env: EnvVar, c: Inputs) {
    && env.valueFrom.Some? && env.valueFrom.value.configMapKeyRef.Some?
    && var ref := env.valueFrom.value.configMapKeyRef.value;
       && Gate.Required(ref.optional) && ref.name in c.configMaps
       && ref.key !in c.configMaps[ref.name].data && ref.key in c.configMaps[ref.name].binaryData
  }

  /** A variable that passed the gate is bound in the pod exactly if it is not binary-only. */
  lemma VariableBound(env: EnvVar, c: Inputs)
    requires ValidEnvVar(env) && EnvComplete(env, c)
    ensures ValueOf(env, c) != Unbound <==> !BinaryOnlyVariable(env, c)
  {
  }

  // ---- keys that move between Data and BinaryData ------------------------------------------------

  /** The API server keeps the keys of Data and BinaryData apart. */
  predicate KeysApart(cm: ConfigMap) { cm.data.Keys !! cm.binaryData.Keys }

  predicate Moved(a: ConfigMap, b: ConfigMap, key: string) {
    (key in a.data && key in b.binaryData) || (key in a.binaryData && key in b.data)
  }

  /** A move that a mounted file shows: empty contents read the same either way. */
  predicate MovedContent(a: ConfigMap, b: ConfigMap, key: string) {
    Moved(a, b, key) && Lookup(ConfigMapFiles(a), key) != Some([])
  }

  /** What equal snapshot values leave open about one key. */
  lemma KeyMove(a: ConfigMap, b: ConfigMap, key: string)
    requires KeysApart(a) && KeysApart(b) && ConfigMapValue(a, key) == ConfigMapValue(b, key)
    ensures Lookup(a.data, key) == Lookup(b.data, key) <==> !Moved(a, b, key)
    ensures Lookup(ConfigMapFiles(a), key) == Lookup(ConfigMapFiles(b), key) <==> !MovedContent(a, b, key)
  {
    hide Base64.Encode;
    if key in a.binaryData && key in b.binaryData {
      Base64.EncodeInjective(a.binaryData[key], b.binaryData[key]);
    } else if key in a.binaryData && key in b.data {
      EncodeMoves(a.binaryData[key]);
    } else if key in a.data && key in b.binaryData {
      EncodeMoves(b.binaryData[key]);
    }
  }

  /** Only the empty string is its own encoding. */
  lemma EncodeMoves(bytes: Bytes)
    ensures Base64.Encode(bytes) == bytes <==> bytes == []
    ensures Base64.Encode(bytes) == [] <==> bytes == []
  {
    if bytes != [] { Base64.EncodeLonger(bytes); }
  }

  lemma WholeValues(a: ConfigMap, b: ConfigMap, key: string)
    requires KeysApart(a) && KeysApart(b) && CopyConfigMapData(a) == CopyConfigMapData(b)
    ensures ConfigMapValue(a, key) == ConfigMapValue(b, key)
  {
    hide Base64.Encode;
    WholeValue(a, key);
    WholeValue(b, key);
  }

  lemma WholeValue(cm: ConfigMap, key: string)
    requires KeysApart(cm)
    ensures Lookup(CopyConfigMapData(cm), key) == ConfigMapValue(cm, key)
  {
    hide Base64.Encode;
  }

  lemma SameMaps<V>(a: map<string, V>, b: map<string, V>)
    ensures a == b <==> forall k :: Lookup(a, k) == Lookup(b, k)
  {
    if forall k :: Lookup(a, k) == Lookup(b, k) {
      assert forall k :: k in a <==> Lookup(a, k).Some?;
      assert forall k :: k in b <==> Lookup(b, k).Some?;
      forall k | k in a ensures k in b && a[k] == b[k] { assert Lookup(a, k) == Lookup(b, k); }
    }
  }

  /** An object read whole: plain data and files are equal exactly if no key moved visibly. */
  lemma WholeMove(a: ConfigMap, b: ConfigMap)
    requires KeysApart(a) && KeysApart(b) && CopyConfigMapData(a) == CopyConfigMapData(b)
    ensures a.data == b.data <==> forall key :: !Moved(a, b, key)
    ensures ConfigMapFiles(a) == ConfigMapFiles(b) <==> forall key :: !MovedContent(a, b, key)
  {
    SameMaps(a.data, b.data);
    SameMaps(ConfigMapFiles(a), ConfigMapFiles(b));
    hide ConfigMapFiles, CopyConfigMapData, Moved, MovedContent, KeysApart;
    forall key
      ensures Lookup(a.data, key) == Lookup(b.data, key) <==> !Moved(a, b, key)
      ensures Lookup(ConfigMapFiles(a), key) == Lookup(ConfigMapFiles(b), key) <==> !MovedContent(a, b, key)
    {
      WholeValues(a, b, key);
      KeyMove(a, b, key);
    }
  }

  // ---- from equal snapshots to equal contents -------------------------------------------------

  lemma SameEncoded(a: map<string, Bytes>, b: map<string, Bytes>)
    requires EncodeAll(a) == EncodeAll(b)
    ensures a == b
  {
    assert a.Keys == EncodeAll(a).Keys == EncodeAll(b).Keys == b.Keys;
    forall k | k in a ensures a[k] == b[k] {
      assert EncodeAll(a)[k] == EncodeAll(b)[k];
      Base64.EncodeInjective(a[k], b[k]);
    }
  }

  lemma SameSelected(kind: Kind, name: string, items: seq<ProjectionItem>, a: map<string, Bytes>, b: map<string,
        Bytes>, key: string)
    requires ProjectionSnapshot(kind, name, items, a) == ProjectionSnapshot(kind, name, items, b)
    requires key in SelectedKeys(items)
    ensures Lookup(a, key) == Lookup(b, key)
  {
    var x, y := ProjectionSnapshot(kind, name, items, a).data, ProjectionSnapshot(kind, name, items, b).data;
    assert key in a <==> key in x;
    assert key in b <==> key in y;
  }

  lemma {:induction false} SameProjected(items: seq<KeyToPath>, a: map<string, Bytes>, b: map<string, Bytes>)
    requires forall i :: 0 <= i < |items| ==> Lookup(a, items[i].key) == Lookup(b, items[i].key)
    ensures Project(items, a) == Project(items, b)
  {
    if items != [] {
      var front := items[..|items| - 1];
      forall i | 0 <= i < |front| ensures Lookup(a, front[i].key) ==
        Lookup(b, front[i].key) { assert front[i] == items[i]; }
      SameProjected(front, a, b);
      assert Lookup(a, items[|items| - 1].key) == Lookup(b, items[|items| - 1].key);
    }
  }

  ghost predicate DistinctPaths(items: seq<KeyToPath>) {
    forall i, j :: 0 <= i < j < |items| ==> items[i].path != items[j].path
  }

  /** A projection is available exactly if every selected key is there, and then shows each of them. */
  lemma {:induction false} ProjectExact(items: seq<KeyToPath>, values: map<string, Bytes>)
    ensures Project(items, values) != Unavailable <==> forall i :: 0 <= i < |items| ==> items[i].key in values
    ensures Project(items, values) == Unavailable || Project(items, values).Files?
    ensures DistinctPaths(items) && Project(items, values).Files? ==> forall i :: 0 <= i < |items| ==>
      items[i].path in Project(items, values).files && items[i].key in values
      && Project(items, values).files[items[i].path].content == values[items[i].key]
  {
    if items != [] {
      var front, last := items[..|items| - 1], items[|items| - 1];
      ProjectExact(front, values);
      assert forall i :: 0 <= i < |front| ==> front[i] == items[i];
      if forall i :: 0 <= i < |items| ==> items[i].key in values {
        forall i | 0 <= i < |front| ensures front[i].key in values { assert items[i].key in values; }
        assert last.key in values;
      }
    }
  }

  ghost predicate HasKeys(items: seq<KeyToPath>, values: map<string, Bytes>) {
    forall i :: 0 <= i < |items| ==> items[i].key in values
  }

  /** Two projections with the same keys present are equal exactly if unavailable or equal key by key. */
  lemma ProjectedExact(items: seq<KeyToPath>, a: map<string, Bytes>, b: map<string, Bytes>)
    requires DistinctPaths(items) && (forall i :: 0 <= i < |items| ==> (items[i].key in a <==> items[i].key in b))
    ensures Project(items, a) == Project(items, b) <==>
      !HasKeys(items, a) || forall i :: 0 <= i < |items| ==> Lookup(a, items[i].key) == Lookup(b, items[i].key)
  {
    ProjectExact(items, a);
    ProjectExact(items, b);
    if forall i :: 0 <= i < |items| ==>
      Lookup(a, items[i].key) == Lookup(b, items[i].key) { SameProjected(items, a, b); }
    if HasKeys(items, a) && Project(items, a) == Project(items, b) {
      var files := Project(items, a).files;
      forall i | 0 <= i < |items| ensures Lookup(a, items[i].key) == Lookup(b, items[i].key) {
        assert items[i].key in a && items[i].key in b;
        assert files[items[i].path].content == a[items[i].key];
      }
    }
  }

  /** A mount of a ConfigMap shows a moved key if it shows anything and the contents are not empty. */
  ghost predicate MountMoved(mount: FileMount, c: Inputs, d: Inputs) {
    && NamedRef(mount.configMapRef) && MountComplete(mount, c)
    && var name := mount.configMapRef.value;
       && name in c.configMaps && name in d.configMaps
       && exists key ::
         (mount.items == [] || key in SelectedKeys(mount.items))
         && MovedContent(c.configMaps[name], d.configMaps[name], key)
  }

  lemma SelectedMount(mount: FileMount, a: ConfigMap, b: ConfigMap)
    requires NamedRef(mount.configMapRef) && ValidItems(mount.items) && mount.items != [] && KeysApart(a)
      && KeysApart(b)
    requires ProjectionSnapshot(ConfigMapKind, mount.configMapRef.value, mount.items, ConfigMapValues(a))
      == ProjectionSnapshot(ConfigMapKind, mount.configMapRef.value, mount.items, ConfigMapValues(b))
    ensures var items := ProjectionItems(mount.items);
      Project(items, ConfigMapFiles(a)) == Project(items, ConfigMapFiles(b)) <==>
        !HasKeys(items, ConfigMapFiles(a)) || !exists key :: key in SelectedKeys(mount.items) && MovedContent(a, b, key)
  {
    var items := ProjectionItems(mount.items);
    hide ProjectionSnapshot, MovedContent, ConfigMapValue, Project;
    forall i | 0 <= i < |items|
      ensures items[i].key in SelectedKeys(mount.items) && (items[i].key in ConfigMapFiles(a) <==>
        items[i].key in ConfigMapFiles(b))
      ensures Lookup(ConfigMapFiles(a), items[i].key) == Lookup(ConfigMapFiles(b), items[i].key) <==>
        !MovedContent(a, b, items[i].key)
    {
      SelectedKey(mount, a, b, i);
    }
    ProjectedExact(items, ConfigMapFiles(a), ConfigMapFiles(b));
    if key :| key in SelectedKeys(mount.items) && MovedContent(a, b, key) {
      var item :| item in mount.items && item.key == key;
      var i :| 0 <= i < |mount.items| && mount.items[i] == item;
      assert items[i].key == key;
    }
  }

  lemma SelectedKey(mount: FileMount, a: ConfigMap, b: ConfigMap, i: nat)
    requires NamedRef(mount.configMapRef) && i < |mount.items| && KeysApart(a) && KeysApart(b)
    requires ProjectionSnapshot(ConfigMapKind, mount.configMapRef.value, mount.items, ConfigMapValues(a))
      == ProjectionSnapshot(ConfigMapKind, mount.configMapRef.value, mount.items, ConfigMapValues(b))
    ensures var key := mount.items[i].key;
      && key in SelectedKeys(mount.items) && (key in ConfigMapFiles(a) <==> key in ConfigMapFiles(b))
      && (Lookup(ConfigMapFiles(a), key) == Lookup(ConfigMapFiles(b), key) <==> !MovedContent(a, b, key))
  {
    var key := mount.items[i].key;
    assert key in SelectedKeys(mount.items);
    SameSelected(ConfigMapKind, mount.configMapRef.value, mount.items, ConfigMapValues(a), ConfigMapValues(b), key);
    ValuesAt(a, key);
    ValuesAt(b, key);
    hide ProjectionSnapshot, ConfigMapValues, Base64.Encode;
    KeyMove(a, b, key);
    assert key in ConfigMapFiles(a) <==> ConfigMapValue(a, key).Some?;
    assert key in ConfigMapFiles(b) <==> ConfigMapValue(b, key).Some?;
  }

  lemma ConfigMapMountExact(mount: FileMount, c: Inputs, d: Inputs)
    requires NamedRef(mount.configMapRef) && ValidItems(mount.items) && mount.secretRef.None?
    requires FileMountSnapshots(mount, c) == FileMountSnapshots(mount, d)
    requires mount.configMapRef.value in c.configMaps ==> KeysApart(c.configMaps[mount.configMapRef.value])
    requires mount.configMapRef.value in d.configMaps ==> KeysApart(d.configMaps[mount.configMapRef.value])
    ensures VolumeContents(FileMountSource(mount).value, c) == VolumeContents(FileMountSource(mount).value, d) <==>
      !MountMoved(mount, c, d)
  {
    var name, items := mount.configMapRef.value, ProjectionItems(mount.items);
    var x, y := FileMountSnapshots(mount, c)[0], FileMountSnapshots(mount, d)[0];
    assert x == y && x.present == y.present;
    if name in c.configMaps {
      var a, b := c.configMaps[name], d.configMaps[name];
      if mount.items == [] {
        assert x.data == y.data;
        WholeMove(a, b);
        WholeMount(a, b);
        assert MountComplete(mount, c);
      } else {
        SelectedMount(mount, a, b);
        CompleteMount(mount, c);
      }
    }
  }

  lemma WholeMount(a: ConfigMap, b: ConfigMap)
    ensures Materialise([], ConfigMapFiles(a)) == Materialise([], ConfigMapFiles(b)) <==>
      ConfigMapFiles(a) == ConfigMapFiles(b)
  {
    var x, y := ConfigMapFiles(a), ConfigMapFiles(b);
    var m, n := Materialise([], x).files, Materialise([], y).files;
    if m == n {
      assert x.Keys == m.Keys == n.Keys == y.Keys;
      forall k | k in x ensures x[k] == y[k] { assert m[k] == n[k]; }
    }
  }

  lemma CompleteMount(mount: FileMount, c: Inputs)
    requires NamedRef(mount.configMapRef) && mount.secretRef.None? && mount.configMapRef.value in c.configMaps
    ensures MountComplete(mount, c) <==>
      HasKeys(ProjectionItems(mount.items), ConfigMapFiles(c.configMaps[mount.configMapRef.value]))
  {
    var items := ProjectionItems(mount.items);
    if HasKeys(items, ConfigMapFiles(c.configMaps[mount.configMapRef.value])) {
      forall item | item in mount.items ensures ConfigMapHas(c, mount.configMapRef.value, item.key) {
        var i :| 0 <= i < |mount.items| && mount.items[i] == item;
        assert items[i].key == item.key;
      }
    }
    if MountComplete(mount, c) {
      forall i | 0 <= i < |items| ensures items[i].key in ConfigMapFiles(c.configMaps[mount.configMapRef.value]) {
        assert mount.items[i] in mount.items;
      }
    }
  }

  lemma ValuesAt(cm: ConfigMap, key: string)
    ensures Lookup(ConfigMapValues(cm), key) == ConfigMapValue(cm, key)
  {
  }

  lemma SameSecretMount(mount: FileMount, c: Inputs, d: Inputs)
    requires !NamedRef(mount.configMapRef) && NamedRef(mount.secretRef)
    requires FileMountSnapshots(mount, c) == FileMountSnapshots(mount, d)
    ensures VolumeContents(FileMountSource(mount).value, c) == VolumeContents(FileMountSource(mount).value, d)
  {
    var name, items := mount.secretRef.value, ProjectionItems(mount.items);
    assert FileMountSnapshots(mount, c)[0] == FileMountSnapshots(mount, d)[0];
    if name in c.secrets {
      var a, b := c.secrets[name].data, d.secrets[name].data;
      if mount.items == [] {
        SameEncoded(a, b);
      } else {
        forall i | 0 <= i < |items| ensures Lookup(a, items[i].key) == Lookup(b, items[i].key) {
          var key := mount.items[i].key;
          assert key in SelectedKeys(mount.items);
          SameSelected(SecretKind, name, mount.items, EncodeAll(a), EncodeAll(b), key);
          SameSecretKey(a, b, key);
        }
        SameProjected(items, a, b);
      }
    }
  }

  lemma SameSecretKey(a: map<string, Bytes>, b: map<string, Bytes>, key: string)
    requires Lookup(EncodeAll(a), key) == Lookup(EncodeAll(b), key)
    ensures Lookup(a, key) == Lookup(b, key)
  {
    if key in a {
      assert key in EncodeAll(a) && key in EncodeAll(b);
      Base64.EncodeInjective(a[key], b[key]);
    } else {
      assert key !in EncodeAll(a) && key !in EncodeAll(b);
    }
  }
}
