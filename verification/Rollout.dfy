/** Rollout faithfulness: equal hash payloads mean equal pods, and a complete gate means a
    template whose every requirement is in the store. */
module Rollout {
  import opened Prelude
  import opened Api
  import opened Validation
  import opened Admission
  import opened References
  import opened ConfigPlan
  import opened PodTemplate
  import opened Gate
  import opened PodView
  import opened Observation

  // ---- config files and their snapshots ---------------------------------------------------

  function FileSnapshots(file: ConfigFile, c: Inputs): seq<Snapshot> {
    if file.generated then []
    else if file.secretName != "" then [SecretKeySnapshot(file.secretName, file.sourceKey, false,
      Lookup(c.secrets, file.secretName))]
    else [ConfigMapKeySnapshot(file.configMapName, file.sourceKey, false, Lookup(c.configMaps, file.configMapName))]
  }

  function OfFile(c: Inputs): ConfigFile -> seq<Snapshot> { file => FileSnapshots(file, c) }

  lemma SourceSnapshots(agent: string, id: string, fileName: string, source: ConfigSource, c: Inputs)
    requires ValidSource(source)
    ensures FlatMap(OfFile(c), FilesOf(ResolveConfigFile(agent, id, fileName, source))) ==
      ConfigFileSnapshots(source, c)
  {
    var files := FilesOf(ResolveConfigFile(agent, id, fileName, source));
    if files != [] {
      assert files[..0] == [];
      assert FlatMap(OfFile(c), files) == OfFile(c)(files[0]);
    }
  }

  /** The file snapshots in the payload are determined by the plan's files. */
  lemma FileRefsFromFiles(agent: string, spec: AgentSpec, c: Inputs)
    requires ValidSource(spec.config) && ValidSource(spec.gatewayConfig)
    ensures Resolve(spec, c).fileRefs == FlatMap(OfFile(c), PlanFiles(agent, spec))
  {
    var f, sources := OfConfigFile(c), [spec.config, spec.gatewayConfig];
    var a := FilesOf(ResolveConfigFile(agent, CONFIG_ID, "config.yaml", spec.config));
    var b := FilesOf(ResolveConfigFile(agent, GATEWAY_ID, "gateway.json", spec.gatewayConfig));
    SourceSnapshots(agent, CONFIG_ID, "config.yaml", spec.config, c);
    SourceSnapshots(agent, GATEWAY_ID, "gateway.json", spec.gatewayConfig, c);
    FlatMapAppend(OfFile(c), a, b);
    FlatMapAppend(f, [spec.config], [spec.gatewayConfig]);
    FlatMapOne(f, spec.config);
    FlatMapOne(f, spec.gatewayConfig);
    assert sources == [spec.config] + [spec.gatewayConfig];
  }

  lemma FlatMapOne<T, U>(f: T -> seq<U>, x: T)
    ensures FlatMap(f, [x]) == f(x)
  {
    assert [x][..0] == [];
  }

  /** Every generated file is in the store, as the generated-ConfigMap step leaves it. */
  ghost predicate GeneratedInPlace(files: seq<ConfigFile>, c: Inputs) {
    forall i :: 0 <= i < |files| && files[i].generated ==>
      files[i].configMapName in c.configMaps && c.configMaps[files[i].configMapName].data ==
        map[files[i].sourceKey := files[i].content]
  }

  // ---- which reference a planned file came from ------------------------------------------------

  lemma PlannedFile(agent: string, spec: AgentSpec, i: nat)
    requires i < |PlanFiles(agent, spec)|
    ensures var file := PlanFiles(agent, spec)[i];
      && (file.generated ==> file.secretName == "")
      && (!file.generated && file.secretName == "" ==> ReferencesConfigMap(spec, file.configMapName))
  {
  }

  lemma OneKey(key: string, path: string, a: map<string, Bytes>, b: map<string, Bytes>)
    requires Lookup(a, key) == Lookup(b, key)
    ensures Materialise([KeyToPath(key, path, None)], a) == Materialise([KeyToPath(key, path, None)], b)
  {
    SameProjected([KeyToPath(key, path, None)], a, b);
  }

  /** A mounted config file shows a move of its key unless the contents are empty. */
  predicate FileMoved(file: ConfigFile, c: Inputs, d: Inputs) {
    && !file.generated && file.secretName == "" && file.configMapName in c.configMaps
      && file.configMapName in d.configMaps
    && MovedContent(c.configMaps[file.configMapName], d.configMaps[file.configMapName], file.sourceKey)
  }

  predicate ApartAt(c: Inputs, name: string) { name in c.configMaps ==> KeysApart(c.configMaps[name]) }

  /** Data and BinaryData share no key in any ConfigMap the spec references. */
  ghost predicate ReferencedApart(spec: AgentSpec, c: Inputs) {
    forall name | ReferencesConfigMap(spec, name) :: ApartAt(c, name)
  }

  lemma OneKeyExact(key: string, path: string, a: map<string, Bytes>, b: map<string, Bytes>)
    requires key in a <==> key in b
    ensures Materialise([KeyToPath(key, path, None)], a) == Materialise([KeyToPath(key, path, None)], b) <==>
      Lookup(a, key) == Lookup(b, key)
  {
    var items := [KeyToPath(key, path, None)];
    ProjectedExact(items, a, b);
    assert items[0].key == key;
  }

  lemma FileContentsExact(file: ConfigFile, c: Inputs, d: Inputs)
    requires GeneratedInPlace([file], c) && GeneratedInPlace([file], d)
    requires FileSnapshots(file, c) == FileSnapshots(file, d)
    requires file.generated ==> file.secretName == ""
    requires !file.generated && file.secretName == "" ==>
      ApartAt(c, file.configMapName) && ApartAt(d, file.configMapName)
    ensures VolumeContents(ConfigFileSource(file), c) == VolumeContents(ConfigFileSource(file), d) <==>
      !FileMoved(file, c, d)
  {
    var key := file.sourceKey;
    if file.generated {
      assert [file][0].generated;
      OneKey(key, file.fileName, ConfigMapFiles(c.configMaps[file.configMapName]),
        ConfigMapFiles(d.configMaps[file.configMapName]));
    } else if file.secretName != "" {
      assert FileSnapshots(file, c)[0] == FileSnapshots(file, d)[0];
      SameSecretSnapshot(file.secretName, key, false, c, d);
      if file.secretName in c.secrets {
        OneKey(key, file.fileName, c.secrets[file.secretName].data, d.secrets[file.secretName].data);
      }
    } else {
      assert FileSnapshots(file, c)[0] == FileSnapshots(file, d)[0];
      SameConfigMapSnapshot(file.configMapName, key, false, c, d);
      if file.configMapName in c.configMaps {
        PlainFileExact(file, c.configMaps[file.configMapName], d.configMaps[file.configMapName]);
      }
    }
  }

  lemma PlainFileExact(file: ConfigFile, a: ConfigMap, b: ConfigMap)
    requires KeysApart(a) && KeysApart(b) && ConfigMapValue(a, file.sourceKey) == ConfigMapValue(b, file.sourceKey)
    ensures var items := [KeyToPath(file.sourceKey, file.fileName, None)];
      Materialise(items, ConfigMapFiles(a)) == Materialise(items, ConfigMapFiles(b)) <==>
        !MovedContent(a, b, file.sourceKey)
  {
    var key := file.sourceKey;
    KeyMove(a, b, key);
    assert key in ConfigMapFiles(a) <==> ConfigMapValue(a, key).Some?;
    assert key in ConfigMapFiles(b) <==> ConfigMapValue(b, key).Some?;
    hide ConfigMapFiles, ConfigMapValue, MovedContent, Materialise;
    OneKeyExact(key, file.fileName, ConfigMapFiles(a), ConfigMapFiles(b));
  }

  lemma SameConfigMapSnapshot(name: string, key: string, optional: bool, c: Inputs, d: Inputs)
    requires ConfigMapKeySnapshot(name, key, optional, Lookup(c.configMaps, name)) ==
      ConfigMapKeySnapshot(name, key, optional, Lookup(d.configMaps, name))
    ensures name in c.configMaps <==> name in d.configMaps
    ensures name in c.configMaps ==> ConfigMapValue(c.configMaps[name], key) == ConfigMapValue(d.configMaps[name], key)
  {
    var a := ConfigMapKeySnapshot(name, key, optional, Lookup(c.configMaps, name));
    var b := ConfigMapKeySnapshot(name, key, optional, Lookup(d.configMaps, name));
    assert a.present == b.present && a.keyFound == b.keyFound && a.data == b.data;
    if a.keyFound { assert a.data[key] == b.data[key]; }
  }

  lemma SameSecretSnapshot(name: string, key: string, optional: bool, c: Inputs, d: Inputs)
    requires SecretKeySnapshot(name, key, optional, Lookup(c.secrets, name)) ==
      SecretKeySnapshot(name, key, optional, Lookup(d.secrets, name))
    ensures name in c.secrets <==> name in d.secrets
    ensures name in c.secrets ==> Lookup(c.secrets[name].data, key) == Lookup(d.secrets[name].data, key)
  {
    var a := SecretKeySnapshot(name, key, optional, Lookup(c.secrets, name));
    var b := SecretKeySnapshot(name, key, optional, Lookup(d.secrets, name));
    assert a.present == b.present && a.keyFound == b.keyFound && a.data == b.data;
    if a.keyFound {
      assert a.data[key] == b.data[key];
      Base64.EncodeInjective(c.secrets[name].data[key], d.secrets[name].data[key]);
    }
  }

  // ---- environment ---------------------------------------------------------------------------------

  /** A variable shows every move of its key: the plain value appears or disappears. */
  predicate EnvMoved(env: EnvVar, c: Inputs, d: Inputs) {
    && env.valueFrom.Some? && Named(env.valueFrom.value.configMapKeyRef)
    && var ref := env.valueFrom.value.configMapKeyRef.value;
       && ref.name in c.configMaps && ref.name in d.configMaps
         && Moved(c.configMaps[ref.name], d.configMaps[ref.name], ref.key)
  }

  ghost predicate BundleMoved(source: EnvFromSource, c: Inputs, d: Inputs) {
    && NamedSource(source.configMapRef)
    && var name := source.configMapRef.value.name;
       && name in c.configMaps && name in d.configMaps && exists key ::
         Moved(c.configMaps[name], d.configMaps[name], key)
  }

  lemma EnvValueExact(spec: AgentSpec, env: EnvVar, c: Inputs, d: Inputs)
    requires env in spec.env && ReferencedApart(spec, c) && ReferencedApart(spec, d)
    requires EnvValueSnapshots(env, c) == EnvValueSnapshots(env, d)
    ensures ValueOf(env, c) == ValueOf(env, d) <==> !EnvMoved(env, c, d)
  {
    if env.valueFrom.Some? {
      var from := env.valueFrom.value;
      if Named(from.configMapKeyRef) {
        var ref := from.configMapKeyRef.value;
        assert EnvValueSnapshots(env, c)[0] == EnvValueSnapshots(env, d)[0];
        SameConfigMapSnapshot(ref.name, ref.key, OptionalValue(ref.optional), c, d);
        if ref.name in c.configMaps {
          var i :| 0 <= i < |spec.env| && spec.env[i] == env;
          assert spec.env[i].valueFrom.Some? && Selects(spec.env[i].valueFrom.value.configMapKeyRef, ref.name);
          assert ReferencesConfigMap(spec, ref.name);
          assert ApartAt(c, ref.name) && ApartAt(d, ref.name);
          KeyMove(c.configMaps[ref.name], d.configMaps[ref.name], ref.key);
        }
      } else if from.configMapKeyRef.None? && Named(from.secretKeyRef) {
        var ref := from.secretKeyRef.value;
        assert EnvValueSnapshots(env, c)[0] == EnvValueSnapshots(env, d)[0];
        SameSecretSnapshot(ref.name, ref.key, OptionalValue(ref.optional), c, d);
      }
    }
  }

  lemma BundleExact(spec: AgentSpec, i: nat, c: Inputs, d: Inputs)
    requires i < |spec.envFrom| && ReferencedApart(spec, c) && ReferencedApart(spec, d)
    requires EnvFromSnapshots(spec.envFrom[i], c) == EnvFromSnapshots(spec.envFrom[i], d)
    ensures BundleOf(spec.envFrom[i], c) == BundleOf(spec.envFrom[i], d) <==> !BundleMoved(spec.envFrom[i], c, d)
  {
    var source := spec.envFrom[i];
    var a, b := EnvFromSnapshots(source, c), EnvFromSnapshots(source, d);
    if NamedSource(source.secretRef) {
      var name, k := source.secretRef.value.name, |a| - 1;
      assert a[k] == b[k] && a[k].present == b[k].present;
      if name in c.secrets {
        SameEncoded(c.secrets[name].data, d.secrets[name].data);
      }
    }
    if NamedSource(source.configMapRef) {
      var name := source.configMapRef.value.name;
      assert a[0] == b[0] && a[0].present == b[0].present;
      if name in c.configMaps {
        assert Draws(spec.envFrom[i].configMapRef, name);
        assert ReferencesConfigMap(spec, name);
        assert ApartAt(c, name) && ApartAt(d, name);
        WholeMove(c.configMaps[name], d.configMaps[name]);
      }
    }
  }

  // ---- volumes --------------------------------------------------------------------------------------

  lemma {:induction false} SecretVolumeOrigin(names: seq<string>, k: nat)
    requires k < |SecretVolumes(names)|
    ensures exists i ::
      0 <= i < |names| && names[i] != "" && SecretVolumes(names)[k].source == SecretVolume(names[i], [], None)
  {
    var last := |names| - 1;
    if k < |SecretVolumes(names[..last])| {
      SecretVolumeOrigin(names[..last], k);
      var i :| 0 <= i < last && names[..last][i] != "" && SecretVolumes(names[..last])[k].source ==
        SecretVolume(names[..last][i], [], None);
      assert names[i] == names[..last][i];
    }
  }

  lemma {:induction false} FileVolumeOrigin(mounts: seq<FileMount>, k: nat)
    requires k < |FileVolumes(mounts)|
    ensures exists i :: 0 <= i < |mounts| && FileMountSource(mounts[i]) == Some(FileVolumes(mounts)[k].source)
  {
    var last := |mounts| - 1;
    if k < |FileVolumes(mounts[..last])| {
      FileVolumeOrigin(mounts[..last], k);
      var i :| 0 <= i < last && FileMountSource(mounts[..last][i]) == Some(FileVolumes(mounts[..last])[k].source);
      assert mounts[i] == mounts[..last][i];
    }
  }

  ghost predicate SameSnapshots(agent: string, spec: AgentSpec, c: Inputs, d: Inputs) {
    && Resolve(spec, c) == Resolve(spec, d)
    && FlatMap(OfFile(c), PlanFiles(agent, spec)) == FlatMap(OfFile(d), PlanFiles(agent, spec))
  }

  lemma AlignedFile(files: seq<ConfigFile>, c: Inputs, d: Inputs, k: nat)
    requires FlatMap(OfFile(c), files) == FlatMap(OfFile(d), files) && k < |files|
    ensures FileSnapshots(files[k], c) == FileSnapshots(files[k], d)
  {
    FlatMapAligned(OfFile(c), OfFile(d), files);
    assert OfFile(c)(files[k]) == OfFile(d)(files[k]);
  }

  lemma FileInPlace(files: seq<ConfigFile>, c: Inputs, k: nat)
    requires GeneratedInPlace(files, c) && k < |files|
    ensures GeneratedInPlace([files[k]], c)
  {
  }

  lemma ConfigVolumeExact(agent: string, spec: AgentSpec, c: Inputs, d: Inputs, k: nat)
    requires ValidConfig(spec) && SameSnapshots(agent, spec, c, d) && ReferencedApart(spec, c)
      && ReferencedApart(spec, d)
    requires GeneratedInPlace(PlanFiles(agent, spec), c) && GeneratedInPlace(PlanFiles(agent, spec), d)
      && k < |PlanFiles(agent, spec)|
    ensures var file := PlanFiles(agent, spec)[k];
      VolumeContents(ConfigFileSource(file), c) == VolumeContents(ConfigFileSource(file), d) <==> !FileMoved(file, c, d)
  {
    hide VolumeContents, ConfigFileSource, PlanFiles, Resolve, FlatMap, GeneratedInPlace, FileSnapshots,
      ReferencesConfigMap, ValidMounts, ValidSource, FileMoved;
    var files := PlanFiles(agent, spec);
    AlignedFile(files, c, d, k);
    PlannedFile(agent, spec, k);
    FileInPlace(files, c, k);
    FileInPlace(files, d, k);
    FileContentsExact(files[k], c, d);
  }

  lemma SameSecretVolume(spec: AgentSpec, c: Inputs, d: Inputs, k: nat)
    requires Resolve(spec, c) == Resolve(spec, d) && k < |SecretVolumes(spec.secretRefs)|
    ensures VolumeContents(SecretVolumes(spec.secretRefs)[k].source, c) ==
      VolumeContents(SecretVolumes(spec.secretRefs)[k].source, d)
  {
    FlatMapAligned(OfSecretRef(c), OfSecretRef(d), spec.secretRefs);
    SecretVolumeOrigin(spec.secretRefs, k);
    var i :| 0 <= i < |spec.secretRefs| && spec.secretRefs[i] != ""
      && SecretVolumes(spec.secretRefs)[k].source == SecretVolume(spec.secretRefs[i], [], None);
    var name := spec.secretRefs[i];
    assert OfSecretRef(c)(name) == OfSecretRef(d)(name);
    assert SecretRefSnapshots(name, c)[0] == SecretRefSnapshots(name, d)[0];
    assert SecretRefSnapshots(name, c)[0].present == SecretRefSnapshots(name, d)[0].present;
    if name in c.secrets { SameEncoded(c.secrets[name].data, d.secrets[name].data); }
  }

  lemma {:induction false} FileVolumesAligned(mounts: seq<FileMount>)
    requires forall i :: 0 <= i < |mounts| ==> ValidTarget(mounts[i])
    ensures |FileVolumes(mounts)| == |mounts|
    ensures forall i :: 0 <= i < |mounts| ==> FileMountSource(mounts[i]) == Some(FileVolumes(mounts)[i].source)
  {
    if mounts != [] {
      hide FileMountSource, ValidTarget, FileVolumes;
      var last := |mounts| - 1;
      FileVolumesAligned(mounts[..last]);
      LastFileVolume(mounts);
      forall i | 0 <= i < |mounts| ensures FileMountSource(mounts[i]) == Some(FileVolumes(mounts)[i].source) {
        assert i < last ==> mounts[..last][i] == mounts[i];
      }
    }
  }

  lemma LastFileVolume(mounts: seq<FileMount>)
    requires mounts != [] && ValidTarget(mounts[|mounts| - 1])
    ensures var last := |mounts| - 1;
      && FileMountSource(mounts[last]).Some?
      && FileVolumes(mounts) ==
        FileVolumes(mounts[..last]) + [Volume(FileMountVolumeName(last), FileMountSource(mounts[last]).value)]
  {
  }

  lemma FileVolumeExact(spec: AgentSpec, c: Inputs, d: Inputs, i: nat)
    requires ValidMounts(spec.fileMounts) && Resolve(spec, c) == Resolve(spec, d) && i < |spec.fileMounts|
    requires ReferencedApart(spec, c) && ReferencedApart(spec, d)
    ensures |FileVolumes(spec.fileMounts)| == |spec.fileMounts|
    ensures var source := FileVolumes(spec.fileMounts)[i].source;
      VolumeContents(source, c) == VolumeContents(source, d) <==> !MountMoved(spec.fileMounts[i], c, d)
  {
    FileVolumesAligned(spec.fileMounts);
    FlatMapAligned(OfFileMount(c), OfFileMount(d), spec.fileMounts);
    var mount := spec.fileMounts[i];
    assert OfFileMount(c)(mount) == OfFileMount(d)(mount);
    assert ValidTarget(mount) && ValidItems(mount.items);
    hide Resolve, ValidMounts, ValidItems, VolumeContents, FileVolumes, FileMountSnapshots, MountComplete;
    if NamedRef(mount.configMapRef) {
      assert ReferencesConfigMap(spec, mount.configMapRef.value);
      assert ApartAt(c, mount.configMapRef.value) && ApartAt(d, mount.configMapRef.value);
      ConfigMapMountExact(mount, c, d);
    } else {
      SameSecretMount(mount, c, d);
    }
  }

  lemma {:induction false} UpsertedMembers(env: seq<EnvVar>, value: EnvVar, i: nat)
    requires i < |Upserted(env, value)|
    ensures Upserted(env, value)[i] in env || Upserted(env, value)[i] == value
  {
    if env != [] && env[0].name != value.name && i > 0 {
      UpsertedMembers(env[1..], value, i - 1);
    }
  }

  lemma EnvironmentExact(spec: AgentSpec, c: Inputs, d: Inputs, i: nat)
    requires Resolve(spec, c) == Resolve(spec, d) && ReferencedApart(spec, c) && ReferencedApart(spec, d)
    requires i < |Upserted(spec.env, HOME_VARIABLE)|
    ensures var env := Upserted(spec.env, HOME_VARIABLE)[i]; ValueOf(env, c) == ValueOf(env, d) <==>
      !EnvMoved(env, c, d)
  {
    var env := Upserted(spec.env, HOME_VARIABLE)[i];
    UpsertedMembers(spec.env, HOME_VARIABLE, i);
    if env in spec.env {
      FlatMapAligned(OfEnvValue(c), OfEnvValue(d), spec.env);
      var j :| 0 <= j < |spec.env| && spec.env[j] == env;
      assert OfEnvValue(c)(spec.env[j]) == OfEnvValue(d)(spec.env[j]);
      hide Resolve, ValueOf, EnvMoved, EnvValueSnapshots, ReferencedApart, Upserted;
      EnvValueExact(spec, env, c, d);
    }
  }

  lemma BundlesExact(spec: AgentSpec, c: Inputs, d: Inputs, i: nat)
    requires Resolve(spec, c) == Resolve(spec, d) && ReferencedApart(spec, c) && ReferencedApart(spec, d)
      && i < |spec.envFrom|
    ensures BundleOf(spec.envFrom[i], c) == BundleOf(spec.envFrom[i], d) <==> !BundleMoved(spec.envFrom[i], c, d)
  {
    FlatMapAligned(OfEnvFrom(c), OfEnvFrom(d), spec.envFrom);
    assert OfEnvFrom(c)(spec.envFrom[i]) == OfEnvFrom(d)(spec.envFrom[i]);
    hide Resolve, BundleOf, BundleMoved, EnvFromSnapshots, ReferencedApart;
    BundleExact(spec, i, c, d);
  }

  ghost predicate SameVolumes(volumes: seq<Volume>, c: Inputs, d: Inputs) {
    forall k :: 0 <= k < |volumes| ==> VolumeContents(volumes[k].source, c) == VolumeContents(volumes[k].source, d)
  }

  lemma JoinVolumes(a: seq<Volume>, b: seq<Volume>, c: Inputs, d: Inputs)
    ensures SameVolumes(a + b, c, d) <==> SameVolumes(a, c, d) && SameVolumes(b, c, d)
  {
    hide VolumeContents;
    if SameVolumes(a + b, c, d) {
      forall k | 0 <= k < |b| ensures VolumeContents(b[k].source, c) == VolumeContents(b[k].source, d) {
        assert (a + b)[|a| + k] == b[k];
      }
      forall k | 0 <= k < |a| ensures VolumeContents(a[k].source, c) ==
        VolumeContents(a[k].source, d) { assert (a + b)[k] == a[k]; }
    }
  }

  lemma ConfigVolumesExact(agent: string, spec: AgentSpec, c: Inputs, d: Inputs)
    requires ValidConfig(spec) && SameSnapshots(agent, spec, c, d) && ReferencedApart(spec, c)
      && ReferencedApart(spec, d)
    requires GeneratedInPlace(PlanFiles(agent, spec), c) && GeneratedInPlace(PlanFiles(agent, spec), d)
    ensures SameVolumes(ConfigVolumes(PlanFiles(agent, spec)), c, d) <==>
      forall k :: 0 <= k < |PlanFiles(agent, spec)| ==> !FileMoved(PlanFiles(agent, spec)[k], c, d)
  {
    hide VolumeContents, PlanFiles, SameSnapshots, GeneratedInPlace, ReferencedApart, FileMoved, ValidConfig,
      ConfigFileSource;
    var files := PlanFiles(agent, spec);
    var volumes := ConfigVolumes(files);
    forall k | 0 <= k < |files|
      ensures VolumeContents(volumes[k].source, c) == VolumeContents(volumes[k].source, d) <==>
        !FileMoved(files[k], c, d)
    {
      ConfigVolumeExact(agent, spec, c, d, k);
    }
    assert |volumes| == |files|;
  }

  lemma FileVolumesExact(spec: AgentSpec, c: Inputs, d: Inputs)
    requires ValidMounts(spec.fileMounts) && Resolve(spec, c) == Resolve(spec, d) && ReferencedApart(spec, c)
      && ReferencedApart(spec, d)
    ensures SameVolumes(FileVolumes(spec.fileMounts), c, d) <==>
      forall i :: 0 <= i < |spec.fileMounts| ==> !MountMoved(spec.fileMounts[i], c, d)
  {
    assert forall i :: 0 <= i < |spec.fileMounts| ==> ValidTarget(spec.fileMounts[i]);
    hide VolumeContents, FileVolumes, MountMoved, ReferencedApart, Resolve, ValidMounts;
    var volumes := FileVolumes(spec.fileMounts);
    FileVolumesAligned(spec.fileMounts);
    forall i | 0 <= i < |spec.fileMounts|
      ensures VolumeContents(volumes[i].source, c) == VolumeContents(volumes[i].source, d) <==>
        !MountMoved(spec.fileMounts[i], c, d)
    {
      FileVolumeExact(spec, c, d, i);
    }
  }

  lemma SameSecretVolumes(spec: AgentSpec, c: Inputs, d: Inputs)
    requires Resolve(spec, c) == Resolve(spec, d)
    ensures SameVolumes(SecretVolumes(spec.secretRefs), c, d)
  {
    hide VolumeContents, SecretVolumes, Resolve;
    forall k | 0 <= k < |SecretVolumes(spec.secretRefs)|
      ensures VolumeContents(SecretVolumes(spec.secretRefs)[k].source, c) ==
        VolumeContents(SecretVolumes(spec.secretRefs)[k].source, d) {
      SameSecretVolume(spec, c, d, k);
    }
  }

  lemma SameResolved(agent: string, spec: AgentSpec, c: Inputs, d: Inputs)
    requires SameSnapshots(agent, spec, c, d)
    ensures Resolve(spec, c) == Resolve(spec, d)
  {
    hide Resolve, PlanFiles;
  }

  lemma ViewsAgree(inputs: TemplateInputs, c: Inputs, d: Inputs)
    ensures ViewOf(inputs, c) == ViewOf(inputs, d) <==>
      && (forall i :: 0 <= i < |inputs.env| ==> ValueOf(inputs.env[i], c) == ValueOf(inputs.env[i], d))
      && (forall i :: 0 <= i < |inputs.envFrom| ==> BundleOf(inputs.envFrom[i], c) == BundleOf(inputs.envFrom[i], d))
      && SameVolumes(inputs.volumes, c, d)
  {
    hide ValueOf, BundleOf, VolumeContents;
    var x, y := ViewOf(inputs, c), ViewOf(inputs, d);
    if x == y {
      forall i | 0 <= i < |inputs.env| ensures ValueOf(inputs.env[i], c) ==
        ValueOf(inputs.env[i], d) { assert x.env[i] == y.env[i]; }
      forall i | 0 <= i < |inputs.envFrom| ensures BundleOf(inputs.envFrom[i], c) == BundleOf(inputs.envFrom[i], d) {
        assert x.bundles[i] == y.bundles[i];
      }
      forall i | 0 <= i < |inputs.volumes| ensures VolumeContents(inputs.volumes[i].source, c) ==
        VolumeContents(inputs.volumes[i].source, d) {
        assert x.volumes[i] == y.volumes[i];
      }
    }
  }

  /** No key moved between Data and BinaryData under a reader that can tell: a variable or a bundle tells
      every move, a mounted file every move of contents that are not empty. Unread keys may move freely. */
  ghost predicate NoVisibleMove(agent: string, spec: AgentSpec, c: Inputs, d: Inputs) {
    && (forall i :: 0 <= i < |Upserted(spec.env, HOME_VARIABLE)| ==>
      !EnvMoved(Upserted(spec.env, HOME_VARIABLE)[i], c, d))
    && (forall i :: 0 <= i < |spec.envFrom| ==> !BundleMoved(spec.envFrom[i], c, d))
    && (forall i :: 0 <= i < |PlanFiles(agent, spec)| ==> !FileMoved(PlanFiles(agent, spec)[i], c, d))
    && (forall i :: 0 <= i < |spec.fileMounts| ==> !MountMoved(spec.fileMounts[i], c, d))
  }

  /** Same spec, same resolved inputs: the same pod exactly if no key moved visibly. */
  lemma SameInputsSameView(agent: string, spec: AgentSpec, hash: string, c: Inputs, d: Inputs)
    requires ValidConfig(spec) && SameSnapshots(agent, spec, c, d) && ReferencedApart(spec, c)
      && ReferencedApart(spec, d)
    requires GeneratedInPlace(PlanFiles(agent, spec), c) && GeneratedInPlace(PlanFiles(agent, spec), d)
    ensures var inputs := BuildTemplateInputs(spec, Plan(PlanFiles(agent, spec), hash));
      ViewOf(inputs, c) == ViewOf(inputs, d) <==> NoVisibleMove(agent, spec, c, d)
  {
    assert ValidMounts(spec.fileMounts);
    SameResolved(agent, spec, c, d);
    hide ViewOf, ValueOf, BundleOf, SameVolumes, SameSnapshots, ReferencedApart, ValidConfig, ValidMounts,
      GeneratedInPlace, PlanFiles, Upserted,
      EnvMoved, BundleMoved, FileMoved, MountMoved, Resolve, ConfigVolumes, SecretVolumes, FileVolumes;
    var files := PlanFiles(agent, spec);
    var inputs := BuildTemplateInputs(spec, Plan(files, hash));
    forall i | 0 <= i < |inputs.env| ensures ValueOf(inputs.env[i], c) == ValueOf(inputs.env[i], d) <==>
      !EnvMoved(inputs.env[i], c, d) {
      EnvironmentExact(spec, c, d, i);
    }
    forall i | 0 <= i < |inputs.envFrom|
      ensures BundleOf(inputs.envFrom[i], c) == BundleOf(inputs.envFrom[i], d) <==>
        !BundleMoved(inputs.envFrom[i], c, d) {
      BundlesExact(spec, c, d, i);
    }
    JoinVolumes(ConfigVolumes(files), SecretVolumes(spec.secretRefs), c, d);
    JoinVolumes(ConfigVolumes(files) + SecretVolumes(spec.secretRefs), FileVolumes(spec.fileMounts), c, d);
    ConfigVolumesExact(agent, spec, c, d);
    SameSecretVolumes(spec, c, d);
    FileVolumesExact(spec, c, d);
    ViewsAgree(inputs, c, d);
  }

  /** Any two agents and clusters whose hash payloads are equal run the same pod inputs, every config
      file, secret mount, projected file and environment value, if and only if no key moved visibly. */
  lemma RolloutFaithful(agent: string, spec: AgentSpec, c: Inputs, other: string, otherSpec: AgentSpec, d: Inputs,
        hash: string)
    requires ValidConfig(spec) && ValidConfig(otherSpec)
    requires PayloadOf(agent, spec, Resolve(spec, c)) == PayloadOf(other, otherSpec, Resolve(otherSpec, d))
    requires GeneratedInPlace(PlanFiles(agent, spec), c) && GeneratedInPlace(PlanFiles(other, otherSpec), d)
    requires ReferencedApart(spec, c) && ReferencedApart(spec, d)
    ensures ViewOf(BuildTemplateInputs(spec, Plan(PlanFiles(agent, spec), hash)), c)
      == ViewOf(BuildTemplateInputs(otherSpec, Plan(PlanFiles(other, otherSpec), hash)), d)
      <==> NoVisibleMove(agent, spec, c, d)
  {
    FileRefsFromFiles(agent, spec, c);
    FileRefsFromFiles(agent, spec, d);
    FileRefsFromFiles(other, otherSpec, d);
    var p, q := PayloadOf(agent, spec, Resolve(spec, c)), PayloadOf(other, otherSpec, Resolve(otherSpec, d));
    assert p.files == q.files && p.env == q.env && p.envFrom == q.envFrom && p.secretRefs == q.secretRefs
      && p.fileMounts == q.fileMounts;
    assert Resolve(spec, d) == Resolve(otherSpec, d);
    assert SameSnapshots(agent, spec, c, d);
    assert BuildTemplateInputs(spec, Plan(PlanFiles(agent, spec), hash)) ==
      BuildTemplateInputs(otherSpec, Plan(PlanFiles(other, otherSpec), hash));
    hide SameSnapshots, ViewOf, BuildTemplateInputs, PlanFiles, NoVisibleMove, GeneratedInPlace, ReferencedApart,
      PayloadOf, Resolve;
    SameInputsSameView(agent, spec, hash, c, d);
  }

  /** The payload cannot tell a move: replacing binary data by its base64 text in Data leaves it equal, for
      every spec, every cluster and every key. */
  lemma MovedKeyInvisible(agent: string, spec: AgentSpec, c: Inputs, name: string, key: string)
    requires name in c.configMaps && KeysApart(c.configMaps[name]) && key in c.configMaps[name].binaryData
    ensures var cm := c.configMaps[name];
      var after := cm.(data := cm.data[key := Base64.Encode(cm.binaryData[key])], binaryData := cm.binaryData - {key});
      && KeysApart(after) && Moved(cm, after, key)
      && PayloadOf(agent, spec, Resolve(spec, c.(configMaps := c.configMaps[name := after]))) ==
        PayloadOf(agent, spec, Resolve(spec, c))
  {
    hide Base64.Encode, Resolve, CopyConfigMapData, ConfigMapValue, ReferencesConfigMap, WholeConfigMap, ConfigMapKey,
      ReferencesSecret;
    var cm := c.configMaps[name];
    var after := cm.(data := cm.data[key := Base64.Encode(cm.binaryData[key])], binaryData := cm.binaryData - {key});
    var d := c.(configMaps := c.configMaps[name := after]);
    MoveKeepsValues(cm, key);
    forall n | ReferencesConfigMap(spec, n) ensures SameConfigMap(spec, n, Lookup(d.configMaps, n),
      Lookup(c.configMaps, n)) {}
    forall n | ReferencesSecret(spec, n) ensures Observation.SameSecret(spec, n, Lookup(d.secrets, n),
      Lookup(c.secrets, n)) {}
    ObservedDeterminesInputs(spec, d, c);
  }

  lemma MoveKeepsValues(cm: ConfigMap, key: string)
    requires KeysApart(cm) && key in cm.binaryData
    ensures var after := cm.(data := cm.data[key := Base64.Encode(cm.binaryData[key])], binaryData :=
      cm.binaryData - {key});
      CopyConfigMapData(after) == CopyConfigMapData(cm) && forall k :: ConfigMapValue(after, k) == ConfigMapValue(cm, k)
  {
    hide Base64.Encode;
    var after := cm.(data := cm.data[key := Base64.Encode(cm.binaryData[key])], binaryData := cm.binaryData - {key});
    forall k ensures ConfigMapValue(after, k) == ConfigMapValue(cm, k) {}
    var m, n := CopyConfigMapData(after), CopyConfigMapData(cm);
    forall k ensures Lookup(m, k) == Lookup(n, k) {
      WholeValue(after, k);
      WholeValue(cm, k);
    }
    SameMaps(m, n);
  }

  /** Adding, changing or removing keys that nothing selects, in a ConfigMap referenced only by key,
      leaves the payload, and so the hash, alone. */
  lemma UnselectedKeysInvisible(agent: string, spec: AgentSpec, c: Inputs, name: string, after: ConfigMap)
    requires name in c.configMaps && !WholeConfigMap(spec, name)
    requires forall key | ConfigMapKey(spec, name, key) ::
      ConfigMapValue(after, key) == ConfigMapValue(c.configMaps[name], key)
    ensures PayloadOf(agent, spec, Resolve(spec, c.(configMaps := c.configMaps[name := after]))) ==
      PayloadOf(agent, spec, Resolve(spec, c))
  {
    var d := c.(configMaps := c.configMaps[name := after]);
    forall n | ReferencesConfigMap(spec, n) ensures SameConfigMap(spec, n, Lookup(d.configMaps, n),
      Lookup(c.configMaps, n)) {}
    ObservedDeterminesInputs(spec, d, c);
  }

  /** The same for a Secret. */
  lemma UnselectedSecretKeysInvisible(agent: string, spec: AgentSpec, c: Inputs, name: string, after: Secret)
    requires name in c.secrets && !WholeSecret(spec, name)
    requires forall key | SecretKey(spec, name, key) :: Lookup(after.data, key) == Lookup(c.secrets[name].data, key)
    ensures PayloadOf(agent, spec, Resolve(spec, c.(secrets := c.secrets[name := after]))) ==
      PayloadOf(agent, spec, Resolve(spec, c))
  {
    var d := c.(secrets := c.secrets[name := after]);
    forall n | ReferencesSecret(spec, n) ensures SameSecret(spec, n, Lookup(d.secrets, n), Lookup(c.secrets, n)) {}
    ObservedDeterminesInputs(spec, d, c);
  }

  // ---- template integrity -----------------------------------------------------------------------------

  /** The kubelet can fill a required bundle. */
  predicate BundleAvailable(source: EnvFromSource, c: Inputs) {
    && (source.configMapRef.Some? && Gate.Required(source.configMapRef.value.optional) ==>
      BundleOf(source, c).plain.Some?)
    && (source.secretRef.Some? && Gate.Required(source.secretRef.value.optional) ==> BundleOf(source, c).secret.Some?)
  }

  /** The kubelet finds every ConfigMap, Secret and key it needs: volumes materialise, variables and bundles are
      bound. */
  ghost predicate InputsSatisfied(pod: PodSpec, c: Inputs) {
    && (forall k :: 0 <= k < |pod.volumes| ==> VolumeContents(pod.volumes[k].source, c) != Unavailable)
    && (forall i :: 0 <= i < |pod.env| ==> ValueOf(pod.env[i], c) != Unbound)
    && (forall i :: 0 <= i < |pod.envFrom| ==> BundleAvailable(pod.envFrom[i], c))
  }

  /** Every claim the pod mounts is among the bound ones. */
  ghost predicate ClaimsBound(pod: PodSpec, bound: set<string>) {
    forall k :: 0 <= k < |pod.volumes| && pod.volumes[k].source.ClaimVolume? ==> pod.volumes[k].source.name in bound
  }

  /** The kubelet can materialise every volume and bind every variable of a pod of this template. */
  ghost predicate TemplateSatisfied(pod: PodSpec, c: Inputs, bound: set<string>) {
    InputsSatisfied(pod, c) && ClaimsBound(pod, bound)
  }

  /** No required variable of the pod asks for a key that is binary data only. */
  ghost predicate NoBinaryVariable(spec: AgentSpec, c: Inputs) {
    forall i :: 0 <= i < |Upserted(spec.env, HOME_VARIABLE)| ==>
      !BinaryOnlyVariable(Upserted(spec.env, HOME_VARIABLE)[i], c)
  }

  lemma ProjectAvailable(items: seq<KeyToPath>, values: map<string, Bytes>)
    requires forall i :: 0 <= i < |items| ==> items[i].key in values
    ensures Project(items, values).Files?
  {
    ProjectExact(items, values);
  }

  lemma ConfigVolumeAvailable(agent: string, spec: AgentSpec, c: Inputs, k: nat)
    requires ValidConfig(spec) && InputsComplete(spec, c) && k < |PlanFiles(agent, spec)|
    requires GeneratedInPlace(PlanFiles(agent, spec), c)
    ensures VolumeContents(ConfigFileSource(PlanFiles(agent, spec)[k]), c) != Unavailable
  {
    var file := PlanFiles(agent, spec)[k];
    var items := [KeyToPath(file.sourceKey, file.fileName, None)];
    if file.secretName != "" {
      ProjectAvailable(items, c.secrets[file.secretName].data);
    } else {
      ProjectAvailable(items, ConfigMapFiles(c.configMaps[file.configMapName]));
    }
  }

  lemma FileVolumeAvailable(spec: AgentSpec, c: Inputs, k: nat)
    requires ValidConfig(spec) && InputsComplete(spec, c) && k < |FileVolumes(spec.fileMounts)|
    ensures VolumeContents(FileVolumes(spec.fileMounts)[k].source, c) != Unavailable
  {
    FileVolumeOrigin(spec.fileMounts, k);
    var i :| 0 <= i < |spec.fileMounts| && FileMountSource(spec.fileMounts[i]) ==
      Some(FileVolumes(spec.fileMounts)[k].source);
    var mount := spec.fileMounts[i];
    assert ValidTarget(mount) && MountComplete(mount, c);
    var items := ProjectionItems(mount.items);
    forall j | 0 <= j < |items| ensures mount.items[j] in mount.items && items[j].key == mount.items[j].key {}
    if mount.configMapRef.Some? {
      ProjectAvailable(items, ConfigMapFiles(c.configMaps[mount.configMapRef.value]));
    } else {
      ProjectAvailable(items, c.secrets[mount.secretRef.value].data);
    }
  }

  lemma VolumeAvailable(agent: string, spec: AgentSpec, c: Inputs, k: nat)
    requires FullyNamed(spec) && InputsComplete(spec, c) && GeneratedInPlace(PlanFiles(agent, spec), c)
    requires k < |PlanFiles(agent, spec)| + |SecretVolumes(spec.secretRefs)| + |FileVolumes(spec.fileMounts)|
    ensures var volumes := ConfigVolumes(PlanFiles(agent, spec)) + SecretVolumes(spec.secretRefs)
      + FileVolumes(spec.fileMounts);
      VolumeContents(volumes[k].source, c) != Unavailable
  {
    var files, s := PlanFiles(agent, spec), SecretVolumes(spec.secretRefs);
    hide PlanFiles, SecretVolumes, FileVolumes, ConfigFileSource, ValidMounts, ValidSource;
    if k < |files| {
      ConfigVolumeAvailable(agent, spec, c, k);
    } else if k < |files| + |s| {
      SecretVolumeOrigin(spec.secretRefs, k - |files|);
    } else {
      FileVolumeAvailable(spec, c, k - |files| - |s|);
    }
  }

  lemma PodVariableBound(spec: AgentSpec, c: Inputs, i: nat)
    requires FullyNamed(spec) && InputsComplete(spec, c) && i < |Upserted(spec.env, HOME_VARIABLE)|
    ensures var env := Upserted(spec.env, HOME_VARIABLE)[i]; ValueOf(env, c) != Unbound <==> !BinaryOnlyVariable(env, c)
  {
    var env := Upserted(spec.env, HOME_VARIABLE)[i];
    UpsertedMembers(spec.env, HOME_VARIABLE, i);
    if env in spec.env {
      var j :| 0 <= j < |spec.env| && spec.env[j] == env;
      assert ValidEnvVar(spec.env[j]) && EnvComplete(spec.env[j], c);
      hide ValidEnvVar, EnvComplete, ValueOf, BinaryOnlyVariable, FullyNamed, InputsComplete, Upserted;
      VariableBound(env, c);
    }
  }

  /** With persistence on, the agent's claim is bound. */
  predicate ClaimReady(agent: string, spec: AgentSpec, bound: set<string>) {
    PersistenceEnabled(spec) ==> ClaimName(agent) in bound
  }

  lemma ClaimsBoundExactly(agent: string, spec: AgentSpec, hash: string, bound: set<string>)
    ensures ClaimsBound(BuildStatefulSet(agent, spec,
      BuildTemplateInputs(spec, Plan(PlanFiles(agent, spec), hash))).template.pod, bound)
      <==> ClaimReady(agent, spec, bound)
  {
    var inputs := BuildTemplateInputs(spec, Plan(PlanFiles(agent, spec), hash));
    var pod := BuildStatefulSet(agent, spec, inputs).template.pod;
    PodVolumes(agent, spec, hash);
    assert |pod.volumes| >= 2;
    hide BuildStatefulSet, BuildTemplateInputs, PlanFiles, ClaimName, PersistenceEnabled, FixedVolumes;
    forall k | 0 <= k < |pod.volumes|
      ensures pod.volumes[k].source.ClaimVolume? <==> PersistenceEnabled(spec) && k == |pod.volumes| - 2
      ensures pod.volumes[k].source.ClaimVolume? ==> pod.volumes[k].source.name == ClaimName(agent)
    {
      ClaimVolumesExact(agent, spec, hash, k);
    }
    if PersistenceEnabled(spec) {
      assert pod.volumes[|pod.volumes| - 2].source.name == ClaimName(agent);
    }
  }

  /** With complete inputs and generated files in place the built template can start exactly if no required
      variable is binary-only and the claim, if there is one, is bound. */
  lemma TemplateIntegrity(agent: string, spec: AgentSpec, hash: string, c: Inputs, bound: set<string>)
    requires FullyNamed(spec) && InputsComplete(spec, c) && GeneratedInPlace(PlanFiles(agent, spec), c)
    ensures TemplateSatisfied(BuildStatefulSet(agent, spec,
      BuildTemplateInputs(spec, Plan(PlanFiles(agent, spec), hash))).template.pod, c, bound)
      <==> NoBinaryVariable(spec, c) && ClaimReady(agent, spec, bound)
  {
    hide BuildStatefulSet, BuildTemplateInputs, PlanFiles, FullyNamed, InputsComplete, GeneratedInPlace,
      InputsSatisfied, ClaimsBound, NoBinaryVariable, ClaimReady;
    InputsIntegrity(agent, spec, hash, c);
    ClaimsBoundExactly(agent, spec, hash, bound);
  }

  lemma InputsIntegrity(agent: string, spec: AgentSpec, hash: string, c: Inputs)
    requires FullyNamed(spec) && InputsComplete(spec, c) && GeneratedInPlace(PlanFiles(agent, spec), c)
    ensures InputsSatisfied(BuildStatefulSet(agent, spec,
      BuildTemplateInputs(spec, Plan(PlanFiles(agent, spec), hash))).template.pod, c)
      <==> NoBinaryVariable(spec, c)
  {
    hide PlanFiles, BuildStatefulSet, BuildTemplateInputs, SecretVolumes, FileVolumes, Upserted, FullyNamed,
      GeneratedInPlace, ValueOf, BinaryOnlyVariable, InputsComplete, ConfigVolumes, BundleAvailable;
    var files, s, f := PlanFiles(agent, spec), SecretVolumes(spec.secretRefs), FileVolumes(spec.fileMounts);
    var pod := BuildStatefulSet(agent, spec, BuildTemplateInputs(spec, Plan(files, hash))).template.pod;
    PodEnvironment(agent, spec, hash);
    forall k | 0 <= k < |pod.volumes| ensures VolumeContents(pod.volumes[k].source, c) != Unavailable {
      PodVolumeAvailable(agent, spec, hash, c, k);
    }
    hide VolumeContents;
    forall i | 0 <= i < |pod.env| ensures ValueOf(pod.env[i], c) != Unbound <==> !BinaryOnlyVariable(pod.env[i], c) {
      PodVariableBound(spec, c, i);
    }
    forall i | 0 <= i < |pod.envFrom| ensures BundleAvailable(pod.envFrom[i], c) {
      NamedBundle(spec, c, i);
    }
  }

  lemma PodEnvironment(agent: string, spec: AgentSpec, hash: string)
    ensures var pod := BuildStatefulSet(agent, spec,
        BuildTemplateInputs(spec, Plan(PlanFiles(agent, spec), hash))).template.pod;
      pod.env == Upserted(spec.env, HOME_VARIABLE) && pod.envFrom == spec.envFrom
  {
    hide PlanFiles, Upserted, SecretVolumes, FileVolumes, ConfigVolumes;
  }

  lemma PodVolumeAvailable(agent: string, spec: AgentSpec, hash: string, c: Inputs, k: nat)
    requires FullyNamed(spec) && InputsComplete(spec, c) && GeneratedInPlace(PlanFiles(agent, spec), c)
    requires k < |BuildStatefulSet(agent, spec,
      BuildTemplateInputs(spec, Plan(PlanFiles(agent, spec), hash))).template.pod.volumes|
    ensures VolumeContents(BuildStatefulSet(agent, spec,
      BuildTemplateInputs(spec, Plan(PlanFiles(agent, spec), hash))).template.pod.volumes[k].source, c) != Unavailable
  {
    hide PlanFiles, BuildStatefulSet, BuildTemplateInputs, SecretVolumes, FileVolumes, FullyNamed, GeneratedInPlace,
      InputsComplete;
    var files, s, f := PlanFiles(agent, spec), SecretVolumes(spec.secretRefs), FileVolumes(spec.fileMounts);
    PodVolumes(agent, spec, hash);
    if k < |files| + |s| + |f| { VolumeAvailable(agent, spec, c, k); }
  }

  lemma NamedBundle(spec: AgentSpec, c: Inputs, i: nat)
    requires FullyNamed(spec) && InputsComplete(spec, c) && i < |spec.envFrom|
    ensures BundleAvailable(spec.envFrom[i], c)
  {
    assert ValidEnvSource(spec.envFrom[i]) && EnvSourceComplete(spec.envFrom[i], c);
  }

  /** Where the volumes of the built pod come from. */
  lemma PodVolumes(agent: string, spec: AgentSpec, hash: string)
    ensures BuildStatefulSet(agent, spec, BuildTemplateInputs(spec,
      Plan(PlanFiles(agent, spec), hash))).template.pod.volumes
      == ConfigVolumes(PlanFiles(agent, spec)) + SecretVolumes(spec.secretRefs) + FileVolumes(spec.fileMounts)
        + FixedVolumes(agent, spec)
  {
    hide PlanFiles, SecretVolumes, FileVolumes, ConfigVolumes, FixedVolumes;
  }

  /** And its mounts. */
  lemma PodMounts(agent: string, spec: AgentSpec, hash: string)
    ensures BuildStatefulSet(agent, spec, BuildTemplateInputs(spec,
      Plan(PlanFiles(agent, spec), hash))).template.pod.mounts
      == ConfigMounts(PlanFiles(agent, spec)) + SecretMounts(spec.secretRefs) + FileVolumeMounts(spec.fileMounts)
        + FIXED_MOUNTS
  {
    hide PlanFiles, SecretMounts, FileVolumeMounts, ConfigMounts;
  }

  /** The pod mounts a claim exactly if persistence is on, and then only the agent's own. */
  lemma ClaimVolumesExact(agent: string, spec: AgentSpec, hash: string, k: nat)
    requires k < |BuildStatefulSet(agent, spec, BuildTemplateInputs(spec,
      Plan(PlanFiles(agent, spec), hash))).template.pod.volumes|
    ensures var volumes := BuildStatefulSet(agent, spec, BuildTemplateInputs(spec,
      Plan(PlanFiles(agent, spec), hash))).template.pod.volumes;
      && (volumes[k].source.ClaimVolume? <==> PersistenceEnabled(spec) && k == |volumes| - 2)
      && (volumes[k].source.ClaimVolume? ==> volumes[k].source.name == ClaimName(agent))
  {
    hide PlanFiles, BuildStatefulSet, BuildTemplateInputs, SecretVolumes, FileVolumes, ClaimName;
    var files, s, f := PlanFiles(agent, spec), SecretVolumes(spec.secretRefs), FileVolumes(spec.fileMounts);
    PodVolumes(agent, spec, hash);
    var volumes := ConfigVolumes(files) + s + f + FixedVolumes(agent, spec);
    if |files| <= k < |files| + |s| {
      SecretVolumeOrigin(spec.secretRefs, k - |files|);
    } else if |files| + |s| <= k < |files| + |s| + |f| {
      FileVolumeOrigin(spec.fileMounts, k - |files| - |s|);
      var i :| 0 <= i < |spec.fileMounts| && FileMountSource(spec.fileMounts[i]) == Some(f[k - |files| - |s|].source);
    }
  }
}
