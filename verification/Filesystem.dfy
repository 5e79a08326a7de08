/** The files a container of the generated pod sees: exactly those the spec declares, each with its content,
    its mode and read-only. */
module Filesystem {
  import opened Prelude
  import opened Api
  import opened Validation
  import opened References
  import opened Gate
  import opened ConfigPlan
  import opened PodTemplate
  import opened PodView
  import opened Rollout

  datatype ShownFile = ShownFile(content: Bytes, mode: Option<int>, readOnly: bool)

  // ---- what a pod shows ------------------------------------------------------------------------------

  function DefaultMode(source: VolumeSource): Option<int> {
    if source.ConfigMapVolume? || source.SecretVolume? then source.defaultMode else None
  }

  /** A mount shows the files of its volume below its path, or the one file of its sub-path at its path. */
  ghost predicate ShownBy(v: Volume, m: VolumeMount, c: Inputs, path: string, file: ShownFile) {
    VolumeContents(v.source, c).Files? &&
    exists name ::
      var files := VolumeContents(v.source, c).files;
      && name in files
      && (if m.subPath == "" then path == m.mountPath + "/" + name else name == m.subPath && path == m.mountPath)
      && file == ShownFile(files[name].content,
        if files[name].mode.Some? then files[name].mode else DefaultMode(v.source), m.readOnly)
  }

  /** A file of some projected volume that some mount of the pod shows at the path. */
  ghost predicate PodShows(pod: PodSpec, c: Inputs, path: string, file: ShownFile) {
    exists v, m :: v in pod.volumes && m in pod.mounts && m.name == v.name && ShownBy(v, m, c, path, file)
  }

  // ---- what a spec declares ----------------------------------------------------------------------------

  /** The bytes a config source stands for. */
  function ConfigContent(source: ConfigSource, c: Inputs): Option<Bytes> {
    if source.raw != [] then Some(source.raw)
    else if source.configMapRef.Some? then
      var ref := source.configMapRef.value;
      if ref.name in c.configMaps then Lookup(ConfigMapFiles(c.configMaps[ref.name]), ref.key) else None
    else if source.secretRef.Some? then
      var ref := source.secretRef.value;
      if ref.name in c.secrets then Lookup(c.secrets[ref.name].data, ref.key) else None
    else None
  }

  predicate ConfigDeclares(source: ConfigSource, at: string, c: Inputs, path: string, file: ShownFile) {
    path == at && ConfigContent(source, c).Some? && file == ShownFile(ConfigContent(source, c).value, None, true)
  }

  ghost predicate SecretDeclares(name: string, c: Inputs, path: string, file: ShownFile) {
    name in c.secrets && exists key ::
      key in c.secrets[name].data && path == "/var/run/hermes/secrets/" + name + "/" + key
        && file == ShownFile(c.secrets[name].data[key], None, true)
  }

  /** The files of the object a mount names. */
  function MountValues(mount: FileMount, c: Inputs): map<string, Bytes> {
    if mount.configMapRef.Some? then
      if mount.configMapRef.value in c.configMaps then ConfigMapFiles(c.configMaps[mount.configMapRef.value]) else map[]
    else if mount.secretRef.Some? && mount.secretRef.value in c.secrets then c.secrets[mount.secretRef.value].data
    else map[]
  }

  /** All files of the object, or the items under their own paths and modes. */
  ghost predicate MountDeclares(mount: FileMount, c: Inputs, path: string, file: ShownFile) {
    var values := MountValues(mount, c);
    if mount.items == [] then
      exists key :: key in values && path == mount.mountPath + "/" + key
        && file == ShownFile(values[key], mount.defaultMode, true)
    else
      exists item | item in mount.items ::
        && item.key in values && path == mount.mountPath + "/" + item.path
        && file == ShownFile(values[item.key], if item.mode.Some? then item.mode else mount.defaultMode, true)
  }

  ghost predicate Declares(spec: AgentSpec, c: Inputs, path: string, file: ShownFile) {
    || ConfigDeclares(spec.config, "/data/hermes/config.yaml", c, path, file)
    || ConfigDeclares(spec.gatewayConfig, "/data/hermes/gateway.json", c, path, file)
    || (exists i :: 0 <= i < |spec.secretRefs| && SecretDeclares(spec.secretRefs[i], c, path, file))
    || (exists i :: 0 <= i < |spec.fileMounts| && MountDeclares(spec.fileMounts[i], c, path, file))
  }

  // ---- pairing volumes with mounts ---------------------------------------------------------------------

  ghost predicate Shown(volumes: seq<Volume>, mounts: seq<VolumeMount>, c: Inputs, path: string, file: ShownFile)
    requires |volumes| == |mounts|
  {
    exists k :: 0 <= k < |volumes| && ShownBy(volumes[k], mounts[k], c, path, file)
  }

  lemma JoinShown(a: seq<Volume>, am: seq<VolumeMount>, b: seq<Volume>, bm: seq<VolumeMount>, c: Inputs, path: string,
        file: ShownFile)
    requires |a| == |am| && |b| == |bm|
    ensures Shown(a + b, am + bm, c, path, file) <==> Shown(a, am, c, path, file) || Shown(b, bm, c, path, file)
  {
    hide ShownBy;
    var v, m := a + b, am + bm;
    assert forall k :: 0 <= k < |a| ==> v[k] == a[k] && m[k] == am[k];
    forall k | 0 <= k < |b| ensures v[|a| + k] == b[k] && m[|a| + k] == bm[k] {}
    if k :| 0 <= k < |b| && ShownBy(b[k], bm[k], c, path, file) {
      assert ShownBy(v[|a| + k], m[|a| + k], c, path, file);
    }
    if k :| 0 <= k < |v| && ShownBy(v[k], m[k], c, path, file) {
      if k >= |a| { assert ShownBy(b[k - |a|], bm[k - |a|], c, path, file); }
    }
  }

  lemma OneShown(v: Volume, m: VolumeMount, c: Inputs, path: string, file: ShownFile)
    ensures Shown([v], [m], c, path, file) <==> ShownBy(v, m, c, path, file)
  {
    hide ShownBy;
    assert [v][0] == v && [m][0] == m;
  }

  lemma PairedShown(pod: PodSpec, c: Inputs, path: string, file: ShownFile)
    requires DistinctNames(pod.volumes) && Paired(pod.volumes, pod.mounts)
    ensures PodShows(pod, c, path, file) <==> Shown(pod.volumes, pod.mounts, c, path, file)
  {
    hide ShownBy;
    if v, m :| v in pod.volumes && m in pod.mounts && m.name == v.name && ShownBy(v, m, c, path, file) {
      var i :| 0 <= i < |pod.volumes| && pod.volumes[i] == v;
      var j :| 0 <= j < |pod.mounts| && pod.mounts[j] == m;
      assert pod.volumes[j].name == m.name;
      assert i == j;
    }
  }

  // ---- single volumes -----------------------------------------------------------------------------------

  lemma {:induction false} ProjectedFile(items: seq<KeyToPath>, values: map<string, Bytes>, name: string,
        file: MountedFile)
    requires DistinctPaths(items) && HasKeys(items, values)
    ensures Project(items, values).Files?
    ensures name in Project(items, values).files && Project(items, values).files[name] == file <==>
      exists i :: 0 <= i < |items| && items[i].path == name && file == MountedFile(values[items[i].key], items[i].mode)
  {
    if items != [] {
      var last := |items| - 1;
      var front := items[..last];
      assert forall i :: 0 <= i < last ==> front[i] == items[i];
      ProjectedFile(front, values, name, file);
      if items[last].path == name {
        forall i | 0 <= i < last ensures items[i].path != name {}
      }
    }
  }

  lemma ConfigFileShown(file: ConfigFile, c: Inputs, path: string, shown: ShownFile)
    requires file.fileName != "" && VolumeContents(ConfigFileSource(file), c) != Unavailable
    ensures var values := if file.secretName != "" then
          if file.secretName in c.secrets then c.secrets[file.secretName].data else map[]
        else if file.configMapName in c.configMaps then ConfigMapFiles(c.configMaps[file.configMapName]) else map[];
      ShownBy(Volume("hermes-" + file.id, ConfigFileSource(file)),
        VolumeMount("hermes-" + file.id, file.mountPath, file.fileName, true), c, path, shown) <==>
      path == file.mountPath && file.sourceKey in values && shown == ShownFile(values[file.sourceKey], None, true)
  {
    hide ConfigMapFiles;
    var items := [KeyToPath(file.sourceKey, file.fileName, None)];
    var values := if file.secretName != "" then
        if file.secretName in c.secrets then c.secrets[file.secretName].data else map[]
      else if file.configMapName in c.configMaps then ConfigMapFiles(c.configMaps[file.configMapName]) else map[];
    ProjectExact(items, values);
    assert items[0].key in values;
    var only := MountedFile(values[file.sourceKey], None);
    ProjectedFile(items, values, file.fileName, only);
    assert items[0].path == file.fileName;
  }

  lemma SecretShown(name: string, volume: string, c: Inputs, path: string, file: ShownFile)
    ensures ShownBy(Volume(volume, SecretVolume(name, [], None)),
      VolumeMount(volume, "/var/run/hermes/secrets/" + name, "", true), c, path, file)
      <==> SecretDeclares(name, c, path, file)
  {
  }

  lemma FileMountShown(mount: FileMount, volume: string, c: Inputs, path: string, file: ShownFile)
    requires ValidTarget(mount) && ValidItems(mount.items) && MountComplete(mount, c)
    ensures var m := VolumeMount(volume, mount.mountPath, "", true);
      ShownBy(Volume(volume, FileMountSource(mount).value), m, c, path, file) <==> MountDeclares(mount, c, path, file)
  {
    hide ConfigMapFiles;
    assert FileMountSource(mount).Some?;
    if mount.items != [] {
      ItemsShown(mount, volume, c, path, file);
    }
  }

  ghost predicate ProjectionShows(items: seq<KeyToPath>, values: map<string, Bytes>, at: string, mode: Option<int>,
        path: string, file: ShownFile)
    requires HasKeys(items, values)
  {
    exists i :: 0 <= i < |items| && path == at + "/" + items[i].path
      && file == ShownFile(values[items[i].key], if items[i].mode.Some? then items[i].mode else mode, true)
  }

  lemma ProjectionShown(source: VolumeSource, items: seq<KeyToPath>, values: map<string, Bytes>, volume: string,
        at: string, c: Inputs, path: string, file: ShownFile)
    requires VolumeContents(source, c) == Project(items, values) && DistinctPaths(items) && HasKeys(items, values)
    ensures ShownBy(Volume(volume, source), VolumeMount(volume, at, "", true), c, path, file) <==>
      ProjectionShows(items, values, at, DefaultMode(source), path, file)
  {
    hide VolumeContents, DefaultMode;
    if ShownBy(Volume(volume, source), VolumeMount(volume, at, "", true), c, path, file) {
      var files := VolumeContents(source, c).files;
      var name :| name in files && path == at + "/" + name && file == ShownFile(files[name].content,
        if files[name].mode.Some? then files[name].mode else DefaultMode(source), true);
      ProjectedFile(items, values, name, files[name]);
    }
    if ProjectionShows(items, values, at, DefaultMode(source), path, file) {
      var i :| 0 <= i < |items| && path == at + "/" + items[i].path && file == ShownFile(values[items[i].key],
        if items[i].mode.Some? then items[i].mode else DefaultMode(source), true);
      ProjectedFile(items, values, items[i].path, MountedFile(values[items[i].key], items[i].mode));
    }
  }

  lemma ItemsShown(mount: FileMount, volume: string, c: Inputs, path: string, file: ShownFile)
    requires ValidTarget(mount) && ValidItems(mount.items) && MountComplete(mount, c) && mount.items != []
    ensures var m := VolumeMount(volume, mount.mountPath, "", true);
      ShownBy(Volume(volume, FileMountSource(mount).value), m, c, path, file) <==> MountDeclares(mount, c, path, file)
  {
    ItemKeys(mount, c);
    ItemsProjected(mount, c);
    hide VolumeContents, FileMountSource, MountValues, DefaultMode, ValidTarget, ValidItems, MountComplete, Project,
      ShownBy, DistinctPaths;
    var items, values := ProjectionItems(mount.items), MountValues(mount, c);
    ProjectionShown(FileMountSource(mount).value, items, values, volume, mount.mountPath, c, path, file);
    forall i | 0 <= i < |items| ensures mount.items[i] in mount.items && items[i].key in values {}
  }

  lemma ItemsProjected(mount: FileMount, c: Inputs)
    requires ValidTarget(mount) && ValidItems(mount.items) && MountComplete(mount, c) && mount.items != []
    ensures FileMountSource(mount).Some?
    ensures VolumeContents(FileMountSource(mount).value, c) ==
      Project(ProjectionItems(mount.items), MountValues(mount, c))
    ensures DefaultMode(FileMountSource(mount).value) == mount.defaultMode
  {
    hide ConfigMapFiles;
    ItemKeys(mount, c);
  }

  lemma ItemKeys(mount: FileMount, c: Inputs)
    requires ValidTarget(mount) && ValidItems(mount.items) && MountComplete(mount, c)
    ensures DistinctPaths(ProjectionItems(mount.items)) && HasKeys(ProjectionItems(mount.items), MountValues(mount, c))
    ensures if mount.configMapRef.Some? then mount.configMapRef.value in c.configMaps
      else mount.secretRef.Some? && mount.secretRef.value in c.secrets
  {
    var items := ProjectionItems(mount.items);
    forall i | 0 <= i < |items| ensures items[i].key in MountValues(mount, c) {
      assert mount.items[i] in mount.items;
    }
  }

  // ---- the families of volumes ------------------------------------------------------------------------

  ghost predicate SecretsDeclare(names: seq<string>, c: Inputs, path: string, file: ShownFile) {
    exists i :: 0 <= i < |names| && SecretDeclares(names[i], c, path, file)
  }

  ghost predicate MountsDeclare(mounts: seq<FileMount>, c: Inputs, path: string, file: ShownFile) {
    exists i :: 0 <= i < |mounts| && MountDeclares(mounts[i], c, path, file)
  }

  lemma {:induction false} SecretsShown(names: seq<string>, c: Inputs, path: string, file: ShownFile)
    requires "" !in names
    ensures |SecretVolumes(names)| == |SecretMounts(names)|
    ensures Shown(SecretVolumes(names), SecretMounts(names), c, path, file) <==> SecretsDeclare(names, c, path, file)
  {
    if names != [] {
      var last := |names| - 1;
      var front := names[..last];
      var v := Volume(SecretRefVolumeName(last), SecretVolume(names[last], [], None));
      var m := VolumeMount(SecretRefVolumeName(last), "/var/run/hermes/secrets/" + names[last], "", true);
      assert names[last] != "" && SecretVolumes(names) == SecretVolumes(front) + [v]
        && SecretMounts(names) == SecretMounts(front) + [m];
      hide SecretVolumes, SecretMounts, SecretDeclares, ShownBy, Shown;
      SecretsShown(front, c, path, file);
      JoinShown(SecretVolumes(front), SecretMounts(front), [v], [m], c, path, file);
      OneShown(v, m, c, path, file);
      SecretShown(names[last], SecretRefVolumeName(last), c, path, file);
      hide SecretsDeclare;
      LastSecretDeclares(names, c, path, file);
    }
  }

  lemma LastSecretDeclares(names: seq<string>, c: Inputs, path: string, file: ShownFile)
    requires names != []
    ensures SecretsDeclare(names, c, path, file) <==>
      SecretsDeclare(names[..|names| - 1], c, path, file) || SecretDeclares(names[|names| - 1], c, path, file)
  {
    hide SecretDeclares;
    var front := names[..|names| - 1];
    assert forall i :: 0 <= i < |front| ==> front[i] == names[i];
  }

  lemma LastMountDeclares(mounts: seq<FileMount>, c: Inputs, path: string, file: ShownFile)
    requires mounts != []
    ensures MountsDeclare(mounts, c, path, file) <==>
      MountsDeclare(mounts[..|mounts| - 1], c, path, file) || MountDeclares(mounts[|mounts| - 1], c, path, file)
  {
    hide MountDeclares;
    var front := mounts[..|mounts| - 1];
    assert forall i :: 0 <= i < |front| ==> front[i] == mounts[i];
  }

  lemma LastMounted(mounts: seq<FileMount>)
    requires ValidMounts(mounts) && mounts != []
    ensures var last := |mounts| - 1;
      && ValidTarget(mounts[last]) && ValidItems(mounts[last].items) && FileMountSource(mounts[last]).Some?
      && FileVolumes(mounts) ==
        FileVolumes(mounts[..last]) + [Volume(FileMountVolumeName(last), FileMountSource(mounts[last]).value)]
      && FileVolumeMounts(mounts) == FileVolumeMounts(mounts[..last])
        + [VolumeMount(FileMountVolumeName(last), mounts[last].mountPath, "", true)]
  {
    hide ValidItems, ProjectionItems;
    assert ValidTarget(mounts[|mounts| - 1]);
  }

  lemma FrontMounts(mounts: seq<FileMount>)
    requires ValidMounts(mounts) && mounts != []
    ensures ValidMounts(mounts[..|mounts| - 1])
  {
    hide ValidItems, ValidTarget;
    var front := mounts[..|mounts| - 1];
    assert forall i :: 0 <= i < |front| ==> front[i] == mounts[i];
  }

  lemma {:induction false} MountsShown(mounts: seq<FileMount>, c: Inputs, path: string, file: ShownFile)
    requires ValidMounts(mounts) && forall i :: 0 <= i < |mounts| ==> MountComplete(mounts[i], c)
    ensures |FileVolumes(mounts)| == |FileVolumeMounts(mounts)|
    ensures Shown(FileVolumes(mounts), FileVolumeMounts(mounts), c, path, file) <==>
      MountsDeclare(mounts, c, path, file)
  {
    hide MountDeclares, MountsDeclare, ShownBy, FileMountSource, ValidMounts, ValidItems, ValidTarget, MountComplete;
    if mounts != [] {
      var last := |mounts| - 1;
      var front := mounts[..last];
      LastMounted(mounts);
      FrontMounts(mounts);
      hide FileVolumes, FileVolumeMounts, Shown;
      var v := Volume(FileMountVolumeName(last), FileMountSource(mounts[last]).value);
      var m := VolumeMount(FileMountVolumeName(last), mounts[last].mountPath, "", true);
      MountsShown(front, c, path, file);
      JoinShown(FileVolumes(front), FileVolumeMounts(front), [v], [m], c, path, file);
      OneShown(v, m, c, path, file);
      FileMountShown(mounts[last], FileMountVolumeName(last), c, path, file);
      LastMountDeclares(mounts, c, path, file);
    } else {
      assert !MountsDeclare(mounts, c, path, file) by { NothingDeclared(c, path, file); }
    }
  }

  lemma NothingDeclared(c: Inputs, path: string, file: ShownFile)
    ensures !MountsDeclare([], c, path, file)
  {
  }

  lemma SourceShown(agent: string, id: string, name: string, source: ConfigSource, c: Inputs, path: string,
        file: ShownFile)
    requires ValidSource(source) && SourceComplete(source, c) && name != ""
    requires GeneratedInPlace(FilesOf(ResolveConfigFile(agent, id, name, source)), c)
    ensures var files := FilesOf(ResolveConfigFile(agent, id, name, source));
      && |ConfigVolumes(files)| == |ConfigMounts(files)|
      && (Shown(ConfigVolumes(files), ConfigMounts(files), c, path, file) <==>
          ConfigDeclares(source, HOME + "/" + name, c, path, file))
  {
    hide ShownBy, GeneratedConfigMapName, VolumeContents;
    var files := FilesOf(ResolveConfigFile(agent, id, name, source));
    if files != [] {
      var f := files[0];
      assert ConfigVolumes(files) == [ConfigVolumes(files)[0]] && ConfigMounts(files) == [ConfigMounts(files)[0]];
      OneShown(ConfigVolumes(files)[0], ConfigMounts(files)[0], c, path, file);
      SourceAvailable(agent, id, name, source, c);
      ConfigFileShown(f, c, path, file);
    }
  }

  lemma SourceAvailable(agent: string, id: string, name: string, source: ConfigSource, c: Inputs)
    requires ValidSource(source) && SourceComplete(source, c)
    requires ResolveConfigFile(agent, id, name, source).File?
    requires GeneratedInPlace(FilesOf(ResolveConfigFile(agent, id, name, source)), c)
    ensures var f := ResolveConfigFile(agent, id, name, source).file;
      VolumeContents(ConfigFileSource(f), c) != Unavailable
  {
    hide GeneratedConfigMapName;
    var f := ResolveConfigFile(agent, id, name, source).file;
    var items := [KeyToPath(f.sourceKey, f.fileName, None)];
    if f.secretName != "" {
      ProjectAvailable(items, c.secrets[f.secretName].data);
    } else {
      if f.generated { assert FilesOf(ResolveConfigFile(agent, id, name, source))[0].generated; }
      ProjectAvailable(items, ConfigMapFiles(c.configMaps[f.configMapName]));
    }
  }

  lemma ConfigsShown(agent: string, spec: AgentSpec, c: Inputs, path: string, file: ShownFile)
    requires ValidConfig(spec) && SourceComplete(spec.config, c) && SourceComplete(spec.gatewayConfig, c)
    requires GeneratedInPlace(PlanFiles(agent, spec), c)
    ensures var files := PlanFiles(agent, spec);
      && |ConfigVolumes(files)| == |ConfigMounts(files)|
      && (Shown(ConfigVolumes(files), ConfigMounts(files), c, path, file) <==>
        ConfigDeclares(spec.config, "/data/hermes/config.yaml", c, path, file)
        || ConfigDeclares(spec.gatewayConfig, "/data/hermes/gateway.json", c, path, file))
  {
    var a := FilesOf(ResolveConfigFile(agent, CONFIG_ID, "config.yaml", spec.config));
    var b := FilesOf(ResolveConfigFile(agent, GATEWAY_ID, "gateway.json", spec.gatewayConfig));
    ConfigFilePaths();
    hide ShownBy, ResolveConfigFile, FilesOf, ConfigDeclares, Shown, SourceComplete, ValidMounts, ConfigFileSource;
    assert PlanFiles(agent, spec) == a + b;
    forall i | 0 <= i < |a| && a[i].generated ensures GeneratedInPlace([a[i]], c) { assert (a + b)[i] == a[i]; }
    forall i | 0 <= i < |b| && b[i].generated ensures GeneratedInPlace([b[i]], c) { assert (a + b)[|a| + i] == b[i]; }
    assert GeneratedInPlace(a, c) && GeneratedInPlace(b, c) by {
      forall i | 0 <= i < |a| && a[i].generated ensures GeneratedInPlace([a[i]], c) && [a[i]][0] == a[i] {}
      forall i | 0 <= i < |b| && b[i].generated ensures GeneratedInPlace([b[i]], c) && [b[i]][0] == b[i] {}
    }
    SourceShown(agent, CONFIG_ID, "config.yaml", spec.config, c, path, file);
    SourceShown(agent, GATEWAY_ID, "gateway.json", spec.gatewayConfig, c, path, file);
    assert ConfigVolumes(a + b) == ConfigVolumes(a) + ConfigVolumes(b)
      && ConfigMounts(a + b) == ConfigMounts(a) + ConfigMounts(b);
    JoinShown(ConfigVolumes(a), ConfigMounts(a), ConfigVolumes(b), ConfigMounts(b), c, path, file);
  }

  lemma ConfigFilePaths()
    ensures HOME + "/" + "config.yaml" == "/data/hermes/config.yaml"
    ensures HOME + "/" + "gateway.json" == "/data/hermes/gateway.json"
  {
  }

  lemma FixedShown(agent: string, spec: AgentSpec, c: Inputs, path: string, file: ShownFile)
    ensures !Shown(FixedVolumes(agent, spec), FIXED_MOUNTS, c, path, file)
  {
    hide ClaimName;
  }

  /** For every fully named spec with its inputs complete and its generated files in place, the container sees exactly
      the declared files: config and gateway config, every key of every secret reference, and the selected keys of
      every file mount under their paths and modes; all of them read-only. */
  lemma FilesExact(agent: string, spec: AgentSpec, hash: string, c: Inputs, path: string, file: ShownFile)
    requires FullyNamed(spec) && InputsComplete(spec, c) && GeneratedInPlace(PlanFiles(agent, spec), c)
    ensures PodShows(BuildStatefulSet(agent, spec,
      BuildTemplateInputs(spec, Plan(PlanFiles(agent, spec), hash))).template.pod, c, path, file)
      <==> Declares(spec, c, path, file)
  {
    var files := PlanFiles(agent, spec);
    var pod := BuildStatefulSet(agent, spec, BuildTemplateInputs(spec, Plan(files, hash))).template.pod;
    VolumeWiring(agent, spec, hash);
    PodVolumes(agent, spec, hash);
    PodMounts(agent, spec, hash);
    hide BuildStatefulSet, BuildTemplateInputs, PlanFiles, DistinctNames, Paired, SecretVolumes, SecretMounts,
      FileVolumes, FileVolumeMounts, ConfigVolumes, ConfigMounts, Shown, PodShows, ConfigDeclares, SecretDeclares,
      MountDeclares, ValidMounts, ValidSource, SourceComplete, MountComplete, FixedVolumes, GeneratedInPlace;
    assert |pod.volumes| == |pod.mounts| by { PairedLengths(pod); }
    PairedShown(pod, c, path, file);
    ConfigsShown(agent, spec, c, path, file);
    SecretsShown(spec.secretRefs, c, path, file);
    MountsShown(spec.fileMounts, c, path, file);
    FixedShown(agent, spec, c, path, file);
    FixedLengths(agent, spec);
    var cv, cm := ConfigVolumes(files), ConfigMounts(files);
    var sv, sm := SecretVolumes(spec.secretRefs), SecretMounts(spec.secretRefs);
    var fv, fm := FileVolumes(spec.fileMounts), FileVolumeMounts(spec.fileMounts);
    JoinShown(cv, cm, sv, sm, c, path, file);
    JoinShown(cv + sv, cm + sm, fv, fm, c, path, file);
    JoinShown(cv + sv + fv, cm + sm + fm, FixedVolumes(agent, spec), FIXED_MOUNTS, c, path, file);
  }

  lemma PairedLengths(pod: PodSpec)
    requires Paired(pod.volumes, pod.mounts)
    ensures |pod.volumes| == |pod.mounts|
  {
  }

  lemma FixedLengths(agent: string, spec: AgentSpec)
    ensures |FixedVolumes(agent, spec)| == |FIXED_MOUNTS|
  {
    hide ClaimName;
  }

  // ---- what the container can write ----------------------------------------------------------------------

  /** A mount at the path lets the container write to the source. */
  ghost predicate PodWrites(pod: PodSpec, path: string, source: VolumeSource) {
    exists v, m :: v in pod.volumes && m in pod.mounts && m.name == v.name && v.source == source && m.mountPath == path
      && !m.readOnly
  }

  ghost predicate AllReadOnly(mounts: seq<VolumeMount>) {
    forall m :: m in mounts ==> m.readOnly
  }

  lemma {:induction false} SecretsReadOnly(names: seq<string>)
    ensures AllReadOnly(SecretMounts(names))
  {
    if names != [] { SecretsReadOnly(names[..|names| - 1]); }
  }

  lemma {:induction false} MountsReadOnly(mounts: seq<FileMount>)
    ensures AllReadOnly(FileVolumeMounts(mounts))
  {
    if mounts != [] { MountsReadOnly(mounts[..|mounts| - 1]); }
  }

  /** The container writes to its home, on the claim exactly unless persistence is switched off, and to its temporary
      directory, and nowhere else. */
  lemma WritesExact(agent: string, spec: AgentSpec, hash: string, path: string, source: VolumeSource)
    ensures PodWrites(BuildStatefulSet(agent, spec,
      BuildTemplateInputs(spec, Plan(PlanFiles(agent, spec), hash))).template.pod, path, source)
      <==>
      || (path == "/tmp" && source == EmptyDir)
      || (path == "/data/hermes"
          && source == if spec.persistence.enabled == Some(false) then EmptyDir else ClaimVolume(agent + "-data"))
  {
    var files := PlanFiles(agent, spec);
    var pod := BuildStatefulSet(agent, spec, BuildTemplateInputs(spec, Plan(files, hash))).template.pod;
    VolumeWiring(agent, spec, hash);
    PodVolumes(agent, spec, hash);
    PodMounts(agent, spec, hash);
    SecretsReadOnly(spec.secretRefs);
    MountsReadOnly(spec.fileMounts);
    var inputs := ConfigMounts(files) + SecretMounts(spec.secretRefs) + FileVolumeMounts(spec.fileMounts);
    assert AllReadOnly(inputs);
    hide BuildStatefulSet, BuildTemplateInputs, PlanFiles, SecretVolumes, SecretMounts, FileVolumes, FileVolumeMounts,
      ConfigVolumes, ConfigMounts;
    LastWritable(agent, spec, pod, inputs, path, source);
  }

  lemma LastWritable(agent: string, spec: AgentSpec, pod: PodSpec, inputs: seq<VolumeMount>, path: string,
        source: VolumeSource)
    requires DistinctNames(pod.volumes) && Paired(pod.volumes, pod.mounts)
    requires AllReadOnly(inputs) && pod.mounts == inputs + FIXED_MOUNTS
    requires |pod.volumes| >= 2 && pod.volumes[|pod.volumes| - 2..] == FixedVolumes(agent, spec)
    ensures PodWrites(pod, path, source)
      <==>
      || (path == "/tmp" && source == EmptyDir)
      || (path == "/data/hermes"
          && source == if spec.persistence.enabled == Some(false) then EmptyDir else ClaimVolume(agent + "-data"))
  {
    var n := |pod.volumes|;
    assert |FIXED_MOUNTS| == 2 && forall m :: m in FIXED_MOUNTS ==> !m.readOnly;
    assert FIXED_MOUNTS[0].mountPath == "/data/hermes" && FIXED_MOUNTS[1].mountPath == "/tmp";
    assert FixedVolumes(agent, spec)[0].source ==
      if spec.persistence.enabled == Some(false) then EmptyDir else ClaimVolume(agent + "-data");
    assert FixedVolumes(agent, spec)[1].source == EmptyDir;
    hide FixedVolumes, DistinctNames, Paired, AllReadOnly, PodWrites, FIXED_MOUNTS;
    LastTwoWritable(pod, inputs, FIXED_MOUNTS, path, source);
    assert pod.volumes[n - 2] == FixedVolumes(agent, spec)[0] && pod.volumes[n - 1] == FixedVolumes(agent, spec)[1];
  }

  lemma LastTwoWritable(pod: PodSpec, inputs: seq<VolumeMount>, last: seq<VolumeMount>, path: string,
        source: VolumeSource)
    requires DistinctNames(pod.volumes) && Paired(pod.volumes, pod.mounts) && |last| == 2 && |pod.volumes| >= 2
    requires AllReadOnly(inputs) && pod.mounts == inputs + last && forall m :: m in last ==> !m.readOnly
    ensures var n := |pod.volumes|;
      PodWrites(pod, path, source) <==>
        (path == last[0].mountPath && source == pod.volumes[n - 2].source)
        || (path == last[1].mountPath && source == pod.volumes[n - 1].source)
  {
    var n := |pod.volumes|;
    PairedWrites(pod, path, source);
    hide PodWrites, DistinctNames, Paired;
    forall k | 0 <= k < n ensures !pod.mounts[k].readOnly <==> k >= n - 2 {
      if k < n - 2 {
        assert pod.mounts[k] == inputs[k];
      } else {
        assert pod.mounts[k] == last[k - n + 2];
      }
    }
    assert pod.mounts[n - 2] == last[0] && pod.mounts[n - 1] == last[1];
  }

  lemma PairedWrites(pod: PodSpec, path: string, source: VolumeSource)
    requires DistinctNames(pod.volumes) && Paired(pod.volumes, pod.mounts)
    ensures |pod.mounts| == |pod.volumes|
    ensures PodWrites(pod, path, source) <==>
      exists k :: 0 <= k < |pod.volumes| && pod.volumes[k].source == source && pod.mounts[k].mountPath == path
        && !pod.mounts[k].readOnly
  {
    if PodWrites(pod, path, source) {
      var v, m :| v in pod.volumes && m in pod.mounts && m.name == v.name && v.source == source && m.mountPath == path
        && !m.readOnly;
      var i :| 0 <= i < |pod.volumes| && pod.volumes[i] == v;
      var j :| 0 <= j < |pod.mounts| && pod.mounts[j] == m;
      assert pod.volumes[j].name == m.name && i == j;
    }
  }
}
