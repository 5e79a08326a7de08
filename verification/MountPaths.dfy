/** When the mount paths of the generated pod are all different, which the API server insists on. */
module MountPaths {
  import opened Api
  import opened Validation
  import opened Admission
  import opened ConfigPlan
  import opened PodTemplate
  import Rollout

  ghost predicate DistinctPaths(mounts: seq<VolumeMount>) {
    forall i, j :: 0 <= i < j < |mounts| ==> mounts[i].mountPath != mounts[j].mountPath
  }

  function PathSet(mounts: seq<VolumeMount>): set<string> {
    set m | m in mounts :: m.mountPath
  }

  function SecretPath(name: string): string { "/var/run/hermes/secrets/" + name }

  /** No Secret is named twice. */
  ghost predicate NamedOnce(names: seq<string>) {
    forall i, j :: 0 <= i < j < |names| && names[i] != "" ==> names[i] != names[j]
  }

  function SecretPaths(names: seq<string>): set<string> {
    set n | n in names && n != "" :: SecretPath(n)
  }

  function ConfigPaths(spec: AgentSpec): set<string> {
    (if SourceCount(spec.config) > 0 then {"/data/hermes/config.yaml"} else {})
    + (if SourceCount(spec.gatewayConfig) > 0 then {"/data/hermes/gateway.json"} else {})
  }

  /** The paths the operator mounts itself. */
  function TakenPaths(spec: AgentSpec): set<string> {
    ConfigPaths(spec) + SecretPaths(spec.secretRefs) + {HOME, "/tmp"}
  }

  // ---- joining lists of mounts ------------------------------------------------------------------

  lemma JoinPaths(a: seq<VolumeMount>, b: seq<VolumeMount>)
    ensures PathSet(a + b) == PathSet(a) + PathSet(b)
    ensures DistinctPaths(a + b) <==> DistinctPaths(a) && DistinctPaths(b) && PathSet(a) !! PathSet(b)
  {
    var all := a + b;
    assert forall i :: 0 <= i < |a| ==> all[i] == a[i];
    forall j | 0 <= j < |b| ensures all[|a| + j] == b[j] {}
    if DistinctPaths(all) {
      forall i, j | 0 <= i < |a| && 0 <= j < |b| ensures a[i].mountPath != b[j].mountPath {
        assert all[i].mountPath != all[|a| + j].mountPath;
      }
      forall i, j | 0 <= i < j < |b| ensures b[i].mountPath != b[j].mountPath {
        assert all[|a| + i].mountPath != all[|a| + j].mountPath;
      }
    }
    if DistinctPaths(a) && DistinctPaths(b) && PathSet(a) !! PathSet(b) {
      forall i, j | 0 <= i < j < |all| ensures all[i].mountPath != all[j].mountPath {
        if i < |a| <= j { assert a[i].mountPath in PathSet(a) && b[j - |a|].mountPath in PathSet(b); }
      }
    }
  }

  lemma OnePath(m: VolumeMount)
    ensures PathSet([m]) == {m.mountPath} && DistinctPaths([m])
  {
    assert [m][0] == m;
  }

  // ---- the four families -----------------------------------------------------------------------------

  lemma SecretPathInjective(a: string, b: string)
    ensures SecretPath(a) == SecretPath(b) <==> a == b
  {
    assert a == SecretPath(a)[24..] && b == SecretPath(b)[24..];
  }

  lemma {:induction false} SecretFamily(names: seq<string>)
    ensures PathSet(SecretMounts(names)) == SecretPaths(names)
    ensures DistinctPaths(SecretMounts(names)) <==> NamedOnce(names)
  {
    if names != [] {
      var last := |names| - 1;
      var front := names[..last];
      SecretFamily(front);
      assert names == front + [names[last]];
      hide SecretMounts;
      if names[last] == "" {
        assert SecretMounts(names) == SecretMounts(front) by { LastSecret(names); }
      } else {
        var m := VolumeMount(SecretRefVolumeName(last), SecretPath(names[last]), "", true);
        assert SecretMounts(names) == SecretMounts(front) + [m] by { LastSecret(names); }
        JoinPaths(SecretMounts(front), [m]);
        OnePath(m);
        SecretRepeats(front, names[last]);
      }
    }
  }

  lemma LastSecret(names: seq<string>)
    requires names != []
    ensures var last := |names| - 1;
      SecretMounts(names) == SecretMounts(names[..last]) + (if names[last] == "" then []
        else [VolumeMount(SecretRefVolumeName(last), SecretPath(names[last]), "", true)])
  {
  }

  lemma SecretRepeats(front: seq<string>, name: string)
    requires name != ""
    ensures SecretPaths(front + [name]) == SecretPaths(front) + {SecretPath(name)}
    ensures SecretPath(name) in SecretPaths(front) <==> name in front
    ensures NamedOnce(front + [name]) <==> NamedOnce(front) && name !in front
  {
    forall n | n in front ensures SecretPath(n) == SecretPath(name) <==> n == name { SecretPathInjective(n, name); }
    var all := front + [name];
    assert forall i :: 0 <= i < |front| ==> all[i] == front[i];
    assert all[|front|] == name;
    if NamedOnce(all) {
      forall i, j | 0 <= i < j < |front| && front[i] != "" ensures front[i] != front[j] {
        assert all[i] != all[j];
      }
    }
  }

  /** Accepted file mounts all have a source and their own paths. */
  lemma {:induction false} FileFamily(mounts: seq<FileMount>)
    requires ValidMounts(mounts)
    ensures PathSet(FileVolumeMounts(mounts)) == set m | m in mounts :: m.mountPath
    ensures DistinctPaths(FileVolumeMounts(mounts))
  {
    if mounts != [] {
      var last := |mounts| - 1;
      var front := mounts[..last];
      FileFamily(front);
      assert mounts == front + [mounts[last]];
      assert ValidTarget(mounts[last]) && FileMountSource(mounts[last]).Some?;
      var m := VolumeMount(FileMountVolumeName(last), mounts[last].mountPath, "", true);
      assert FileVolumeMounts(mounts) == FileVolumeMounts(front) + [m];
      JoinPaths(FileVolumeMounts(front), [m]);
      OnePath(m);
      forall k | 0 <= k < last ensures front[k].mountPath != mounts[last].mountPath {
        assert front[k] == mounts[k];
      }
    }
  }

  lemma ConfigFamily(agent: string, spec: AgentSpec)
    requires ValidSource(spec.config) && ValidSource(spec.gatewayConfig)
    ensures PathSet(ConfigMounts(PlanFiles(agent, spec))) == ConfigPaths(spec)
    ensures DistinctPaths(ConfigMounts(PlanFiles(agent, spec)))
  {
    ConfigFileOf(agent, CONFIG_ID, "config.yaml", spec.config);
    ConfigFileOf(agent, GATEWAY_ID, "gateway.json", spec.gatewayConfig);
    var config := FilesOf(ResolveConfigFile(agent, CONFIG_ID, "config.yaml", spec.config));
    var gateway := FilesOf(ResolveConfigFile(agent, GATEWAY_ID, "gateway.json", spec.gatewayConfig));
    ConfigFileNames();
    hide ResolveConfigFile, FilesOf, PathSet, SourceCount, DistinctPaths;
    assert ConfigMounts(config + gateway) == ConfigMounts(config) + ConfigMounts(gateway);
    JoinPaths(ConfigMounts(config), ConfigMounts(gateway));
    hide ConfigMounts;
    OneConfigFile(config, HOME + "/" + "config.yaml");
    OneConfigFile(gateway, HOME + "/" + "gateway.json");
  }

  lemma ConfigFileOf(agent: string, id: string, fileName: string, source: ConfigSource)
    requires ValidSource(source)
    ensures var files := FilesOf(ResolveConfigFile(agent, id, fileName, source));
      && |files| == (if SourceCount(source) > 0 then 1 else 0)
      && (files != [] ==> files[0].mountPath == HOME + "/" + fileName)
  {
    hide GeneratedConfigMapName;
  }

  lemma ConfigFileNames()
    ensures HOME + "/" + "config.yaml" == "/data/hermes/config.yaml"
    ensures HOME + "/" + "gateway.json" == "/data/hermes/gateway.json"
    ensures "/data/hermes/config.yaml" != "/data/hermes/gateway.json"
  {
    assert |"/data/hermes/config.yaml"| != |"/data/hermes/gateway.json"|;
  }

  lemma OneConfigFile(files: seq<ConfigFile>, path: string)
    requires |files| <= 1 && (files != [] ==> files[0].mountPath == path)
    ensures PathSet(ConfigMounts(files)) == (if files == [] then {} else {path}) && DistinctPaths(ConfigMounts(files))
  {
    if files != [] {
      assert ConfigMounts(files) == [ConfigMounts(files)[0]];
      OnePath(ConfigMounts(files)[0]);
    }
  }

  lemma FixedFamily()
    ensures PathSet(FIXED_MOUNTS) == {HOME, "/tmp"} && DistinctPaths(FIXED_MOUNTS)
  {
    assert |HOME| != |"/tmp"|;
    JoinPaths([FIXED_MOUNTS[0]], [FIXED_MOUNTS[1]]);
    OnePath(FIXED_MOUNTS[0]);
    OnePath(FIXED_MOUNTS[1]);
    assert FIXED_MOUNTS == [FIXED_MOUNTS[0]] + [FIXED_MOUNTS[1]];
  }

  lemma SecretLetters(names: seq<string>)
    ensures forall p :: p in SecretPaths(names) ==> |p| > 1 && p[1] == 'v'
  {
  }

  lemma ConfigLetters(spec: AgentSpec)
    ensures forall p :: p in ConfigPaths(spec) ==> |p| > 12 && p[1] == 'd'
  {
    hide SourceCount;
    var a, b := "/data/hermes/config.yaml", "/data/hermes/gateway.json";
    assert |a| > 12 && |b| > 12 && a[1] == 'd' && b[1] == 'd';
  }

  /** The operator's own families never meet. */
  lemma FamiliesApart(spec: AgentSpec)
    ensures ConfigPaths(spec) !! SecretPaths(spec.secretRefs)
    ensures ConfigPaths(spec) !! {HOME, "/tmp"} && SecretPaths(spec.secretRefs) !! {HOME, "/tmp"}
  {
    hide SecretPaths, ConfigPaths;
    SecretLetters(spec.secretRefs);
    ConfigLetters(spec);
    assert HOME[1] == 'd' && "/tmp"[1] == 't' && |HOME| == 12;
  }

  // ---- the pod -------------------------------------------------------------------------------------------

  /** The file mounts keep off the paths the operator uses itself. */
  ghost predicate KeepsOff(mounts: seq<FileMount>, taken: set<string>) {
    forall i :: 0 <= i < |mounts| ==> mounts[i].mountPath !in taken
  }

  lemma KeepsOffExact(mounts: seq<FileMount>, taken: set<string>)
    ensures KeepsOff(mounts, taken) <==> taken !! (set m | m in mounts :: m.mountPath)
  {
    if taken !! (set m | m in mounts :: m.mountPath) {
      forall i | 0 <= i < |mounts| ensures mounts[i].mountPath !in taken {
        assert mounts[i] in mounts && mounts[i].mountPath in (set m | m in mounts :: m.mountPath);
      }
    }
  }

  /** For every accepted configuration the mount paths of the generated pod are distinct exactly if no Secret is
      referenced twice and no file mount uses a path of the operator's own. */
  lemma MountPathsDistinct(agent: string, spec: AgentSpec, hash: string)
    requires ValidConfig(spec)
    ensures DistinctPaths(BuildStatefulSet(agent, spec, BuildTemplateInputs(spec,
      Plan(PlanFiles(agent, spec), hash))).template.pod.mounts)
      <==> NamedOnce(spec.secretRefs) && KeepsOff(spec.fileMounts, TakenPaths(spec))
  {
    ConfigFamily(agent, spec);
    SecretFamily(spec.secretRefs);
    FileFamily(spec.fileMounts);
    FixedFamily();
    FamiliesApart(spec);
    Rollout.PodMounts(agent, spec, hash);
    KeepsOffExact(spec.fileMounts, TakenPaths(spec));
    hide BuildStatefulSet, BuildTemplateInputs, PlanFiles, ConfigMounts, SecretMounts, FileVolumeMounts, ValidMounts,
      ValidSource, NamedOnce, KeepsOff, DistinctPaths, PathSet, ConfigPaths, SecretPaths;
    var c, s, f := ConfigMounts(PlanFiles(agent, spec)), SecretMounts(spec.secretRefs),
      FileVolumeMounts(spec.fileMounts);
    JoinPaths(c, s);
    JoinPaths(c + s, f);
    JoinPaths(c + s + f, FIXED_MOUNTS);
  }

  /** The webhook does not see it: with one Secret referenced twice every admitted spec stays admitted. */
  lemma RepeatedSecretAdmitted(p: Parsers, agent: string, spec: AgentSpec, name: string, hash: string)
    requires Admitted(p, spec) && name != ""
    ensures var twice := spec.(secretRefs := [name, name]);
      && Admitted(p, twice)
      && !DistinctPaths(BuildStatefulSet(agent, twice, BuildTemplateInputs(twice,
        Plan(PlanFiles(agent, twice), hash))).template.pod.mounts)
  {
    var twice := spec.(secretRefs := [name, name]);
    hide BuildStatefulSet, BuildTemplateInputs, PlanFiles, DistinctPaths, KeepsOff, TakenPaths;
    MountPathsDistinct(agent, twice, hash);
    assert twice.secretRefs[0] == twice.secretRefs[1];
  }
}
