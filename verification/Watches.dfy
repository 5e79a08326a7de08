/** Collecting the referenced inputs, and why the watches see every object that was read. */
module Watches {
  import opened Prelude
  import opened Api
  import opened Validation
  import opened References

  datatype ObjectKey = ObjectKey(kind: Kind, name: string)

  // ---- which Gets one reference causes ------------------------------------------------------

  predicate SelectorReads(configMap: Option<KeySelector>, secret: Option<KeySelector>, key: ObjectKey) {
    key.name != "" && Selects(if key.kind.ConfigMapKind? then configMap else secret, key.name)
  }

  predicate ConfigFileReads(source: ConfigSource, key: ObjectKey) {
    SelectorReads(source.configMapRef, source.secretRef, key)
  }

  predicate EnvValueReads(env: EnvVar, key: ObjectKey) {
    env.valueFrom.Some? && SelectorReads(env.valueFrom.value.configMapKeyRef, env.valueFrom.value.secretKeyRef, key)
  }

  predicate EnvFromReads(source: EnvFromSource, key: ObjectKey) {
    key.name != "" && Draws(if key.kind.ConfigMapKind? then source.configMapRef else source.secretRef, key.name)
  }

  predicate FileMountReads(mount: FileMount, key: ObjectKey) {
    if NamedRef(mount.configMapRef) then key == ObjectKey(ConfigMapKind, mount.configMapRef.value)
    else NamedRef(mount.secretRef) && key == ObjectKey(SecretKind, mount.secretRef.value)
  }

  predicate SecretRefReads(name: string, key: ObjectKey) {
    name != "" && key == ObjectKey(SecretKind, name)
  }

  ghost predicate Reads(spec: AgentSpec, key: ObjectKey) {
    || ConfigFileReads(spec.config, key)
    || ConfigFileReads(spec.gatewayConfig, key)
    || (exists i :: 0 <= i < |spec.fileMounts| && FileMountReads(spec.fileMounts[i], key))
    || (exists i :: 0 <= i < |spec.env| && EnvValueReads(spec.env[i], key))
    || (exists i :: 0 <= i < |spec.envFrom| && EnvFromReads(spec.envFrom[i], key))
    || (exists i :: 0 <= i < |spec.secretRefs| && SecretRefReads(spec.secretRefs[i], key))
  }

  /** The collector: snapshots grow through a shared record, and `gets` logs every read. */
  class InputCollector {
    const cluster: Inputs
    var inputs: ReferencedInputs
    var gets: set<ObjectKey>

    constructor (cluster: Inputs)
      ensures this.cluster == cluster && inputs == NO_INPUTS && gets == {}
    {
      this.cluster, inputs, gets := cluster, NO_INPUTS, {};
    }

    method GetConfigMap(name: string) returns (cm: Option<ConfigMap>)
      modifies this`gets
      ensures cm == Lookup(cluster.configMaps, name) && gets == old(gets) + {ObjectKey(ConfigMapKind, name)}
    {
      gets := gets + {ObjectKey(ConfigMapKind, name)};
      cm := Lookup(cluster.configMaps, name);
    }

    method GetSecret(name: string) returns (secret: Option<Secret>)
      modifies this`gets
      ensures secret == Lookup(cluster.secrets, name) && gets == old(gets) + {ObjectKey(SecretKind, name)}
    {
      gets := gets + {ObjectKey(SecretKind, name)};
      secret := Lookup(cluster.secrets, name);
    }

    method AddConfigFile(source: ConfigSource)
      modifies this
      ensures inputs == old(inputs).(fileRefs := old(inputs).fileRefs + ConfigFileSnapshots(source, cluster))
      ensures forall k :: k in gets <==> k in old(gets) || ConfigFileReads(source, k)
    {
      if Named(source.configMapRef) {
        var ref := source.configMapRef.value;
        var cm := GetConfigMap(ref.name);
        inputs := inputs.(fileRefs := inputs.fileRefs + [ConfigMapKeySnapshot(ref.name, ref.key, false, cm)]);
      }
      if Named(source.secretRef) {
        var ref := source.secretRef.value;
        var secret := GetSecret(ref.name);
        inputs := inputs.(fileRefs := inputs.fileRefs + [SecretKeySnapshot(ref.name, ref.key, false, secret)]);
      }
    }

    method AppendConfigFileSnapshots(sources: seq<ConfigSource>)
      modifies this
      ensures inputs == old(inputs).(fileRefs := old(inputs).fileRefs + FlatMap(OfConfigFile(cluster), sources))
      ensures forall k :: k in gets <==> k in old(gets) || exists i ::
        0 <= i < |sources| && ConfigFileReads(sources[i], k)
    {
      hide ConfigFileReads, ConfigFileSnapshots;
      var f := OfConfigFile(cluster);
      for i := 0 to |sources|
        invariant inputs == old(inputs).(fileRefs := old(inputs).fileRefs + FlatMap(f, sources[..i]))
        invariant forall k :: k in gets <==> k in old(gets) || exists j :: 0 <= j < i && ConfigFileReads(sources[j], k)
      {
        assert sources[..i + 1][..i] == sources[..i];
        AddConfigFile(sources[i]);
      }
      assert sources[..|sources|] == sources;
    }

    method AddFileMount(mount: FileMount)
      modifies this
      ensures inputs == old(inputs).(fileMountRefs := old(inputs).fileMountRefs + FileMountSnapshots(mount, cluster))
      ensures forall k :: k in gets <==> k in old(gets) || FileMountReads(mount, k)
    {
      if NamedRef(mount.configMapRef) {
        var cm := GetConfigMap(mount.configMapRef.value);
        var snapshot := NewConfigMapProjectionSnapshot(mount.configMapRef.value, mount.items, cm);
        inputs := inputs.(fileMountRefs := inputs.fileMountRefs + [snapshot]);
        return;
      }
      if NamedRef(mount.secretRef) {
        var secret := GetSecret(mount.secretRef.value);
        var snapshot := NewSecretProjectionSnapshot(mount.secretRef.value, mount.items, secret);
        inputs := inputs.(fileMountRefs := inputs.fileMountRefs + [snapshot]);
      }
    }

    method AppendFileMountSnapshots(mounts: seq<FileMount>)
      modifies this
      ensures inputs == old(inputs).(fileMountRefs := old(inputs).fileMountRefs + FlatMap(OfFileMount(cluster), mounts))
      ensures forall k :: k in gets <==> k in old(gets) || exists i :: 0 <= i < |mounts| && FileMountReads(mounts[i], k)
    {
      hide FileMountReads, FileMountSnapshots;
      var f := OfFileMount(cluster);
      for i := 0 to |mounts|
        invariant inputs == old(inputs).(fileMountRefs := old(inputs).fileMountRefs + FlatMap(f, mounts[..i]))
        invariant forall k :: k in gets <==> k in old(gets) || exists j :: 0 <= j < i && FileMountReads(mounts[j], k)
      {
        assert mounts[..i + 1][..i] == mounts[..i];
        AddFileMount(mounts[i]);
      }
      assert mounts[..|mounts|] == mounts;
    }

    method AddEnvValue(env: EnvVar)
      modifies this
      ensures inputs == old(inputs).(envValueRefs := old(inputs).envValueRefs + EnvValueSnapshots(env, cluster))
      ensures forall k :: k in gets <==> k in old(gets) || EnvValueReads(env, k)
    {
      if env.valueFrom.None? { return; }
      var from := env.valueFrom.value;
      if Named(from.configMapKeyRef) {
        var ref := from.configMapKeyRef.value;
        var cm := GetConfigMap(ref.name);
        inputs := inputs.(envValueRefs := inputs.envValueRefs
          + [ConfigMapKeySnapshot(ref.name, ref.key, OptionalValue(ref.optional), cm)]);
      }
      if Named(from.secretKeyRef) {
        var ref := from.secretKeyRef.value;
        var secret := GetSecret(ref.name);
        inputs := inputs.(envValueRefs := inputs.envValueRefs
          + [SecretKeySnapshot(ref.name, ref.key, OptionalValue(ref.optional), secret)]);
      }
    }

    method AppendEnvValueSnapshots(vars: seq<EnvVar>)
      modifies this
      ensures inputs == old(inputs).(envValueRefs := old(inputs).envValueRefs + FlatMap(OfEnvValue(cluster), vars))
      ensures forall k :: k in gets <==> k in old(gets) || exists i :: 0 <= i < |vars| && EnvValueReads(vars[i], k)
    {
      hide EnvValueReads, EnvValueSnapshots;
      var f := OfEnvValue(cluster);
      for i := 0 to |vars|
        invariant inputs == old(inputs).(envValueRefs := old(inputs).envValueRefs + FlatMap(f, vars[..i]))
        invariant forall k :: k in gets <==> k in old(gets) || exists j :: 0 <= j < i && EnvValueReads(vars[j], k)
      {
        assert vars[..i + 1][..i] == vars[..i];
        AddEnvValue(vars[i]);
      }
      assert vars[..|vars|] == vars;
    }

    method AddEnvFrom(source: EnvFromSource)
      modifies this
      ensures inputs == old(inputs).(envFrom := old(inputs).envFrom + EnvFromSnapshots(source, cluster))
      ensures forall k :: k in gets <==> k in old(gets) || EnvFromReads(source, k)
    {
      if NamedSource(source.configMapRef) {
        var ref := source.configMapRef.value;
        var cm := GetConfigMap(ref.name);
        inputs := inputs.(envFrom := inputs.envFrom + [ConfigMapSnapshot(ref.name, OptionalValue(ref.optional), cm)]);
      }
      if NamedSource(source.secretRef) {
        var ref := source.secretRef.value;
        var secret := GetSecret(ref.name);
        inputs := inputs.(envFrom := inputs.envFrom + [SecretSnapshot(ref.name, OptionalValue(ref.optional), secret)]);
      }
    }

    method AppendEnvFromSnapshots(sources: seq<EnvFromSource>)
      modifies this
      ensures inputs == old(inputs).(envFrom := old(inputs).envFrom + FlatMap(OfEnvFrom(cluster), sources))
      ensures forall k :: k in gets <==> k in old(gets) || exists i :: 0 <= i < |sources| && EnvFromReads(sources[i], k)
    {
      hide EnvFromReads, EnvFromSnapshots;
      var f := OfEnvFrom(cluster);
      for i := 0 to |sources|
        invariant inputs == old(inputs).(envFrom := old(inputs).envFrom + FlatMap(f, sources[..i]))
        invariant forall k :: k in gets <==> k in old(gets) || exists j :: 0 <= j < i && EnvFromReads(sources[j], k)
      {
        assert sources[..i + 1][..i] == sources[..i];
        AddEnvFrom(sources[i]);
      }
      assert sources[..|sources|] == sources;
    }

    method AddSecretRef(name: string)
      modifies this
      ensures inputs == old(inputs).(secretRefs := old(inputs).secretRefs + SecretRefSnapshots(name, cluster))
      ensures forall k :: k in gets <==> k in old(gets) || SecretRefReads(name, k)
    {
      if name == "" { return; }
      var secret := GetSecret(name);
      inputs := inputs.(secretRefs := inputs.secretRefs + [SecretSnapshot(name, false, secret)]);
    }

    method AppendSecretRefSnapshots(names: seq<string>)
      modifies this
      ensures inputs == old(inputs).(secretRefs := old(inputs).secretRefs + FlatMap(OfSecretRef(cluster), names))
      ensures forall k :: k in gets <==> k in old(gets) || exists i :: 0 <= i < |names| && SecretRefReads(names[i], k)
    {
      var f := OfSecretRef(cluster);
      for i := 0 to |names|
        invariant inputs == old(inputs).(secretRefs := old(inputs).secretRefs + FlatMap(f, names[..i]))
        invariant forall k :: k in gets <==> k in old(gets) || exists j :: 0 <= j < i && SecretRefReads(names[j], k)
      {
        assert names[..i + 1][..i] == names[..i];
        AddSecretRef(names[i]);
      }
      assert names[..|names|] == names;
    }

    /** resolveReferencedInputs: a snapshot of every reference, from the objects `Reads` describes. */
    method Collect(spec: AgentSpec)
      requires inputs == NO_INPUTS && gets == {}
      modifies this
      ensures inputs == Resolve(spec, cluster)
      ensures forall k :: k in gets <==> Reads(spec, k)
    {
      var sources := [spec.config, spec.gatewayConfig];
      AppendConfigFileSnapshots(sources);
      assert forall k :: k in gets <==> ConfigFileReads(sources[0], k) || ConfigFileReads(sources[1], k);
      AppendFileMountSnapshots(spec.fileMounts);
      AppendEnvValueSnapshots(spec.env);
      AppendEnvFromSnapshots(spec.envFrom);
      AppendSecretRefSnapshots(spec.secretRefs);
    }
  }

  // ---- the watches ------------------------------------------------------------------------------

  /** The ConfigMap watch fires for exactly the ConfigMaps that are read, for every spec. */
  lemma ConfigMapWatchExact(spec: AgentSpec, name: string)
    ensures Reads(spec, ObjectKey(ConfigMapKind, name)) <==> ReferencesConfigMap(spec, name)
  {
    var key := ObjectKey(ConfigMapKind, name);
    if ReferencesConfigMap(spec, name) {
      if i :|
        && 0 <= i < |spec.env| && spec.env[i].valueFrom.Some?
        && Selects(spec.env[i].valueFrom.value.configMapKeyRef, name) {
        assert EnvValueReads(spec.env[i], key);
      }
      if i :| 0 <= i < |spec.envFrom| && Draws(spec.envFrom[i].configMapRef, name) {
        assert EnvFromReads(spec.envFrom[i], key);
      }
      if i :| 0 <= i < |spec.fileMounts| && spec.fileMounts[i].configMapRef == Some(name) {
        assert FileMountReads(spec.fileMounts[i], key);
      }
    }
  }

  /** A file mount that names both a ConfigMap and a Secret: only the ConfigMap is read. */
  predicate NamesBoth(mount: FileMount) {
    NamedRef(mount.configMapRef) && NamedRef(mount.secretRef)
  }

  /** Every Secret that is read is watched, for every spec; a watched Secret that is not read is
      hidden behind the ConfigMap of a mount that names both, which no valid spec has. */
  lemma SecretWatchExact(spec: AgentSpec, name: string)
    ensures Reads(spec, ObjectKey(SecretKind, name)) ==> ReferencesSecret(spec, name)
    ensures ReferencesSecret(spec, name) && !Reads(spec, ObjectKey(SecretKind, name)) ==>
      exists i :: 0 <= i < |spec.fileMounts| && NamesBoth(spec.fileMounts[i])
        && spec.fileMounts[i].secretRef == Some(name)
    ensures ValidMounts(spec.fileMounts) ==> (Reads(spec, ObjectKey(SecretKind, name)) <==>
      ReferencesSecret(spec, name))
  {
    var key := ObjectKey(SecretKind, name);
    if ReferencesSecret(spec, name) {
      if i :|
        && 0 <= i < |spec.env| && spec.env[i].valueFrom.Some?
        && Selects(spec.env[i].valueFrom.value.secretKeyRef, name) {
        assert EnvValueReads(spec.env[i], key);
      }
      if i :| 0 <= i < |spec.envFrom| && Draws(spec.envFrom[i].secretRef, name) {
        assert EnvFromReads(spec.envFrom[i], key);
      }
      if i :| 0 <= i < |spec.secretRefs| && spec.secretRefs[i] == name {
        assert SecretRefReads(spec.secretRefs[i], key);
      }
      if i :| 0 <= i < |spec.fileMounts| && spec.fileMounts[i].secretRef == Some(name) {
        assert NamesBoth(spec.fileMounts[i]) || FileMountReads(spec.fileMounts[i], key);
      }
    }
  }
}
