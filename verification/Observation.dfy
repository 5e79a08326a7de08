/** What a spec observes of the objects it references: whole objects, or selected keys only.
    Nothing else can change the resolved inputs. */
module Observation {
  import opened Prelude
  import opened Api
  import opened References

  predicate SelectsKey(selector: Option<KeySelector>, name: string, key: string) {
    Selects(selector, name) && selector.value.key == key
  }

  predicate MountSelects(ref: Option<string>, items: seq<ProjectionItem>, name: string, key: string) {
    ref == Some(name) && key in SelectedKeys(items)
  }

  ghost predicate WholeConfigMap(spec: AgentSpec, name: string) {
    || (exists i :: 0 <= i < |spec.envFrom| && Draws(spec.envFrom[i].configMapRef, name))
    || (exists i ::
      0 <= i < |spec.fileMounts| && spec.fileMounts[i].configMapRef == Some(name) && spec.fileMounts[i].items == [])
  }

  ghost predicate WholeSecret(spec: AgentSpec, name: string) {
    || (exists i :: 0 <= i < |spec.envFrom| && Draws(spec.envFrom[i].secretRef, name))
    || name in spec.secretRefs
    || (exists i ::
      0 <= i < |spec.fileMounts| && spec.fileMounts[i].secretRef == Some(name) && spec.fileMounts[i].items == [])
  }

  ghost predicate ConfigMapKey(spec: AgentSpec, name: string, key: string) {
    || SelectsKey(spec.config.configMapRef, name, key)
    || SelectsKey(spec.gatewayConfig.configMapRef, name, key)
    || (exists i ::
      0 <= i < |spec.env| && spec.env[i].valueFrom.Some? && SelectsKey(spec.env[i].valueFrom.value.configMapKeyRef,
      name, key))
    || (exists i ::
      0 <= i < |spec.fileMounts| && MountSelects(spec.fileMounts[i].configMapRef, spec.fileMounts[i].items, name, key))
  }

  ghost predicate SecretKey(spec: AgentSpec, name: string, key: string) {
    || SelectsKey(spec.config.secretRef, name, key)
    || SelectsKey(spec.gatewayConfig.secretRef, name, key)
    || (exists i ::
      0 <= i < |spec.env| && spec.env[i].valueFrom.Some? && SelectsKey(spec.env[i].valueFrom.value.secretKeyRef, name,
      key))
    || (exists i ::
      0 <= i < |spec.fileMounts| && MountSelects(spec.fileMounts[i].secretRef, spec.fileMounts[i].items, name, key))
  }

  ghost predicate SameConfigMap(spec: AgentSpec, name: string, a: Option<ConfigMap>, b: Option<ConfigMap>) {
    && a.Some? == b.Some?
    && (a.Some? && b.Some? ==>
        && (WholeConfigMap(spec, name) ==> CopyConfigMapData(a.value) == CopyConfigMapData(b.value))
        && forall key | ConfigMapKey(spec, name, key) :: ConfigMapValue(a.value, key) == ConfigMapValue(b.value, key))
  }

  ghost predicate SameSecret(spec: AgentSpec, name: string, a: Option<Secret>, b: Option<Secret>) {
    && a.Some? == b.Some?
    && (a.Some? && b.Some? ==>
        && (WholeSecret(spec, name) ==> a.value.data == b.value.data)
        && forall key | SecretKey(spec, name, key) :: Lookup(a.value.data, key) == Lookup(b.value.data, key))
  }

  ghost predicate SameObserved(spec: AgentSpec, c: Inputs, d: Inputs) {
    && (forall name | ReferencesConfigMap(spec, name) ::
          SameConfigMap(spec, name, Lookup(c.configMaps, name), Lookup(d.configMaps, name)))
    && (forall name | ReferencesSecret(spec, name) ::
          SameSecret(spec, name, Lookup(c.secrets, name), Lookup(d.secrets, name)))
  }

  lemma {:induction false} SameMissing(items: seq<ProjectionItem>, a: set<string>, b: set<string>)
    requires forall k | k in SelectedKeys(items) :: k in a <==> k in b
    ensures MissingKeys(items, a) == MissingKeys(items, b)
  {
    if items != [] {
      assert items[|items| - 1].key in SelectedKeys(items);
      assert forall k | k in SelectedKeys(items[..|items| - 1]) :: k in SelectedKeys(items);
      SameMissing(items[..|items| - 1], a, b);
    }
  }

  lemma SameProjection(kind: Kind, name: string, items: seq<ProjectionItem>, a: map<string, Bytes>, b: map<string,
        Bytes>)
    requires forall k | k in SelectedKeys(items) :: Lookup(a, k) == Lookup(b, k)
    ensures ProjectionSnapshot(kind, name, items, a) == ProjectionSnapshot(kind, name, items, b)
  {
    SameMissing(items, a.Keys, b.Keys);
  }

  lemma SameMount(spec: AgentSpec, i: nat, c: Inputs, d: Inputs)
    requires i < |spec.fileMounts| && SameObserved(spec, c, d)
    ensures FileMountSnapshots(spec.fileMounts[i], c) == FileMountSnapshots(spec.fileMounts[i], d)
  {
    var mount := spec.fileMounts[i];
    if NamedRef(mount.configMapRef) {
      var name := mount.configMapRef.value;
      var a, b := Lookup(c.configMaps, name), Lookup(d.configMaps, name);
      assert ReferencesConfigMap(spec, name) && SameConfigMap(spec, name, a, b);
      if mount.items != [] && a.Some? {
        forall k | k in SelectedKeys(mount.items)
          ensures Lookup(ConfigMapValues(a.value), k) == Lookup(ConfigMapValues(b.value), k) {
          assert MountSelects(mount.configMapRef, mount.items, name, k);
          assert ConfigMapKey(spec, name, k);
        }
        SameProjection(ConfigMapKind, name, mount.items, ConfigMapValues(a.value), ConfigMapValues(b.value));
      }
    } else if NamedRef(mount.secretRef) {
      var name := mount.secretRef.value;
      var a, b := Lookup(c.secrets, name), Lookup(d.secrets, name);
      assert ReferencesSecret(spec, name) && SameSecret(spec, name, a, b);
      if mount.items != [] && a.Some? {
        forall k | k in SelectedKeys(mount.items)
          ensures Lookup(EncodeAll(a.value.data), k) == Lookup(EncodeAll(b.value.data), k) {
          assert MountSelects(mount.secretRef, mount.items, name, k);
          assert SecretKey(spec, name, k);
          assert Lookup(a.value.data, k) == Lookup(b.value.data, k);
        }
        SameProjection(SecretKind, name, mount.items, EncodeAll(a.value.data), EncodeAll(b.value.data));
      }
    }
  }

  lemma SameSource(spec: AgentSpec, source: ConfigSource, c: Inputs, d: Inputs)
    requires (source == spec.config || source == spec.gatewayConfig) && SameObserved(spec, c, d)
    ensures ConfigFileSnapshots(source, c) == ConfigFileSnapshots(source, d)
  {
    if Named(source.configMapRef) {
      var ref := source.configMapRef.value;
      assert ReferencesConfigMap(spec, ref.name) && ConfigMapKey(spec, ref.name, ref.key);
    }
    if Named(source.secretRef) {
      var ref := source.secretRef.value;
      assert ReferencesSecret(spec, ref.name) && SecretKey(spec, ref.name, ref.key);
    }
  }

  lemma SameEnvValue(spec: AgentSpec, i: nat, c: Inputs, d: Inputs)
    requires i < |spec.env| && SameObserved(spec, c, d)
    ensures EnvValueSnapshots(spec.env[i], c) == EnvValueSnapshots(spec.env[i], d)
  {
    if spec.env[i].valueFrom.Some? {
      var from := spec.env[i].valueFrom.value;
      if Named(from.configMapKeyRef) {
        var ref := from.configMapKeyRef.value;
        assert SelectsKey(from.configMapKeyRef, ref.name, ref.key);
        assert ReferencesConfigMap(spec, ref.name) && ConfigMapKey(spec, ref.name, ref.key);
      }
      if Named(from.secretKeyRef) {
        var ref := from.secretKeyRef.value;
        assert SelectsKey(from.secretKeyRef, ref.name, ref.key);
        assert ReferencesSecret(spec, ref.name) && SecretKey(spec, ref.name, ref.key);
      }
    }
  }

  lemma SameEnvFrom(spec: AgentSpec, i: nat, c: Inputs, d: Inputs)
    requires i < |spec.envFrom| && SameObserved(spec, c, d)
    ensures EnvFromSnapshots(spec.envFrom[i], c) == EnvFromSnapshots(spec.envFrom[i], d)
  {
    var source := spec.envFrom[i];
    if NamedSource(source.configMapRef) {
      var name := source.configMapRef.value.name;
      assert Draws(source.configMapRef, name);
      assert ReferencesConfigMap(spec, name) && WholeConfigMap(spec, name);
    }
    if NamedSource(source.secretRef) {
      var name := source.secretRef.value.name;
      assert Draws(source.secretRef, name);
      assert ReferencesSecret(spec, name) && WholeSecret(spec, name);
    }
  }

  /** Clusters that agree on everything observed resolve to the same inputs: a key that no item
      selects, in an object referenced only through items, cannot be seen. */
  lemma ObservedDeterminesInputs(spec: AgentSpec, c: Inputs, d: Inputs)
    requires SameObserved(spec, c, d)
    ensures Resolve(spec, c) == Resolve(spec, d)
  {
    var sources := [spec.config, spec.gatewayConfig];
    forall i | 0 <= i < 2 ensures OfConfigFile(c)(sources[i]) == OfConfigFile(d)(sources[i]) {
      SameSource(spec, sources[i], c, d);
    }
    FlatMapCongruent(OfConfigFile(c), OfConfigFile(d), sources);
    forall i | 0 <= i < |spec.fileMounts| ensures OfFileMount(c)(spec.fileMounts[i]) ==
      OfFileMount(d)(spec.fileMounts[i]) {
      SameMount(spec, i, c, d);
    }
    FlatMapCongruent(OfFileMount(c), OfFileMount(d), spec.fileMounts);
    forall i | 0 <= i < |spec.env| ensures OfEnvValue(c)(spec.env[i]) == OfEnvValue(d)(spec.env[i]) {
      SameEnvValue(spec, i, c, d);
    }
    FlatMapCongruent(OfEnvValue(c), OfEnvValue(d), spec.env);
    forall i | 0 <= i < |spec.envFrom| ensures OfEnvFrom(c)(spec.envFrom[i]) == OfEnvFrom(d)(spec.envFrom[i]) {
      SameEnvFrom(spec, i, c, d);
    }
    FlatMapCongruent(OfEnvFrom(c), OfEnvFrom(d), spec.envFrom);
    forall i | 0 <= i < |spec.secretRefs| ensures OfSecretRef(c)(spec.secretRefs[i]) ==
      OfSecretRef(d)(spec.secretRefs[i]) {
      if spec.secretRefs[i] != "" {
        assert ReferencesSecret(spec, spec.secretRefs[i]) && WholeSecret(spec, spec.secretRefs[i]);
      }
    }
    FlatMapCongruent(OfSecretRef(c), OfSecretRef(d), spec.secretRefs);
  }

  /** Clusters that agree on every object the watches match resolve to the same inputs. */
  ghost predicate SameMatched(spec: AgentSpec, c: Inputs, d: Inputs) {
    && (forall name | ReferencesConfigMap(spec, name) :: Lookup(c.configMaps, name) == Lookup(d.configMaps, name))
    && (forall name | ReferencesSecret(spec, name) :: Lookup(c.secrets, name) == Lookup(d.secrets, name))
  }

  lemma MatchedDeterminesInputs(spec: AgentSpec, c: Inputs, d: Inputs)
    requires SameMatched(spec, c, d)
    ensures Resolve(spec, c) == Resolve(spec, d)
  {
    ObservedDeterminesInputs(spec, c, d);
  }
}
