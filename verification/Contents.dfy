/** What the containers of the stored workload see of their files after a reconcile. */
module Contents {
  import opened Prelude
  import opened Api
  import opened Validation
  import opened Admission
  import opened References
  import opened Gate
  import opened ConfigPlan
  import opened Rollout
  import opened Filesystem
  import opened Store
  import opened Reconciliation
  import opened Guarantees
  import opened Serving
  import opened Deployment

  lemma SameConfigContent(source: ConfigSource, c: Inputs, d: Inputs)
    requires d.secrets == c.secrets
    requires source.configMapRef.Some? ==>
      Lookup(d.configMaps, source.configMapRef.value.name) == Lookup(c.configMaps, source.configMapRef.value.name)
    ensures ConfigContent(source, d) == ConfigContent(source, c)
  {
    hide PodView.ConfigMapFiles;
  }

  lemma SameMountValues(mount: FileMount, c: Inputs, d: Inputs)
    requires d.secrets == c.secrets
    requires mount.configMapRef.Some? ==>
      Lookup(d.configMaps, mount.configMapRef.value) == Lookup(c.configMaps, mount.configMapRef.value)
    ensures MountValues(mount, d) == MountValues(mount, c)
  {
    hide PodView.ConfigMapFiles;
  }

  /** What a spec declares depends on the objects it references only. */
  lemma SameDeclared(spec: AgentSpec, c: Inputs, d: Inputs, path: string, file: ShownFile)
    requires FullyNamed(spec) && SameReferences(spec, c, d)
    ensures Declares(spec, d, path, file) <==> Declares(spec, c, path, file)
  {
    hide ConfigContent, MountValues, SecretDeclares, ValidEnv, ValidEnvFrom;
    SameSource(spec, spec.config, c, d);
    SameSource(spec, spec.gatewayConfig, c, d);
    forall i | 0 <= i < |spec.fileMounts|
      ensures MountDeclares(spec.fileMounts[i], d, path, file) <==> MountDeclares(spec.fileMounts[i], c, path, file)
    {
      SameMount(spec, i, c, d);
    }
    hide MountDeclares, ConfigDeclares, SameReferences, FullyNamed;
    assert forall i :: 0 <= i < |spec.secretRefs| ==>
      (SecretDeclares(spec.secretRefs[i], d, path, file) <==> SecretDeclares(spec.secretRefs[i], c, path, file)) by {
      SameSecrets(spec, c, d, path, file);
    }
  }

  lemma SameSource(spec: AgentSpec, source: ConfigSource, c: Inputs, d: Inputs)
    requires FullyNamed(spec) && SameReferences(spec, c, d) && (source == spec.config || source == spec.gatewayConfig)
    ensures ConfigContent(source, d) == ConfigContent(source, c)
  {
    hide ValidEnv, ValidEnvFrom, ValidMounts;
    if source.configMapRef.Some? {
      var name := source.configMapRef.value.name;
      assert Selects(source.configMapRef, name) && ReferencesConfigMap(spec, name);
    }
    SameConfigContent(source, c, d);
  }

  lemma SameMount(spec: AgentSpec, i: nat, c: Inputs, d: Inputs)
    requires FullyNamed(spec) && SameReferences(spec, c, d) && i < |spec.fileMounts|
    ensures MountValues(spec.fileMounts[i], d) == MountValues(spec.fileMounts[i], c)
  {
    hide ValidEnv, ValidEnvFrom, ValidItems, ValidSource;
    var mount := spec.fileMounts[i];
    assert ValidTarget(mount);
    if mount.configMapRef.Some? { assert ReferencesConfigMap(spec, mount.configMapRef.value); }
    SameMountValues(mount, c, d);
  }

  lemma SameSecrets(spec: AgentSpec, c: Inputs, d: Inputs, path: string, file: ShownFile)
    requires SameReferences(spec, c, d)
    ensures forall i :: 0 <= i < |spec.secretRefs| ==>
      (SecretDeclares(spec.secretRefs[i], d, path, file) <==> SecretDeclares(spec.secretRefs[i], c, path, file))
  {
  }

  /** After every reconcile that stored the workload its container sees exactly the files the spec declares, with the
      contents found in the cluster. */
  lemma FilesServed(lib: Library, c: Cluster, agent: string, now: nat, path: string, file: ShownFile)
    requires agent in c.agents && FullyNamed(c.agents[agent].spec) && NoGeneratedReference(agent, c.agents[agent].spec)
    ensures var p := Prepare(lib, c, agent, c.agents[agent].spec);
      var d := Reconcile(lib, c, agent, now).cluster;
      p.Prepared? && Stored(lib, c, p.job) ==>
        && agent in d.statefulSets
        && (PodShows(d.statefulSets[agent].spec.template.pod, InputsOf(d), path, file) <==>
            Declares(c.agents[agent].spec, InputsOf(c), path, file))
  {
    hide Reconcile, Prepare, Stored, FullyNamed, NoGeneratedReference, InputsComplete, PodShows, Declares, GeneratedOf,
      ClaimOf, DesiredStatefulSet, WorkloadOf, PlanFiles, Managed, SameReferences;
    var spec := c.agents[agent].spec;
    var p := Prepare(lib, c, agent, spec);
    if p.Prepared? && Stored(lib, c, p.job) {
      PreparedWhen(lib, c, agent, spec);
      PreparedJob(lib, c, agent, spec, p.job);
      ReconcileParts(lib, c, agent, p.job, now);
      StoredWorkload(lib, c, p.job);
      DesiredBuilt(p.job);
      var d := Inputs(GeneratedOf(c, p.job).store, c.secrets);
      ServedInputs(lib, c, p.job);
      SameDeclared(spec, InputsOf(c), d, path, file);
      Filesystem.FilesExact(agent, spec, p.job.plan.hash, d, path, file);
    }
  }

  lemma ServedInputs(lib: Library, c: Cluster, job: Job)
    requires Planned(job) && FullyNamed(job.spec) && NoGeneratedReference(job.agent, job.spec)
    requires InputsComplete(job.spec, InputsOf(c)) && Stored(lib, c, job)
    ensures var d := Inputs(GeneratedOf(c, job).store, c.secrets);
      && SameReferences(job.spec, InputsOf(c), d) && InputsComplete(job.spec, d)
      && GeneratedInPlace(job.plan.files, d) && job.plan == Plan(PlanFiles(job.agent, job.spec), job.plan.hash)
  {
    var d := Inputs(GeneratedOf(c, job).store, c.secrets);
    assert GeneratedOf(c, job).failure.None?;
    hide FullyNamed, InputsComplete, NoGeneratedReference, GeneratedOf, PlanFiles;
    ReferencesKept(c, job, job.spec);
    GateExact(job.spec, InputsOf(c));
    GateExact(job.spec, d);
    Observation.MatchedDeterminesInputs(job.spec, d, InputsOf(c));
    GeneratedFilesInPlace(lib, c, job);
  }
}
