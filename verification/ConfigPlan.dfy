/** The config plan: which files the pod mounts, and the payload whose digest triggers rollouts. */
module ConfigPlan {
  import opened Prelude
  import opened Api
  import opened Validation
  import opened References

  datatype ConfigFile = ConfigFile(
    id: string, fileName: string, configMapName: string, secretName: string,
    sourceKey: string, mountPath: string, generated: bool, content: Bytes)

  datatype Payload = Payload(
    files: seq<ConfigFile>, env: seq<EnvVar>, envFrom: seq<EnvFromSource>,
    secretRefs: seq<string>, fileMounts: seq<FileMount>, referencedInputs: ReferencedInputs)

  datatype Plan = Plan(files: seq<ConfigFile>, hash: string)

  /** Library code the operator calls: quantity parsing with its error text, the terminal.backend field of a
      YAML document (None when the document does not parse) and the digest of the encoded payload. */
  datatype Library = Library(
    parseQuantity: string -> Option<int>,
    quantityError: string -> string,
    yamlBackend: Bytes -> Option<string>,
    digest: Payload -> string)

  const HOME := "/data/hermes"
  const CONFIG_ID := "config"
  const GATEWAY_ID := "gateway-config"

  datatype Resolution = BadSource(problem: SourceProblem) | NoFile | File(file: ConfigFile)

  /** The controller's own reading of a config source rejects exactly the invalid ones. */
  function ResolveConfigFile(agent: string, id: string, fileName: string, source: ConfigSource): (r: Resolution)
    ensures r.BadSource? <==> !ValidSource(source)
    ensures r.BadSource? ==> Some(r.problem) == ProblemOfSource(source)
  {
    if SourceCount(source) > 1 then BadSource(SeveralSources)
    else if SourceCount(source) == 0 then NoFile
    else
      var file := ConfigFile(id, fileName, "", "", "", HOME + "/" + fileName, false, []);
      if source.raw != [] then
        File(file.(generated := true, content := source.raw,
          configMapName := GeneratedConfigMapName(agent, id), sourceKey := fileName))
      else if source.configMapRef.Some? then
        var ref := source.configMapRef.value;
        if ref.name == "" || ref.key == "" then BadSource(ConfigMapIncomplete)
        else File(file.(configMapName := ref.name, sourceKey := ref.key))
      else
        var ref := source.secretRef.value;
        if ref.name == "" || ref.key == "" then BadSource(SecretIncomplete)
        else File(file.(secretName := ref.name, sourceKey := ref.key))
  }

  function FilesOf(r: Resolution): seq<ConfigFile> {
    if r.File? then [r.file] else []
  }

  function PlanFiles(agent: string, spec: AgentSpec): seq<ConfigFile> {
    FilesOf(ResolveConfigFile(agent, CONFIG_ID, "config.yaml", spec.config))
    + FilesOf(ResolveConfigFile(agent, GATEWAY_ID, "gateway.json", spec.gatewayConfig))
  }

  function PayloadOf(agent: string, spec: AgentSpec, inputs: ReferencedInputs): Payload {
    Payload(PlanFiles(agent, spec), spec.env, spec.envFrom, spec.secretRefs, spec.fileMounts, inputs)
  }

  /** The plan of a valid spec, or the first problem of an invalid one. */
  ghost function BuildPlan(lib: Library, agent: string, spec: AgentSpec, inputs: ReferencedInputs)
    : Attempt<Plan, ConfigError>
  {
    if ValidConfig(spec) then Success(Plan(PlanFiles(agent, spec), lib.digest(PayloadOf(agent, spec, inputs))))
    else
      ConfigProblemExact(spec);
      Refusal(ConfigProblem(spec).value)
  }

  method BuildConfigPlanWithReferences(lib: Library, agent: string, spec: AgentSpec, inputs: ReferencedInputs)
    returns (plan: Attempt<Plan, ConfigError>)
    ensures plan == BuildPlan(lib, agent, spec, inputs)
  {
    ConfigProblemExact(spec);
    hide ValidMounts, ProblemOfMounts;
    var error := ValidateFileMountSpecs(spec.fileMounts);
    if error.Some? { return Refusal(error.value); }
    var files := [];
    var config := ResolveConfigFile(agent, CONFIG_ID, "config.yaml", spec.config);
    if config.BadSource? { return Refusal(BadConfig(config.problem)); }
    if config.File? { files := files + [config.file]; }
    var gateway := ResolveConfigFile(agent, GATEWAY_ID, "gateway.json", spec.gatewayConfig);
    if gateway.BadSource? { return Refusal(BadGatewayConfig(gateway.problem)); }
    if gateway.File? { files := files + [gateway.file]; }
    assert files == PlanFiles(agent, spec);
    var payload := Payload(files, spec.env, spec.envFrom, spec.secretRefs, spec.fileMounts, inputs);
    return Success(Plan(files, lib.digest(payload)));
  }

  /** The names under which one agent generates ConfigMaps. */
  function GeneratedNames(agent: string): set<string> {
    {GeneratedConfigMapName(agent, CONFIG_ID), GeneratedConfigMapName(agent, GATEWAY_ID)}
  }

  ghost predicate NoGeneratedReference(agent: string, spec: AgentSpec) {
    forall name | name in GeneratedNames(agent) :: !ReferencesConfigMap(spec, name)
  }

  lemma GeneratedNamesDiffer(agent: string)
    ensures GeneratedConfigMapName(agent, CONFIG_ID) != GeneratedConfigMapName(agent, GATEWAY_ID)
  {
    assert |CONFIG_ID| < |GATEWAY_ID|;
    assert |GeneratedConfigMapName(agent, CONFIG_ID)| < |GeneratedConfigMapName(agent, GATEWAY_ID)|;
  }

  /** Two agents of one namespace can generate the same name. */
  lemma GeneratedNamesCollide(agent: string)
    ensures GeneratedConfigMapName(agent, GATEWAY_ID) == GeneratedConfigMapName(agent + "-gateway", CONFIG_ID)
  {
    assert agent + "-" + GATEWAY_ID == (agent + "-gateway") + "-" + CONFIG_ID;
  }
}
