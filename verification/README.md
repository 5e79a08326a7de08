# HermesAgent operator: a verified model

The HermesAgent operator turns one custom resource, an agent, into a StatefulSet with its config files,
a volume claim and, on request, a Service, a NetworkPolicy and a PodDisruptionBudget, and reports how far
it got in the agent's status. This project models three parts of it on one data model and proves what they
promise together.

* **The resource compiler** (`ConfigPlan`, `References`, `Gate`, `Missing`, `PodTemplate`, `MountPaths`,
  `PodView`, `Filesystem`, `Rollout`, `Terminal`, `Egress`): from a spec and the ConfigMaps and Secrets it names to a
  config plan, the payload whose digest triggers rollouts, a pod template and a network policy. `PodView` and
  `Filesystem` give the meaning of a template: what the kubelet would mount and set for a given cluster.
* **The admission webhook** (`Paths`, `Validation`, `Admission`, `Defaulting`): accumulating validation and
  in-place defaulting, against the controller's own fail-fast checks and fallbacks.
* **The reconciler** (`Store`, `Stages`, `Status`, `Reconciliation`, `Announcements`, `Guarantees`, `Claims`,
  `Convergence`, `Serving`, `Deployment`, `Contents`, `Views`, `Ownership`, `Runs`, `Safety`, `Writes`, `Liveness`,
  `Edits`): the pipeline over a store of objects with controllers, generations and statuses. `Store` gives each step
  as a function of the objects it may change, `Reconciliation.Reconcile` is one whole reconcile, and `Runs`
  interleaves the steps of any number of agents' workers with an environment that may do almost anything.
  `StatusRecords` and `Operators` are the same reconciler in the form the program has, objects that are updated in
  place, each method proved equal to the function it implements.

`Prelude`, `Sorting`, `Decimal` and `Base64` hold the vocabulary: options, sorting, decimal printing and
section 4 of RFC 4648.

## Main results

* Reconciling twice in a row is reconciling once: the second time nothing is written, patched or announced and
  the outcome is the same, on success and at every kind of failure (`Reconciliation.ReconcileFixpoint`).
* A reconcile's steps succeed exactly when nothing obstructs them (`Convergence.SucceedsExactly`), and for every
  admitted spec whose references resolve, reconcile, bind, catch up, reconcile ends in phase Ready
  (`Convergence.ReachesReady`).
* After a successful reconcile every stored object says, in the raw fields of the spec, what it asks for
  (`Deployment.StoredAsAsked`), its containers see exactly the declared files (`Contents.FilesServed`), and the status
  and its events say exactly what the stored claim and StatefulSet are (`Views.StatusExact`, `Views.DoneAnnounced`).
* The gate reports exactly the required references that do not resolve (`Missing.MissingExact`), and after any failure
  the status says exactly which it was (`Views.FailureStored`).
* The API writes of a reconcile are exactly the difference it makes, each once (`Writes.ReconcileTold`).
* Phase Ready means the stored StatefulSet is the one asked for, unchanged by this reconcile, with the reported
  hash on its pods, all replicas ready and the claim bound (`Guarantees.ReadySound`).
* Over every run of the interleaved machine: the status invariant holds in every state
  (`Runs.RunInvariant`), objects that are off limits are never touched (`Safety.OffLimitsForever`), claims keep
  their storage settings (`Safety.ClaimsSurvive`) and allocated node ports survive (`Safety.NodePortSurvives`).
* Equal hash payloads mean equal pods exactly if no key moved visibly between Data and BinaryData
  (`Rollout.RolloutFaithful`), and keys nobody selects do not show (`Rollout.UnselectedKeysInvisible`).
* Once the workload is stored its template can start exactly if no required variable is binary-only and, with
  persistence on, the claim was bound (`Serving.TemplateServed`); after an earlier failure exactly if cleanup took
  nothing from under it (`Serving.StrandedExactly`).
* A reconcile stamps the generation it read exactly if the spec was not edited meanwhile (`Edits.StampExact`), and a
  claim created for a spec that was edited away blocks the new one for good exactly if they want different storage
  (`Edits.StaleClaimForGood`).
* The compiled NetworkPolicy allows exactly the declared allowlist (`Egress.PolicyMeaning`).

## Assumptions

* Each sub-step of a reconcile is atomic: reading the agent, resolving all references, each of the six pipeline
  steps, reading the status view, patching the status. Reads are linearizable. There is one namespace.
* `CreateOrUpdate` writes only if the mutation succeeds and the object changed; `SetControllerReference`
  refuses an object controlled by somebody else and adopts an uncontrolled one.
* A controller is identified by the agent's name; deleting an agent and creating another of the same name gives
  the same owner here, while the program compares UIDs.
* Storing a different StatefulSet spec raises its generation by one; the observed generation never exceeds the
  generation. A spec edit of an agent raises its generation. Other server-side defaulting is not modelled.
* CIDR parsing and label selector validation are arbitrary functions as well (`Admission.Parsers`).
* The API server keeps the keys of Data and BinaryData of one ConfigMap apart; results that need it say so.
* Quantity parsing, the `terminal.backend` field of a YAML document and the digest of the payload are arbitrary
  functions (`ConfigPlan.Library`). Equality of payloads stands for equality of the JSON that is hashed.
* Generated ConfigMap names must not be referenced by the spec itself (`NoGeneratedReference`): the generator
  would overwrite or delete its own input. Facts that need this say so.
* A message is represented by the values its text is printed from, such as the first configuration error with its
  kind and indices, or the owner of a contested object; different values are taken to print differently. Reasons are
  an enumeration, and one reconcile uses one clock reading.
* The API server accepts every object the operator writes. It would not accept two mounts with one path
  (`MountPaths.MountPathsDistinct` says when there are any), a policy peer with both a block and a selector, or a
  Service port above 65535; the webhook admits all three.
* A pod can start once the kubelet finds all it needs and the claims it mounts are bound. A pending claim may still be
  bound later, so there "cannot start" means "not yet".
* Of several variables or labels with one name the last counts, as in the kubelet. A projected file has the mode of its
  item, else that of its volume.
* Names are strings without further syntax; a secret mount path is the base path, a slash and the name.

## Model

| member | source | states |
|---|---|---|
| `Paths.ItemPathExact` | internal/controller/hermesagent_resources.go:236-245 | for every string, the test built on lexical path cleaning accepts exactly the relative paths whose segments are all non-empty and neither `.` nor `..` |
| `Validation.ValidateItems` | internal/controller/hermesagent_resources.go:208-231 | the fail-fast loop over items returns no error exactly for valid items (unique keys, unique plain relative paths, modes in range), and otherwise the first problem of the first offending item, with the index of the item it repeats |
| `Validation.ValidateFileMountSpecs` | internal/controller/hermesagent_resources.go:178-234 | the controller's fail-fast check accepts exactly the valid lists of mounts (one source each, unique absolute mount paths, valid items), and otherwise returns the first problem of the first offending mount |
| `Validation.ConfigProblemExact` | internal/controller/hermesagent_resources.go:101-127 | a spec has a first configuration problem, mounts before config before gateway config, exactly if it is not valid |
| `Validation.ConfigProblemTrue` | internal/controller/hermesagent_resources.go:178-256 | the reported problem is true and the first one: the mounts and items before it are valid, and a repetition names the first position it repeats |
| `Validation.ValidateConfigSource` | internal/webhook/v1/hermesagent_webhook.go:221-252 | the accumulating check reports nothing exactly on the sources the controller accepts, and otherwise names exactly the broken fields |
| `Validation.CollectOneItem` | internal/webhook/v1/hermesagent_webhook.go:350-370 | the errors of one item name exactly its broken fields; there is none exactly if it is valid and its key and path are new; the seen maps grow by exactly its non-empty key and path |
| `Validation.CollectItemErrors` | internal/webhook/v1/hermesagent_webhook.go:348-370 | the accumulating loop over items reports nothing exactly for valid items, and otherwise the broken fields of every item |
| `Validation.CollectOneMount` | internal/webhook/v1/hermesagent_webhook.go:318-373 | the errors of one mount name exactly its broken fields and those of its items; the seen map grows by exactly its non-empty path |
| `Validation.ValidateFileMounts` | internal/webhook/v1/hermesagent_webhook.go:316-373 | the webhook's accumulating check and the controller's fail-fast check accept the same mounts, and the webhook names exactly the broken fields |
| `Admission.ValidateEnv` | internal/webhook/v1/hermesagent_webhook.go:254-282 | no error exactly if every variable has a name and every key reference a name and a key; otherwise the errors name exactly the broken fields |
| `Admission.ValidateEnvFrom` | internal/webhook/v1/hermesagent_webhook.go:284-304 | no error exactly if every source names exactly one object; otherwise the errors name exactly the broken fields |
| `Admission.ValidateLocalObjectReferences` | internal/webhook/v1/hermesagent_webhook.go:306-314 | no error exactly if no name is empty; otherwise the errors name exactly the broken fields |
| `Admission.ValidateReplicas` | internal/webhook/v1/hermesagent_webhook.go:402-413 | no error exactly for at least one replica, and more than one only without persistence |
| `Admission.ValidateUpdateStrategy` | internal/webhook/v1/hermesagent_webhook.go:415-427 | no error exactly if a rolling update is not combined with OnDelete and its partition is not negative; otherwise the errors name exactly the broken fields |
| `Admission.ValidateService` | internal/webhook/v1/hermesagent_webhook.go:429-442 | no error exactly for a positive port where the Service is wanted and a target port that is not negative; otherwise the errors name exactly the broken fields |
| `Admission.ValidateDestination` | internal/webhook/v1/hermesagent_webhook.go:454-481 | no error exactly for a destination with a peer, well-formed blocks, exceptions only under a block, and valid selectors; otherwise the errors name exactly the broken fields |
| `Admission.ValidateNetworkPolicyPorts` | internal/webhook/v1/hermesagent_webhook.go:485-493 | no error exactly for ports from 1 to 65535; otherwise the errors name exactly the broken fields |
| `Admission.ValidateNetworkPolicy` | internal/webhook/v1/hermesagent_webhook.go:444-450 | no error exactly if every destination and both port lists are valid |
| `Admission.ValidateStorage` | internal/webhook/v1/hermesagent_webhook.go:495-510 | no error exactly for an unset size or a quantity above zero |
| `Admission.ValidateProbeSpec` | internal/webhook/v1/hermesagent_webhook.go:512-527 | no error exactly if no number is negative; otherwise the errors name exactly the broken fields |
| `Admission.ValidateHermesAgent` | internal/webhook/v1/hermesagent_webhook.go:194-219 | the accumulated checks report nothing exactly for admitted specs |
| `ConfigPlan.ResolveConfigFile` | internal/controller/hermesagent_resources.go:129-176 | the controller refuses a config source exactly when the webhook's predicate does, with the source's first problem |
| `ConfigPlan.BuildConfigPlanWithReferences` | internal/controller/hermesagent_resources.go:101-127 | the plan exists exactly for valid specs and is the files of both sources with the digest of the payload; an invalid spec gives its first problem |
| `ConfigPlan.GeneratedNamesCollide` | internal/controller/hermesagent_resources.go:885-887 | two different agents can generate the same ConfigMap name |
| `References.EncodeSecretData` | internal/controller/hermesagent_resources.go:832-842 | the loop gives every key its base64 text, in whatever order the map is visited |
| `References.CopyData` | internal/controller/hermesagent_resources.go:818-830 | the loop gives plain data, overridden by the base64 text of binary data |
| `References.NewConfigMapProjectionSnapshot` | internal/controller/hermesagent_resources.go:637-666 | the snapshot records the selected keys that exist, lists the missing ones in order, and says whether all were found |
| `References.NewSecretProjectionSnapshot` | internal/controller/hermesagent_resources.go:705-734 | the same for a Secret, with base64 values |
| `References.WatchesConfigMap` | internal/controller/hermesagent_controller.go:367-390 | the watch loops return true exactly if some reference of the spec names the ConfigMap |
| `References.WatchesSecret` | internal/controller/hermesagent_controller.go:392-420 | the same for Secrets |
| `Watches.InputCollector.AppendFileMountSnapshots` | internal/controller/hermesagent_controller.go:238-257 | appends one snapshot per mount, and reads exactly the objects the mounts name |
| `Watches.InputCollector.Collect` | internal/controller/hermesagent_controller.go:196-216 | the collected inputs are the resolved inputs, and the set of objects read is exactly what the spec reads |
| `Watches.ConfigMapWatchExact` | internal/controller/hermesagent_controller.go:196-314 | a ConfigMap is read if and only if the watch fires for it, for every spec |
| `Watches.SecretWatchExact` | internal/controller/hermesagent_controller.go:350-428 | the same for Secrets, for every spec with valid mounts |
| `Observation.MatchedDeterminesInputs` | internal/controller/hermesagent_controller.go:350-428 | clusters that agree on all watched objects give identical referenced inputs, so an identical plan |
| `Observation.ObservedDeterminesInputs` | internal/controller/hermesagent_resources.go:585-744 | agreement on whole objects where they are read whole and on selected keys elsewhere is enough |
| `Gate.MissingReferenceMessages` | internal/controller/hermesagent_controller.go:822-862 | the messages are those of every snapshot, section by section, in order; which these are says `Missing.MissingExact` |
| `Gate.GateExact` | internal/controller/hermesagent_controller.go:106-112 | for fully named specs the gate is silent exactly when every required reference names an object with every selected key |
| `Missing.MissingExact` | internal/controller/hermesagent_controller.go:822-862 | for every fully named spec and every cluster: an object is reported as not found exactly if some required reference names it and it is absent, a key as missing exactly if some required reference selects it in an existing object that lacks it |
| `PodTemplate.UpsertEnvVar` | internal/controller/hermesagent_resources.go:871-879 | replaces the first variable of that name or appends |
| `PodTemplate.TemplateBuilder.constructor` | internal/controller/hermesagent_resources.go:257-269 | the record grown step by step is the template inputs of spec and plan |
| `PodTemplate.TemplateBuilder.AppendConfigFileInputs` | internal/controller/hermesagent_resources.go:271-285 | one volume and one mount per config file, in order |
| `PodTemplate.TemplateBuilder.AppendSecretReferenceInputs` | internal/controller/hermesagent_resources.go:305-323 | one volume and one mount per named secret, numbered by position |
| `PodTemplate.TemplateBuilder.AppendFileMountInputs` | internal/controller/hermesagent_resources.go:325-342 | one volume and one mount per mount with a source, numbered by position; which files they show says `Filesystem.FilesExact` |
| `PodTemplate.VolumeWiring` | internal/controller/hermesagent_resources.go:485-502 | for any number of secrets and mounts all volume names differ and mounts match volumes one to one |
| `MountPaths.MountPathsDistinct` | internal/controller/hermesagent_resources.go:257-502 | for every accepted configuration all mount paths of the generated pod differ if and only if no Secret is referenced twice and no file mount uses the home, the temporary directory, a config file in use or a mounted Secret's path |
| `MountPaths.RepeatedSecretAdmitted` | internal/webhook/v1/hermesagent_webhook.go:306-314 | the webhook does not check it: any admitted spec with one Secret referenced twice is admitted, and its pod has two mounts with one path |
| `Filesystem.FilesExact` | internal/controller/hermesagent_resources.go:257-381 | for every fully named spec with inputs complete and generated files in place the container sees exactly the declared files: config.yaml and gateway.json, every key of every secret reference, and the keys of every file mount or its items under their own paths, with the bytes of the named key, the mode of the item or else of the mount, all read-only |
| `Filesystem.WritesExact` | internal/controller/hermesagent_resources.go:485-502 | the container can write to its home, on the claim unless persistence is switched off, to its temporary directory, and nowhere else |
| `Deployment.WorkloadExact` | internal/controller/hermesagent_resources.go:485-561 | in raw spec fields: replicas, update strategy and partition, labels and annotations, image, pull policy, arguments, pull secrets, service account, token, ports, and each probe with its own switch and numbers, the platform check on readiness alone |
| `Deployment.ProbesIndependent` | internal/controller/hermesagent_resources.go:932-1044 | changing the settings of one probe changes no other |
| `Deployment.EnvironmentExact` | internal/controller/hermesagent_resources.go:871-879 | every variable of the spec has its value; HERMES_HOME is the operator's exactly unless the spec names it more than once and the last one differs, since only the first is replaced |
| `PodTemplate.SelectorsExact` | internal/controller/hermesagent_resources.go:848-869 | the labels every resource selects by pick out the pods of exactly their own agent, whatever podLabels says |
| `Rollout.RolloutFaithful` | internal/controller/hermesagent_resources.go:563-583 | for equal payloads, generated files in place and Data apart from BinaryData, every file, secret mount, projected file and environment value of the two pods is equal if and only if no key moved between Data and BinaryData under a reader that can tell |
| `Rollout.MovedKeyInvisible` | internal/controller/hermesagent_resources.go:736-744 | the payload cannot tell such a move: for every spec, cluster and binary key, putting its base64 text into Data instead leaves the payload equal |
| `Rollout.UnselectedKeysInvisible` | internal/controller/hermesagent_resources.go:637-666 | changing, adding or removing unselected keys of a ConfigMap referenced only by key leaves the payload equal |
| `Rollout.UnselectedSecretKeysInvisible` | internal/controller/hermesagent_resources.go:705-734 | the same for a Secret |
| `Rollout.TemplateIntegrity` | internal/controller/hermesagent_resources.go:257-381 | with complete inputs and generated files in place the built template can start, every volume, variable and bundle bound by the kubelet, if and only if no required variable asks for a key that is binary data only and, with persistence on, the agent's claim is bound |
| `Rollout.ClaimsBoundExactly` | internal/controller/hermesagent_resources.go:1226-1242 | for every spec and every set of bound claims, all claims the pod mounts are bound if and only if persistence is off or the agent's own claim is bound |
| `Rollout.ClaimVolumesExact` | internal/controller/hermesagent_resources.go:1226-1242 | the pod mounts a claim exactly if persistence is on, and then only the agent's own |
| `Base64.RoundTrip` | internal/controller/hermesagent_resources.go:1123-1129 | decoding an encoding gives the bytes back |
| `Terminal.ParsedContent` | internal/controller/hermesagent_resources.go:1094-1133 | the parsed text is the mounted config.yaml, except that a binary-only key is parsed as base64 text |
| `Terminal.BackendAgrees` | internal/controller/hermesagent_resources.go:1087-1149 | under every YAML reading the effective backend is the one the mounted file declares, else the fallback, also when both files share a reference, if and only if the config is not non-empty binary data |
| `Terminal.BinaryConfigDisagrees` | internal/controller/hermesagent_resources.go:736-744 | a reading for the exception: for every non-empty binary-only config the one that finds a backend in the mounted bytes alone makes operator and pod disagree |
| `Egress.AdditionalNetworkPolicyPorts` | internal/controller/hermesagent_resources.go:1151-1166 | whatever order the map is visited in, the result is the sorted, duplicate-free list of ports not already covered |
| `Egress.PolicyMeaning` | internal/controller/hermesagent_resources.go:447-483 | a protocol, port and destination is allowed exactly if it is DNS, or the destination is listed (or the list is empty) and the port is web, ssh under the ssh backend, or additional |
| `Egress.PolicyNeverOpen` | internal/controller/hermesagent_resources.go:450-469 | no rule has an empty port list |
| `Egress.PolicyPortsDistinct` | internal/controller/hermesagent_resources.go:457-469 | no protocol and port appears twice in the policy |
| `Egress.PolicyOrderIndependent` | internal/controller/hermesagent_resources.go:464-469 | order and repetition of the additional ports do not matter |
| `Defaulting.ProbeCell.Default` | internal/webhook/v1/hermesagent_webhook.go:176-192 | a probe is overwritten field by field with its defaults |
| `Defaulting.Submission.Default` | internal/webhook/v1/hermesagent_webhook.go:75-144 | the submitted spec becomes its defaulted form |
| `Defaulting.DefaultingIdempotent` | internal/webhook/v1/hermesagent_webhook.go:75-144 | defaulting twice is defaulting once |
| `Defaulting.DefaultsExact` | internal/webhook/v1/hermesagent_webhook.go:75-144 | every unset field gets its documented default, every set one stays, nothing else is touched |
| `Defaulting.ProbeMeaning` | internal/controller/hermesagent_resources.go:993-1041 | webhook and controller defaults agree on every probe, negative numbers included |
| `Defaulting.SettingsKept` | internal/controller/hermesagent_resources.go:1251-1302 | every effective setting is the same before and after defaulting |
| `Defaulting.PlanKept` | internal/controller/hermesagent_resources.go:101-127 | validity, referenced inputs, plan, payload and terminal backend are the same |
| `Defaulting.StepsKept` | internal/controller/hermesagent_resources.go:383-483 | claim, Service, NetworkPolicy and budget steps do the same to every store |
| `Defaulting.WorkloadKept` | internal/controller/hermesagent_resources.go:485-561 | the StatefulSet is the same but for image reference and pull policy |
| `Defaulting.ImageKept` | internal/controller/hermesagent_resources.go:889-894 | the image reference is the same exactly if repository and tag were given |
| `Defaulting.PipelineKept` | internal/controller/hermesagent_controller.go:122-163 | with the image given, the whole pipeline does the same to every cluster |
| `Defaulting.AdmissionKept` | internal/webhook/v1/hermesagent_webhook.go:402-442 | a defaulted spec is admitted exactly if the original is with its unset replica count and port filled in |
| `Claims.SameModesExact` | internal/controller/hermesagent_controller.go:573-582 | sort and compare is multiset equality |
| `Claims.DriftExact` | internal/controller/hermesagent_controller.go:562-571 | the drifted fields are exactly those that differ: modes as multisets against those listed in the spec, or ReadWriteOnce where it lists none, an explicitly requested storage class |
| `Claims.DriftReported` | internal/controller/hermesagent_controller.go:524-536 | a drift failure occurs exactly for an existing claim whose storage settings differ |
| `Claims.ClaimExact` | internal/controller/hermesagent_resources.go:383-405 | in raw spec fields: a new claim has the listed access modes, or ReadWriteOnce where none are listed, and the storage class of the spec; an old one keeps its own; both request the size asked for, or 10Gi |
| `Claims.ClaimStepSafe` | internal/controller/hermesagent_controller.go:502-537 | no claim disappears or changes access modes, storage class or phase, and only the agent's own is written |
| `Stages.GeneratedSettles` | internal/controller/hermesagent_controller.go:430-492 | generated ConfigMaps and cleanup: run again on the result, the step is idle with the same outcome |
| `Stages.WorkloadPostponesCleanup` | internal/controller/hermesagent_controller.go:494-500 | storing a new StatefulSet spec never makes cleanup due |
| `Stages.PipelineSettles` | internal/controller/hermesagent_controller.go:122-163 | the pipeline run again on its own result writes nothing and stops at the same failure |
| `Stages.IdleMeansInPlace` | internal/controller/hermesagent_controller.go:444-455 | where the inline step has nothing to do, every generated file is stored under the agent's control with exactly its content |
| `Status.FindWithCondition` | internal/controller/hermesagent_controller.go:1016-1025 | setting a condition changes that type only and keeps its transition time unless the status changes |
| `Status.ChangeAbsorbed` | internal/controller/hermesagent_controller.go:733-758 | a status change applied a second time, at any time, changes nothing |
| `Status.ChangeKeepsInvariant` | internal/controller/hermesagent_controller.go:868-1065 | every coherent change keeps the status invariant, whatever the status and however old the spec |
| `StatusRecords.StatusRecord.SetCondition` | internal/controller/hermesagent_controller.go:1016-1025 | the in-place search and update is the functional one |
| `StatusRecords.StatusRecord.PopulateStatusMetadata` | internal/controller/hermesagent_controller.go:999-1014 | image, hash, claim and service name are set, drift is cleared, nothing else changes |
| `StatusRecords.StatusRecord.MarkConfigFailure` | internal/controller/hermesagent_controller.go:1027-1035 | the record shows the configuration failure and nothing else changed |
| `StatusRecords.StatusRecord.MarkPersistenceFailure` | internal/controller/hermesagent_controller.go:1037-1057 | the record shows the storage failure, with the drifted fields if it is a drift |
| `StatusRecords.StatusRecord.MarkWorkloadFailure` | internal/controller/hermesagent_controller.go:1059-1065 | the record shows the workload failure and keeps what it said of persistence |
| `StatusRecords.StatusRecord.ShowView` | internal/controller/hermesagent_controller.go:874-883 | the record shows the view |
| `Announcements.FailureAnnounced` | internal/controller/hermesagent_controller.go:760-811 | reporting a failure emits a Warning with its reason and cause exactly if the status did not already display it, never twice, and the status displays it from then on |
| `Announcements.NextFailureAnnounced` | internal/controller/hermesagent_controller.go:785-811 | where one failure is displayed, another under the same condition is announced exactly if it differs: editing an invalid spec into a differently invalid one, or a change of the owner in the way, is announced |
| `Announcements.HeadlineOf` | internal/controller/hermesagent_controller.go:813-820 | every failure has one condition that carries it, False, with the failure as its message and a reason that counts as a warning |
| `Views.ViewExact` | internal/controller/hermesagent_controller.go:901-979 | for every cluster: each state of the claim has its own phase, reason and condition, a lost one StorageError; otherwise absence, generations and replicas of the StatefulSet decide reason, phase and count |
| `Views.StatusExact` | internal/controller/hermesagent_controller.go:868-884 | the status stored by a reconcile without error says exactly that of the stored claim and StatefulSet |
| `Views.NamesExact` | internal/controller/hermesagent_controller.go:999-1014 | the status names the image of the stored template, the stored claim where there is persistence, and the stored Service where there is one |
| `Views.MetadataExact` | internal/controller/hermesagent_controller.go:733-758 | after every reconcile, successful or not, the status carries the agent's generation, also on its conditions, the hash of the plan if there was one, image, claim and Service as the spec gives them, the time of its last change, and for each condition the time its status last changed |
| `Views.DoneAnnounced` | internal/controller/hermesagent_controller.go:760-811 | a reconcile without error announces exactly the storage and workload conditions not displayed before, the workload's not where it only repeats news of the storage |
| `Views.LostClaimAnnounced` | internal/controller/hermesagent_controller.go:1067-1094 | a lost claim gives StorageError and a Warning, once |
| `Views.RecoveryAnnounced` | internal/controller/hermesagent_controller.go:760-811 | a claim bound now and a StatefulSet ready now are announced exactly if the status did not say so |
| `Views.FailureExact` | internal/controller/hermesagent_controller.go:1027-1065 | for every failure: phase, counters and all four conditions, including what becomes unknown and what a workload failure leaves alone |
| `Views.FailureStored` | internal/controller/hermesagent_controller.go:83-178 | whatever a reconcile fails with, the stored status says exactly that |
| `Views.MissingStored` | internal/controller/hermesagent_controller.go:106-120 | with inputs missing no object is written, and the status lists exactly the required references that do not resolve |
| `Views.DriftStored` | internal/controller/hermesagent_controller.go:524-571 | an existing claim with other storage settings stops the reconcile, and the status names exactly the settings that differ |
| `Reconciliation.ReconcileFixpoint` | internal/controller/hermesagent_controller.go:83-178 | a second reconcile writes, patches and announces nothing and ends the same way, on success and on every failure path |
| `Reconciliation.PipelineFrame` | internal/controller/hermesagent_controller.go:430-492 | the pipeline changes no Secret, no agent and no ConfigMap outside the agent's generated names |
| `Reconciliation.SameInputsAfter` | internal/controller/hermesagent_controller.go:196-216 | so a spec that references no generated name resolves to the same inputs afterwards |
| `Reconciliation.ViewKinds` | internal/controller/hermesagent_controller.go:901-997 | every view is coherent: Ready exactly if persistence and workload are true, bound only if persistence is |
| `Guarantees.PipelineIndependent` | internal/controller/hermesagent_controller.go:122-163 | the pipeline succeeds exactly if each step would on the cluster as found, and then leaves exactly what each makes of it |
| `Guarantees.PreparedWhen` | internal/controller/hermesagent_controller.go:91-120 | a fully named spec reaches the steps exactly when its inputs are complete, and is never reported invalid |
| `Guarantees.ReadyExactly` | internal/controller/hermesagent_controller.go:901-979 | the view says Ready exactly if the claim, where there is one, is bound and the StatefulSet is observed and has its replicas |
| `Guarantees.FailureReported` | internal/controller/hermesagent_controller.go:122-163 | a failure carries its step: what the status shows is the mark the failing step's call site sets |
| `Guarantees.ReadySound` | internal/controller/hermesagent_controller.go:136-142 | phase Ready: the stored StatefulSet is the desired one, unchanged by this reconcile, annotated with the reported hash whatever podAnnotations says, replicas ready, claim bound, observed generation the agent's |
| `Guarantees.VisibleChangeRollsOut` | internal/controller/hermesagent_resources.go:257-269 | if the digest separates the two payloads, two jobs with equal StatefulSets give equal pod inputs if and only if no key moved visibly: every other visible change changes the StatefulSet |
| `Guarantees.OptionalResourcesConverge` | internal/controller/hermesagent_controller.go:605-710 | after success a wanted Service, NetworkPolicy or budget exists, is controlled and matches; an unwanted one is not controlled |
| `Deployment.StoredAsAsked` | internal/controller/hermesagent_controller.go:122-163 | after every successful reconcile that reached the steps the generated ConfigMaps, the StatefulSet, the claim, the Service, the NetworkPolicy and the budget are what the raw fields of the spec ask for, labels merged and node port kept, and an unwanted one is gone if it was the agent's |
| `Deployment.WorkloadStoredAsAsked` | internal/controller/hermesagent_controller.go:591-603 | so is the StatefulSet after every reconcile that got as far as storing it, whatever failed later |
| `Contents.FilesServed` | internal/controller/hermesagent_controller.go:122-142 | after every reconcile that stored the workload its containers see exactly the files the spec declares, with the contents found in the cluster |
| `Guarantees.StoredResourcesFit` | internal/controller/hermesagent_resources.go:407-561 | after success the stored resources fit: every selector picks the template's pods, the Service targets the one port the container opens, a budget leaves a replica standing |
| `Guarantees.StaleRemoved` | internal/controller/hermesagent_controller.go:457-492 | once the workload is rolled out no stale controlled ConfigMap of a generated name remains; before that none is removed |
| `Serving.TemplateServed` | internal/controller/hermesagent_controller.go:106-142 | after every reconcile that stored the workload, so after every successful one, the stored template can start if and only if, in the cluster as found, no required variable of the spec is binary-only and, with persistence on, the claim is bound |
| `Serving.ReadyServed` | internal/controller/hermesagent_controller.go:901-979 | in phase Ready the stored template can start if and only if no required variable is binary-only |
| `Serving.DoneYetServed` | internal/controller/hermesagent_controller.go:83-178 | a reconcile that nothing obstructs ends without error on both sides of that condition |
| `Serving.UnboundClaimStuck` | internal/controller/hermesagent_controller.go:502-537 | every unobstructed agent with persistence whose claim is lost, pending or missing reconciles without error and is left with a template that cannot start |
| `Serving.StrandedExactly` | internal/controller/hermesagent_controller.go:122-142 | after a reconcile that failed before storing the workload, a stored template built from an earlier spec that could start still can if and only if cleanup did not take a generated file of that spec: cleanup due, inline ConfigMaps free, the name no longer wanted and controlled |
| `Serving.BinaryVariableUnbound` | internal/controller/hermesagent_resources.go:736-744 | for all names, keys and bytes a required variable whose key is binary data passes the gate silently and is unbound in the pod |
| `Serving.BinaryVariableStuck` | internal/controller/hermesagent_controller.go:106-142 | every unobstructed agent with such a variable reconciles without error and is left with a template that cannot start |
| `PodView.VariableBound` | internal/controller/hermesagent_resources.go:604-622 | a variable that passed the gate is bound in the pod exactly if it is not binary-only |
| `Serving.CleanupCanStrand` | internal/controller/hermesagent_controller.go:457-492 | any stored template that mounts a ConfigMap cleanup takes, under either generated name, cannot start after a failure at the claim or the workload |
| `Convergence.SucceedsExactly` | internal/controller/hermesagent_controller.go:430-710 | all six steps succeed exactly if no needed name is foreign, the size parses and no immutable setting drifted |
| `Convergence.DoneExactly` | internal/controller/hermesagent_controller.go:712-724 | a reconcile ends without error exactly if it is rejected before the steps or nothing obstructs them |
| `Convergence.ClaimsServed` | internal/controller/hermesagent_controller.go:129-142 | after success every claim the stored template mounts exists under the agent's control with the requested storage settings |
| `Convergence.ReachesReady` | internal/controller/hermesagent_controller.go:83-178 | reconcile, claim binds, StatefulSet controller catches up, reconcile: phase Ready, for every unobstructed admitted agent |
| `Ownership.StageRespects` | internal/controller/hermesagent_controller.go:430-710 | no step touches what another owner controls, or an optional resource it does not control, or a name that is not its own; whatever it changes is its own afterwards |
| `Runs.AloneIsReconcile` | internal/controller/hermesagent_controller.go:83-178 | a worker left alone step by step does what the whole reconcile does |
| `Runs.RunInvariant` | internal/controller/hermesagent_controller.go:733-758 | in every state of every run every agent's status satisfies the invariant: Ready phase, Ready condition and the three others agree, bound and drift are backed by conditions, ready replicas only in Ready or WorkloadPending, generations ordered |
| `Safety.WorkerRespects` | internal/controller/hermesagent_controller.go:430-710 | in every reachable state one worker step respects ownership and scope |
| `Safety.RunRespects` | internal/controller/hermesagent_controller.go:430-710 | so at every worker step of every run |
| `Safety.OffLimitsForever` | internal/controller/hermesagent_controller.go:430-710 | over any stretch of any run an object off limits to the agents that move stays identical unless the environment touches it |
| `Safety.ContenderRefused` | internal/controller/hermesagent_resources.go:885-887 | when two agents contend for a generated name and the other controls it, the agent with the gateway suffix is refused and changes nothing |
| `Safety.GatewayContenderRefused` | internal/controller/hermesagent_resources.go:885-887 | the other contender is refused too: nothing changes but, at most, its own config ConfigMap, and the contested one stays as it is |
| `Safety.WorkerKeepsClaims` | internal/controller/hermesagent_controller.go:502-537 | no worker step deletes a claim or changes its access modes, storage class or phase |
| `Safety.ClaimsSurvive` | internal/controller/hermesagent_controller.go:502-589 | over any run whose environment keeps a claim's storage settings, the claim keeps them |
| `Safety.NodePortSurvives` | internal/controller/hermesagent_controller.go:663-675 | over any run an allocated node port survives while the type stays NodePort or LoadBalancer |
| `Writes.ReconcileTold` | internal/controller/hermesagent_controller.go:122-163 | wherever a reconcile stops, an object was created, updated or deleted exactly if the log has that write, no write is made twice, and the status is patched exactly if it changed |
| `Edits.GenerationTells` | internal/controller/hermesagent_controller.go:733-747 | over any stretch of a run in which the agent exists its generation never falls, is the same again only if the spec was never edited, and, where only edits raise it, whenever the spec was never edited |
| `Edits.StampExact` | internal/controller/hermesagent_controller.go:733-747 | over any run a reconcile acts on the spec it read and stamps the generation found at its report; that is the generation read only if the spec was not edited in between and, where only edits raise the generation, if and only if it was not |
| `Edits.EditBeforeReport` | internal/controller/hermesagent_controller.go:733-747 | from every state of every run in which a worker is about to report, an edit leads to a status that names the new generation while the worker acted on the old spec |
| `Edits.EditTakenBack` | internal/controller/hermesagent_controller.go:733-747 | the stored spec alone does not tell: an edit that is taken back leaves the spec equal and the generation higher |
| `Edits.ClaimCreated` | internal/controller/hermesagent_controller.go:502-537 | a claim created by a worker has the access modes and storage class of the spec the worker read, whatever is stored by then |
| `Edits.StaleClaimForGood` | internal/controller/hermesagent_controller.go:502-571 | in every later state of the run, while nobody else touches the claim's storage settings, the claim step for a spec with persistence and a size that parses fails with drift if and only if that spec wants other storage than the one the claim was created for, and then the pipeline fails |
| `Liveness.ScheduleReachesReady` | internal/controller/hermesagent_controller.go:83-178 | the convergence schedule consists of worker steps and allowed environment moves, and ends Ready |
| `Operators.Reconciler.ReconcileInlineConfigMap` | internal/controller/hermesagent_controller.go:444-455 | store, writes and failure are those of the step |
| `Operators.Reconciler.ReconcileGeneratedConfigMaps` | internal/controller/hermesagent_controller.go:430-442 | the loop with its growing desired set does what the step says, stopping at the first failure |
| `Operators.Reconciler.CleanupStaleGeneratedConfigMaps` | internal/controller/hermesagent_controller.go:457-492 | the loop over the two names deletes exactly the stale controlled ones, and only when the workload is ready |
| `Operators.Reconciler.ReconcilePersistentVolumeClaim` | internal/controller/hermesagent_controller.go:502-537 | store, writes and failure are those of the step |
| `Operators.Reconciler.ReconcileStatefulSet` | internal/controller/hermesagent_controller.go:591-603 | store, writes and failure are those of the step |
| `Operators.Reconciler.ReconcileService` | internal/controller/hermesagent_controller.go:637-676 | store, writes and failure are those of the step, node port carried over |
| `Operators.Reconciler.ReconcileNetworkPolicy` | internal/controller/hermesagent_controller.go:678-710 | store, writes and failure are those of the step |
| `Operators.Reconciler.ReconcilePodDisruptionBudget` | internal/controller/hermesagent_controller.go:605-635 | store, writes and failure are those of the step |
| `Operators.Reconciler.ReadStatusView` | internal/controller/hermesagent_controller.go:901-997 | the early-returning reader computes the view of the cluster |
| `Operators.Reconciler.PatchStatus` | internal/controller/hermesagent_controller.go:733-758 | status, events and the log of patches are those of the report; an unchanged status is not patched |
| `Operators.Reconciler.Reconcile` | internal/controller/hermesagent_controller.go:83-178 | the program's reconcile leaves the cluster, writes, patches, events and outcome of the modelled one |

## Left out

- Base64 text with line breaks, which the decoder would skip and the encoder never produces.
- Transport errors of the API, and so the reason ReferencedInputsReadFailed, retries, conflicts and cache staleness.
- Readiness does not look at updated replicas, so Ready does not say that every pod already runs the new template.
- Shell text of the probes, security contexts, and the pod fields copied through unchanged, which stand as one opaque field.
- Manager wiring, event recorder, logging, generated deep copies, the v1alpha1 mirror, charts and manifests.
- Listing agents for a watch event: the per-agent test is modelled, the list call around it is not.
