/** The API writes of a reconcile are exactly the difference it makes: no object changes without a write, and
    no write is made for an object that stays as it was. */
module Writes {
  import opened Prelude
  import opened Api
  import opened Status
  import opened ConfigPlan
  import opened Store
  import opened Stages
  import opened Reconciliation
  import opened Safety
  import Guarantees

  // ---- maps -----------------------------------------------------------------------------------------

  /** What a write says of one name of a map. */
  predicate Tells<T(==)>(before: map<string, T>, after: map<string, T>, w: Write) {
    match w.verb
    case Create => w.name !in before && w.name in after
    case Update => w.name in before && w.name in after && before[w.name] != after[w.name]
    case Delete => w.name in before && w.name !in after
  }

  ghost predicate Once(writes: seq<Write>) {
    forall i, j :: 0 <= i < j < |writes| ==> writes[i] != writes[j]
  }

  /** The step's writes are the difference it makes, in objects of this kind. */
  ghost predicate Told<T>(before: map<string, T>, r: Changed<T>, resource: Resource) {
    && Once(r.writes) && (forall w :: w in r.writes ==> w.resource == resource)
    && forall w: Write | w.resource == resource :: w in r.writes <==> Tells(before, r.store, w)
  }

  lemma NothingTold<T>(before: map<string, T>, resource: Resource, failure: Option<Failure>)
    ensures Told(before, Changed(before, [], failure), resource)
  {
  }

  lemma StoredTold<T>(before: map<string, T>, resource: Resource, name: string, controller: Option<Owner>, me: Owner,
        desired: T)
    ensures Told(before, CreateOrUpdate(before, resource, name, controller, me, desired), resource)
  {
    var r := CreateOrUpdate(before, resource, name, controller, me, desired);
    forall w: Write | w.resource == resource ensures w in r.writes <==> Tells(before, r.store, w) {
      if w.name != name { assert Lookup(r.store, w.name) == Lookup(before, w.name); }
    }
  }

  lemma DeletedTold<T>(before: map<string, T>, resource: Resource, name: string)
    requires name in before
    ensures Told(before, Deleted(before, resource, name), resource)
  {
    var r := Deleted(before, resource, name);
    forall w: Write | w.resource == resource ensures w in r.writes <==> Tells(before, r.store, w) {
      if w.name != name { assert Lookup(r.store, w.name) == Lookup(before, w.name); }
    }
  }

  lemma OptionalTold<T>(before: map<string, T>, resource: Resource, agent: string, enabled: bool,
        controller: Option<Owner>, desired: T)
    ensures Told(before, OptionalStep(before, resource, agent, enabled, controller, desired), resource)
  {
    hide Told;
    var me := AgentOwner(agent);
    if !enabled {
      if agent !in before || controller != Some(me) {
        NothingTold(before, resource, None);
      } else {
        DeletedTold(before, resource, agent);
      }
    } else if agent in before && controller != Some(me) {
      NothingTold(before, resource, Some(NotOwned(resource, agent)));
    } else {
      StoredTold(before, resource, agent, controller, me, desired);
    }
  }

  // ---- two steps on different names ----------------------------------------------------------------

  ghost predicate Confined<T>(before: map<string, T>, after: map<string, T>, names: set<string>) {
    forall n | n !in names :: Lookup(after, n) == Lookup(before, n)
  }

  lemma JoinOnce(a: seq<Write>, b: seq<Write>)
    requires Once(a) && Once(b) && forall w :: w in a ==> w !in b
    ensures Once(a + b)
  {
    forall i, j | 0 <= i < j < |a + b| ensures (a + b)[i] != (a + b)[j] {
      if i < |a| <= j { assert a[i] in a && b[j - |a|] in b; }
    }
  }

  lemma ThenTold<T>(before: map<string, T>, first: Changed<T>, second: Changed<T>, resource: Resource, a: set<string>,
        b: set<string>)
    requires Told(before, first, resource) && Told(first.store, second, resource) && a !! b
    requires Confined(before, first.store, a) && Confined(first.store, second.store, b)
    ensures Told(before, Then(first, second), resource) && Confined(before, Then(first, second).store, a + b)
  {
    if first.failure.None? {
      var r := Then(first, second);
      assert r.writes == first.writes + second.writes;
      forall w: Write | w.resource == resource
        ensures w in r.writes <==> Tells(before, r.store, w)
        ensures w in first.writes ==> w !in second.writes
      {
        assert Lookup(first.store, w.name) == Lookup(before, w.name) ||
          Lookup(second.store, w.name) == Lookup(first.store, w.name);
      }
      JoinOnce(first.writes, second.writes);
    }
  }

  // ---- the steps -----------------------------------------------------------------------------------------

  lemma InlineTold(configMaps: ConfigMaps, agent: string, file: ConfigFile)
    ensures Told(configMaps, InlineConfigMapStep(configMaps, agent, file), ConfigMapResource)
    ensures Confined(configMaps, InlineConfigMapStep(configMaps, agent, file).store, {file.configMapName})
  {
    hide GeneratedConfigMap, Told;
    var existing := Lookup(configMaps, file.configMapName);
    StoredTold(configMaps, ConfigMapResource, file.configMapName,
      if existing.Some? then existing.value.controller else None, AgentOwner(agent),
      GeneratedConfigMap(agent, file, existing));
  }

  lemma {:induction false} InlineStepsTold(configMaps: ConfigMaps, agent: string, files: seq<ConfigFile>)
    requires DistinctGenerated(files)
    ensures Told(configMaps, InlineSteps(configMaps, agent, files), ConfigMapResource)
    ensures Confined(configMaps, InlineSteps(configMaps, agent, files).store, DesiredNames(files))
    decreases |files|
  {
    hide Told, InlineConfigMapStep;
    if files == [] {
      NothingTold(configMaps, ConfigMapResource, None);
    } else {
      var rest := files[1..];
      assert forall k :: 0 <= k < |rest| ==> rest[k] == files[k + 1];
      DesiredTail(files);
      if files[0].generated {
        var first := InlineConfigMapStep(configMaps, agent, files[0]);
        InlineTold(configMaps, agent, files[0]);
        InlineStepsTold(first.store, agent, rest);
        assert files[0].configMapName !in DesiredNames(rest);
        ThenTold(configMaps, first, InlineSteps(first.store, agent, rest), ConfigMapResource, {files[0].configMapName},
          DesiredNames(rest));
        assert {files[0].configMapName} + DesiredNames(rest) == DesiredNames(files);
      } else {
        InlineStepsTold(configMaps, agent, rest);
      }
    }
  }

  lemma CleanupOneTold(configMaps: ConfigMaps, agent: string, keep: set<string>, name: string)
    ensures Told(configMaps, CleanupOne(configMaps, agent, keep, name), ConfigMapResource)
    ensures Confined(configMaps, CleanupOne(configMaps, agent, keep, name).store, {name} - keep)
  {
    hide Told;
    if name in keep || name !in configMaps || configMaps[name].controller != Some(AgentOwner(agent)) {
      NothingTold(configMaps, ConfigMapResource, None);
    } else {
      DeletedTold(configMaps, ConfigMapResource, name);
    }
  }

  lemma CleanupTold(configMaps: ConfigMaps, agent: string, keep: set<string>)
    ensures Told(configMaps, Cleanup(configMaps, agent, keep), ConfigMapResource)
    ensures Confined(configMaps, Cleanup(configMaps, agent, keep).store, GeneratedNames(agent) - keep)
  {
    hide Told, CleanupOne, Confined;
    var x, y := GeneratedConfigMapName(agent, CONFIG_ID), GeneratedConfigMapName(agent, GATEWAY_ID);
    var first := CleanupOne(configMaps, agent, keep, x);
    GeneratedNamesDiffer(agent);
    CleanupOneTold(configMaps, agent, keep, x);
    CleanupOneTold(first.store, agent, keep, y);
    ThenTold(configMaps, first, CleanupOne(first.store, agent, keep, y), ConfigMapResource, {x} - keep, {y} - keep);
    assert ({x} - keep) + ({y} - keep) == GeneratedNames(agent) - keep;
  }

  lemma GeneratedTold(configMaps: ConfigMaps, statefulSet: Option<StatefulSet>, agent: string, files: seq<ConfigFile>)
    requires DistinctGenerated(files)
    ensures Told(configMaps, GeneratedStep(configMaps, statefulSet, agent, files), ConfigMapResource)
  {
    hide Told, InlineSteps, Cleanup, DesiredNames, Confined, GeneratedNames;
    var inlined, keep := InlineSteps(configMaps, agent, files), DesiredNames(files);
    InlineStepsTold(configMaps, agent, files);
    CleanupTold(inlined.store, agent, keep);
    ThenTold(configMaps, inlined, Cleanup(inlined.store, agent, keep), ConfigMapResource, keep,
      GeneratedNames(agent) - keep);
  }

  lemma ClaimTold(lib: Library, claims: map<string, Claim>, agent: string, spec: AgentSpec)
    ensures Told(claims, ClaimStep(lib, claims, agent, spec), ClaimResource)
  {
    hide Told, ResourceLabels, DriftedFields, BuildClaim, CreateOrUpdate, ClaimName;
    var name, me, request := ClaimName(agent), AgentOwner(agent), lib.parseQuantity(PersistenceSize(spec));
    NothingTold(claims, ClaimResource, ClaimStep(lib, claims, agent, spec).failure);
    if PersistenceEnabled(spec) && request.Some? {
      if name !in claims {
        StoredTold(claims, ClaimResource, name, None, me,
          Claim(Some(me), ResourceLabels(agent), BuildClaim(spec, request.value), ClaimPending));
      } else {
        var existing := claims[name];
        StoredTold(claims, ClaimResource, name, existing.controller, me,
          existing.(labels := existing.labels + ResourceLabels(agent), spec := existing.spec.(request := request.value),
            controller := Some(me)));
      }
    }
  }

  lemma WorkloadTold(statefulSets: map<string, StatefulSet>, agent: string, desired: PodTemplate.StatefulSetSpec)
    ensures Told(statefulSets, WorkloadStep(statefulSets, agent, desired), StatefulSetResource)
  {
    hide Told, ResourceLabels, CreateOrUpdate, UpdatedStatefulSet;
    var existing := Lookup(statefulSets, agent);
    StoredTold(statefulSets, StatefulSetResource, agent,
      if existing.Some? then existing.value.controller else None, AgentOwner(agent),
      if existing.Some? then UpdatedStatefulSet(agent, desired, existing.value)
      else StatefulSet(Some(AgentOwner(agent)), ResourceLabels(agent), desired, 1, 0, 0));
  }

  lemma OptionalsTold(services: map<string, Service>, policies: map<string, Policy>, budgets: map<string, Budget>,
        agent: string, spec: AgentSpec, backend: string)
    ensures Told(services, ServiceStep(services, agent, spec), ServiceResource)
    ensures Told(policies, PolicyStep(policies, agent, spec, backend), PolicyResource)
    ensures Told(budgets, BudgetStep(budgets, agent, spec), BudgetResource)
  {
    hide Told, ResourceLabels, OptionalStep, DesiredService, Egress.BuildNetworkPolicy, BuildBudget,
      NetworkPolicyEnabled, DisruptionBudgetEnabled;
    var s, p, b := Lookup(services, agent), Lookup(policies, agent), Lookup(budgets, agent);
    OptionalTold(services, ServiceResource, agent, spec.service.enabled,
      if s.Some? then s.value.controller else None, DesiredService(agent, spec, s));
    OptionalTold(policies, PolicyResource, agent, NetworkPolicyEnabled(spec),
      if p.Some? then p.value.controller else None,
      Policy(Some(AgentOwner(agent)), (if p.Some? then p.value.labels else map[]) + ResourceLabels(agent),
        Egress.BuildNetworkPolicy(agent, spec, backend)));
    OptionalTold(budgets, BudgetResource, agent, DisruptionBudgetEnabled(spec),
      if b.Some? then b.value.controller else None,
      Budget(Some(AgentOwner(agent)), (if b.Some? then b.value.labels else map[]) + ResourceLabels(agent),
        BuildBudget(agent)));
  }

  // ---- the pipeline ----------------------------------------------------------------------------------------

  /** What a write says of two clusters. */
  predicate TrueOf(c: Cluster, d: Cluster, w: Write) {
    match w.verb
    case Create => !ExistsIn(c, w.resource, w.name) && ExistsIn(d, w.resource, w.name)
    case Update =>
      ExistsIn(c, w.resource, w.name) && ExistsIn(d, w.resource, w.name) && !SameIn(c, d, w.resource, w.name)
    case Delete => ExistsIn(c, w.resource, w.name) && !ExistsIn(d, w.resource, w.name)
  }

  function KindOf(stage: Stage): Resource {
    match stage
    case GeneratedStage => ConfigMapResource
    case ClaimStage => ClaimResource
    case WorkloadStage => StatefulSetResource
    case ServiceStage => ServiceResource
    case PolicyStage => PolicyResource
    case BudgetStage => BudgetResource
  }

  ghost predicate SameKind(c: Cluster, d: Cluster, kind: Resource) {
    forall n :: SameIn(c, d, kind, n)
  }

  lemma StageTold(lib: Library, c: Cluster, job: Job, stage: Stage, w: Write)
    requires Planned(job)
    ensures var r := RunStage(lib, c, job, stage);
      && Once(r.writes) && (w in r.writes ==> w.resource == KindOf(stage))
      && (w.resource == KindOf(stage) ==> (w in r.writes <==> TrueOf(c, r.cluster, w)))
  {
    Reconciliation.PlanShape(job.agent, job.spec);
    hide GeneratedStep, ClaimStep, WorkloadStep, ServiceStep, PolicyStep, BudgetStep, DesiredStatefulSet,
      Terminal.EffectiveBackend, PlanFiles, DistinctGenerated, DesiredNames;
    match stage
    case GeneratedStage => GeneratedTold(c.configMaps, Lookup(c.statefulSets, job.agent), job.agent, job.plan.files);
    case ClaimStage => ClaimTold(lib, c.claims, job.agent, job.spec);
    case WorkloadStage => WorkloadTold(c.statefulSets, job.agent, DesiredStatefulSet(job));
    case _ =>
      OptionalsTold(c.services, c.policies, c.budgets, job.agent, job.spec,
        Terminal.EffectiveBackend(lib, job.spec, job.inputs));
  }

  lemma StageKind(lib: Library, c: Cluster, job: Job, stage: Stage, kind: Resource)
    requires kind != KindOf(stage)
    ensures SameKind(c, RunStage(lib, c, job, stage).cluster, kind)
  {
    hide GeneratedStep, ClaimStep, WorkloadStep, ServiceStep, PolicyStep, BudgetStep, DesiredStatefulSet,
      Terminal.EffectiveBackend;
  }

  /** Steps of different kinds, each once. */
  ghost predicate Different(todo: seq<Stage>) {
    forall i, j :: 0 <= i < j < |todo| ==> todo[i] != todo[j]
  }

  lemma JoinTrue(c: Cluster, d: Cluster, e: Cluster, w: Write)
    ensures SameKind(c, d, w.resource) ==> !TrueOf(c, d, w) && (TrueOf(c, e, w) <==> TrueOf(d, e, w))
    ensures SameKind(d, e, w.resource) ==> !TrueOf(d, e, w) && (TrueOf(c, e, w) <==> TrueOf(c, d, w))
  {
    hide SameIn, ExistsIn;
    if SameKind(c, d, w.resource) { SameSwap(c, d, e, w.resource, w.name); }
    if SameKind(d, e, w.resource) { SameSwap(d, e, c, w.resource, w.name); }
  }

  lemma SameSwap(a: Cluster, b: Cluster, e: Cluster, kind: Resource, n: string)
    requires SameIn(a, b, kind, n)
    ensures (ExistsIn(a, kind, n) <==> ExistsIn(b, kind, n)) && (SameIn(a, e, kind, n) <==> SameIn(b, e, kind, n))
    ensures SameIn(e, a, kind, n) <==> SameIn(e, b, kind, n)
  {
  }

  lemma {:induction false} KindsKept(lib: Library, c: Cluster, job: Job, todo: seq<Stage>, kind: Resource)
    requires forall i :: 0 <= i < |todo| ==> KindOf(todo[i]) != kind
    ensures SameKind(c, RunStages(lib, c, job, todo).cluster, kind)
    decreases |todo|
  {
    hide RunStage, SameKind, KindOf;
    if todo == [] {
      Itself(c, kind);
    } else {
      var r := RunStage(lib, c, job, todo[0]);
      StageKind(lib, c, job, todo[0], kind);
      if r.failure.None? {
        KindsKept(lib, r.cluster, job, todo[1..], kind);
        KindTransitive(c, r.cluster, RunStages(lib, r.cluster, job, todo[1..]).cluster, kind);
      }
    }
  }

  lemma Itself(c: Cluster, kind: Resource)
    ensures SameKind(c, c, kind)
  {
  }

  lemma KindTransitive(a: Cluster, b: Cluster, c: Cluster, kind: Resource)
    requires SameKind(a, b, kind) && SameKind(b, c, kind)
    ensures SameKind(a, c, kind)
  {
    forall n ensures SameIn(a, c, kind, n) { assert SameIn(a, b, kind, n) && SameIn(b, c, kind, n); }
  }

  lemma {:induction false} StagesTold(lib: Library, c: Cluster, job: Job, todo: seq<Stage>, w: Write)
    requires Planned(job) && Different(todo)
    ensures var r := RunStages(lib, c, job, todo);
      && (w in r.writes ==> exists i :: 0 <= i < |todo| && KindOf(todo[i]) == w.resource)
      && (w in r.writes <==> TrueOf(c, r.cluster, w))
    decreases |todo|
  {
    hide RunStage, SameKind, TrueOf, KindOf, Once;
    if todo == [] {
      Itself(c, w.resource);
      JoinTrue(c, c, c, w);
    } else {
      var r, rest := RunStage(lib, c, job, todo[0]), todo[1..];
      var s := RunStages(lib, r.cluster, job, rest);
      assert forall k :: 0 <= k < |rest| ==> rest[k] == todo[k + 1];
      KindsDiffer();
      StageTold(lib, c, job, todo[0], w);
      StagesTold(lib, r.cluster, job, rest, w);
      JoinTrue(c, r.cluster, s.cluster, w);
      if w.resource == KindOf(todo[0]) {
        KindsKept(lib, r.cluster, job, rest, w.resource);
      } else {
        StageKind(lib, c, job, todo[0], w.resource);
        JoinTrue(c, r.cluster, r.cluster, w);
      }
    }
  }

  lemma KindsDiffer()
    ensures forall a, b :: a != b ==> KindOf(a) != KindOf(b)
  {
  }

  lemma {:induction false} StagesOnce(lib: Library, c: Cluster, job: Job, todo: seq<Stage>)
    requires Planned(job) && Different(todo)
    ensures Once(RunStages(lib, c, job, todo).writes)
    decreases |todo|
  {
    hide RunStage, TrueOf, KindOf, Once;
    if todo == [] {
      NoneOnce();
    } else {
      var r, rest := RunStage(lib, c, job, todo[0]), todo[1..];
      assert forall k :: 0 <= k < |rest| ==> rest[k] == todo[k + 1];
      KindsDiffer();
      StagesOnce(lib, r.cluster, job, rest);
      var s := RunStages(lib, r.cluster, job, rest);
      forall w | w in r.writes ensures w !in s.writes {
        StageTold(lib, c, job, todo[0], w);
        StagesTold(lib, r.cluster, job, rest, w);
      }
      StageTold(lib, c, job, todo[0], Write(Create, ConfigMapResource, ""));
      JoinOnce(r.writes, s.writes);
    }
  }

  lemma NoneOnce()
    ensures Once([])
  {
  }

  /** Wherever the pipeline stops, an object was created, updated or deleted exactly if the log has that write, and no
      write is in the log twice. */
  lemma PipelineTold(lib: Library, c: Cluster, job: Job, w: Write)
    requires Planned(job)
    ensures var r := RunStages(lib, c, job, PIPELINE);
      Once(r.writes) && (w in r.writes <==> TrueOf(c, r.cluster, w))
  {
    assert Different(PIPELINE);
    hide RunStages, TrueOf, Once;
    StagesTold(lib, c, job, PIPELINE, w);
    StagesOnce(lib, c, job, PIPELINE);
  }

  /** So for the whole reconcile; and the agent's status was patched exactly if it changed. */
  lemma ReconcileTold(lib: Library, c: Cluster, agent: string, now: nat, w: Write)
    ensures var r := Reconcile(lib, c, agent, now);
      && Once(r.writes) && (w in r.writes <==> TrueOf(c, r.cluster, w))
      && (r.patched <==> r.cluster.agents != c.agents)
  {
    hide TrueOf, RunStages, Report, Prepare;
    if agent !in c.agents {
      NoneOnce();
      UntouchedKinds(c, c, w);
    } else {
      var spec := c.agents[agent].spec;
      match Prepare(lib, c, agent, spec)
      case Rejected(failure) =>
        NoneOnce();
        ReportTold(c, c, [], agent, spec, "", ChangeFor(failure), now, Done, w);
        UntouchedKinds(c, c, w);
      case Prepared(job) =>
        Guarantees.PreparedJob(lib, c, agent, spec, job);
        var s := RunStages(lib, c, job, PIPELINE);
        PipelineTold(lib, c, job, w);
        PipelineFrame(lib, c, job, PIPELINE);
        ReportTold(c, s.cluster, s.writes, agent, spec, job.plan.hash, FinalChange(s, agent, spec), now,
          FinalOutcome(s), w);
    }
  }

  lemma UntouchedKinds(c: Cluster, d: Cluster, w: Write)
    requires d == c.(agents := d.agents)
    ensures !TrueOf(c, d, w)
  {
  }

  lemma ReportTold(c: Cluster, d: Cluster, writes: seq<Write>, agent: string, spec: AgentSpec, hash: string,
        change: StatusChange, now: nat, outcome: Outcome, w: Write)
    ensures var r := Report(d, writes, agent, spec, hash, change, now, outcome);
      && r.writes == writes && (r.patched <==> r.cluster.agents != d.agents)
      && (TrueOf(c, r.cluster, w) <==> TrueOf(c, d, w))
  {
    hide Patched, EventsFor;
    ReportFrame(d, writes, agent, spec, hash, change, now, outcome);
    var r := Report(d, writes, agent, spec, hash, change, now, outcome);
    assert r.patched ==> r.cluster.agents[agent].status != d.agents[agent].status;
  }
}
