/** One reconcile as a whole, and what it guarantees. */
module Reconciliation {
  import opened Prelude
  import opened Api
  import opened Validation
  import opened References
  import opened Observation
  import opened Gate
  import opened ConfigPlan
  import opened Status
  import opened Store
  import opened Stages

  // ---- reading the status view ---------------------------------------------------------------

  function DesiredCount(s: StatefulSet): int {
    if s.spec.replicas.Some? then s.spec.replicas.value else 1
  }

  function WaitingView(persistence: Setting, phase: Phase, what: Awaited): StatusView {
    StatusView(0, false, persistence,
      Setting(WorkloadReady, ConditionFalse, WaitingForPersistence, Awaiting(what)),
      Setting(Overall, ConditionFalse, persistence.reason, persistence.message), phase)
  }

  function PendingView(bound: bool, persistence: Setting, ready: int, reason: Reason, message: Message): StatusView {
    StatusView(ready, bound, persistence,
      Setting(WorkloadReady, ConditionFalse, reason, message), Setting(Overall, ConditionFalse, reason, message),
        WorkloadPending)
  }

  function WorkloadView(statefulSet: Option<StatefulSet>, bound: bool, persistence: Setting): StatusView {
    match statefulSet
    case None => PendingView(bound, persistence, 0, StatefulSetMissing, Fixed)
    case Some(s) =>
      if s.readyReplicas >= DesiredCount(s) && s.observedGeneration >= s.generation then
        StatusView(s.readyReplicas, bound, persistence,
          Setting(WorkloadReady, ConditionTrue, StatefulSetReady, ReplicaCount(s.readyReplicas, DesiredCount(s))),
          Setting(Overall, ConditionTrue, Ready, Fixed), ReadyPhase)
      else if s.observedGeneration < s.generation then
        PendingView(bound, persistence, s.readyReplicas, StatefulSetRolloutPending,
          RolloutLag(s.observedGeneration, s.generation))
      else
        PendingView(bound, persistence, s.readyReplicas, StatefulSetWaitingForReadyReplicas,
          ReplicaCount(s.readyReplicas, DesiredCount(s)))
  }

  function ViewStatus(c: Cluster, agent: string, spec: AgentSpec): StatusView {
    var statefulSet := Lookup(c.statefulSets, agent);
    if !PersistenceEnabled(spec) then
      WorkloadView(statefulSet, false, Setting(PersistenceReady, ConditionTrue, PersistenceDisabled, Fixed))
    else
      match Lookup(c.claims, ClaimName(agent))
      case None =>
        WaitingView(Setting(PersistenceReady, ConditionFalse, PersistentVolumeClaimMissing, OfClaim(ClaimName(agent))),
          StoragePending, ClaimToBeCreated)
      case Some(claim) =>
        match claim.phase
        case ClaimBound =>
          WorkloadView(statefulSet, true, Setting(PersistenceReady, ConditionTrue, PersistentVolumeClaimBound,
            OfClaim(ClaimName(agent))))
        case ClaimLost =>
          WaitingView(Setting(PersistenceReady, ConditionFalse, PersistentVolumeClaimLost, OfClaim(ClaimName(agent))),
            StorageErrorPhase, ClaimToBind)
        case ClaimPending =>
          WaitingView(Setting(PersistenceReady, ConditionFalse, PersistentVolumeClaimPending,
            OfClaim(ClaimName(agent))), StoragePending, ClaimToBind)
  }

  // ---- one reconcile -------------------------------------------------------------------------------

  datatype Outcome = Done | Requeue(failure: Failure)

  datatype Result = Result(cluster: Cluster, writes: seq<Write>, patched: bool, events: seq<Event>, outcome: Outcome)

  /** Which part of the status a failure is reported under. */
  function ChangeFor(failure: Failure): StatusChange {
    match failure
    case InvalidConfig(_) => ConfigFailure(InvalidConfigReason, failure)
    case MissingReferences(_) => ConfigFailure(MissingReferencedInput, failure)
    case BadQuantity(_) => PersistenceFailure(failure)
    case SpecDrift(_, _) => PersistenceFailure(failure)
    case _ =>
      match failure.resource
      case ConfigMapResource => ConfigFailure(ConfigMapReconcileFailed, failure)
      case ClaimResource => PersistenceFailure(failure)
      case StatefulSetResource => WorkloadFailure(StatefulSetReconcileFailed, failure)
      case ServiceResource => WorkloadFailure(ServiceReconcileFailed, failure)
      case PolicyResource => WorkloadFailure(NetworkPolicyReconcileFailed, failure)
      case BudgetResource => WorkloadFailure(PodDisruptionBudgetReconcileFailed, failure)
  }

  datatype Preparation = Rejected(failure: Failure) | Prepared(job: Job)

  /** How an invalid spec is refused: by its first problem. */
  ghost function InvalidSpec(spec: AgentSpec): Failure
    requires !ValidConfig(spec)
  {
    ConfigProblemExact(spec);
    InvalidConfig(ConfigProblem(spec).value)
  }

  /** Plan, resolve, gate, plan again. */
  ghost function Prepare(lib: Library, c: Cluster, agent: string, spec: AgentSpec): Preparation {
    var inputs := Resolve(spec, InputsOf(c));
    if !ValidConfig(spec) then Rejected(InvalidSpec(spec))
    else if MissingInputs(inputs) != [] then Rejected(MissingReferences(MissingInputs(inputs)))
    else Prepared(Job(agent, spec, inputs, BuildPlan(lib, agent, spec, inputs).value))
  }

  /** patchStatus: the latest stored agent gets the change unless its status already shows it. */
  function Report(c: Cluster, writes: seq<Write>, agent: string, spec: AgentSpec, hash: string, change: StatusChange,
        now: nat, outcome: Outcome): Result {
    if agent !in c.agents then Result(c, writes, false, [], outcome)
    else
      var latest := c.agents[agent];
      var status := Patched(latest.status, latest.generation, agent, spec, hash, change, now);
      if status == latest.status then Result(c, writes, false, [], outcome)
      else Result(c.(agents := c.agents[agent := latest.(status := status)]), writes, true,
        EventsFor(latest.status, status), outcome)
  }

  function FinalChange(r: StageResult, agent: string, spec: AgentSpec): StatusChange {
    if r.failure.Some? then ChangeFor(r.failure.value) else Observed(ViewStatus(r.cluster, agent, spec))
  }

  function FinalOutcome(r: StageResult): Outcome {
    if r.failure.Some? then Requeue(r.failure.value) else Done
  }

  function ReportStages(s: StageResult, job: Job, now: nat): Result {
    Report(s.cluster, s.writes, job.agent, job.spec, job.plan.hash, FinalChange(s, job.agent, job.spec), now,
      FinalOutcome(s))
  }

  ghost function Reconcile(lib: Library, c: Cluster, agent: string, now: nat): Result {
    if agent !in c.agents then Result(c, [], false, [], Done)
    else
      var spec := c.agents[agent].spec;
      match Prepare(lib, c, agent, spec)
      case Rejected(failure) => Report(c, [], agent, spec, "", ChangeFor(failure), now, Done)
      case Prepared(job) =>
        ReportStages(RunStages(lib, c, job, PIPELINE), job, now)
  }

  // ---- plans ---------------------------------------------------------------------------------------

  lemma PlanShape(agent: string, spec: AgentSpec)
    ensures DistinctGenerated(PlanFiles(agent, spec))
    ensures DesiredNames(PlanFiles(agent, spec)) <= GeneratedNames(agent)
  {
    GeneratedNamesDiffer(agent);
  }

  ghost predicate Planned(job: Job) {
    job.plan.files == PlanFiles(job.agent, job.spec)
  }

  // ---- what the pipeline leaves alone ----------------------------------------------------------------

  lemma {:induction false} InlineOnlyDesired(configMaps: ConfigMaps, agent: string, files: seq<ConfigFile>, n: string)
    requires n !in DesiredNames(files)
    ensures Lookup(InlineSteps(configMaps, agent, files).store, n) == Lookup(configMaps, n)
    decreases |files|
  {
    if files != [] {
      DesiredTail(files);
      InlineOnlyDesired(if files[0].generated then InlineConfigMapStep(configMaps, agent, files[0]).store
        else configMaps, agent, files[1..], n);
    }
  }

  lemma GeneratedOnly(configMaps: ConfigMaps, statefulSet: Option<StatefulSet>, agent: string, spec: AgentSpec,
        n: string)
    requires n !in GeneratedNames(agent)
    ensures Lookup(GeneratedStep(configMaps, statefulSet, agent, PlanFiles(agent, spec)).store, n) ==
      Lookup(configMaps, n)
  {
    var files := PlanFiles(agent, spec);
    PlanShape(agent, spec);
    InlineOnlyDesired(configMaps, agent, files, n);
    CleanupSettles(InlineSteps(configMaps, agent, files).store, agent, DesiredNames(files));
  }

  ghost predicate Framed(agent: string, c: Cluster, d: Cluster) {
    && d.agents == c.agents && d.secrets == c.secrets
    && forall n | n !in GeneratedNames(agent) :: Lookup(d.configMaps, n) == Lookup(c.configMaps, n)
  }

  lemma StageFrame(lib: Library, c: Cluster, job: Job, stage: Stage)
    requires Planned(job)
    ensures Framed(job.agent, c, RunStage(lib, c, job, stage).cluster)
  {
    if stage == GeneratedStage {
      forall n | n !in GeneratedNames(job.agent) ensures Lookup(RunStage(lib, c, job, stage).cluster.configMaps, n) ==
        Lookup(c.configMaps, n) {
        GeneratedOnly(c.configMaps, Lookup(c.statefulSets, job.agent), job.agent, job.spec, n);
      }
    }
  }

  /** Only ConfigMaps of the agent's own generated names change; Secrets and agents never do. */
  lemma {:induction false} PipelineFrame(lib: Library, c: Cluster, job: Job, todo: seq<Stage>)
    requires Planned(job)
    ensures Framed(job.agent, c, RunStages(lib, c, job, todo).cluster)
    decreases |todo|
  {
    if todo != [] {
      StageFrame(lib, c, job, todo[0]);
      PipelineFrame(lib, RunStage(lib, c, job, todo[0]).cluster, job, todo[1..]);
    }
  }

  lemma SameInputsAfter(lib: Library, c: Cluster, job: Job, todo: seq<Stage>)
    requires Planned(job) && NoGeneratedReference(job.agent, job.spec)
    ensures Resolve(job.spec, InputsOf(RunStages(lib, c, job, todo).cluster)) == Resolve(job.spec, InputsOf(c))
  {
    PipelineFrame(lib, c, job, todo);
    MatchedDeterminesInputs(job.spec, InputsOf(RunStages(lib, c, job, todo).cluster), InputsOf(c));
  }

  lemma StageIgnoresAgents(lib: Library, c: Cluster, agents: map<string, Agent>, job: Job, stage: Stage)
    ensures var r := RunStage(lib, c, job, stage);
      RunStage(lib, c.(agents := agents), job, stage) == StageResult(r.cluster.(agents := agents), r.writes, r.failure)
  {
  }

  lemma {:induction false} AgentsIrrelevant(lib: Library, c: Cluster, agents: map<string, Agent>, job: Job,
        todo: seq<Stage>)
    ensures var r := RunStages(lib, c, job, todo);
      RunStages(lib, c.(agents := agents), job, todo) == StageResult(r.cluster.(agents := agents), r.writes, r.failure)
    decreases |todo|
  {
    if todo != [] {
      StageIgnoresAgents(lib, c, agents, job, todo[0]);
      AgentsIrrelevant(lib, RunStage(lib, c, job, todo[0]).cluster, agents, job, todo[1..]);
    }
  }

  // ---- fixpoint ----------------------------------------------------------------------------------------

  lemma WorkloadViewCoherent(statefulSet: Option<StatefulSet>, bound: bool, persistence: Setting)
    requires persistence.kind == PersistenceReady && persistence.status == ConditionTrue
    ensures var view := WorkloadView(statefulSet, bound, persistence); WellKinded(Observed(view)) && CoherentView(view)
  {
  }

  lemma WaitingViewCoherent(persistence: Setting, phase: Phase, what: Awaited)
    requires persistence.kind == PersistenceReady && persistence.status == ConditionFalse && phase != ReadyPhase
    ensures var view := WaitingView(persistence, phase, what); WellKinded(Observed(view)) && CoherentView(view)
  {
  }

  lemma ViewKinds(c: Cluster, agent: string, spec: AgentSpec)
    ensures WellKinded(Observed(ViewStatus(c, agent, spec))) && CoherentView(ViewStatus(c, agent, spec))
  {
    hide WellKinded, CoherentView, ClaimName;
    var view := ViewStatus(c, agent, spec);
    var claim := Lookup(c.claims, ClaimName(agent));
    if !PersistenceEnabled(spec) || (claim.Some? && claim.value.phase == ClaimBound) {
      WorkloadViewCoherent(Lookup(c.statefulSets, agent), view.persistenceBound, view.persistence);
    } else {
      WaitingViewCoherent(view.persistence, view.phase, if claim.None? then ClaimToBeCreated else ClaimToBind);
    }
  }

  /** Reporting the same change again patches nothing and emits nothing, at any later time. */
  lemma ReportAbsorbed(c: Cluster, writes: seq<Write>, agent: string, spec: AgentSpec, hash: string,
        change: StatusChange, now: nat, later: nat, outcome: Outcome)
    requires WellKinded(change)
    ensures var r := Report(c, writes, agent, spec, hash, change, now, outcome);
      Report(r.cluster, [], agent, spec, hash, change, later, outcome) == Result(r.cluster, [], false, [], outcome)
  {
    if agent in c.agents {
      hide Mutated, EventsFor;
      var latest := c.agents[agent];
      ChangeAbsorbed(latest.status, latest.generation, agent, spec, hash, change, now, later);
    }
  }

  lemma ReportFrame(c: Cluster, writes: seq<Write>, agent: string, spec: AgentSpec, hash: string, change: StatusChange,
        now: nat, outcome: Outcome)
    ensures var r := Report(c, writes, agent, spec, hash, change, now, outcome);
      && r.cluster == c.(agents := r.cluster.agents)
      && r.cluster.agents.Keys == c.agents.Keys
      && (agent in c.agents ==> r.cluster.agents[agent].spec == c.agents[agent].spec)
  {
    hide Patched, EventsFor;
    var r := Report(c, writes, agent, spec, hash, change, now, outcome);
    if agent in c.agents && r.patched {
      var latest := c.agents[agent];
      var agents := c.agents[agent := latest.(status := Patched(latest.status, latest.generation, agent, spec, hash,
        change, now))];
      assert r.cluster == c.(agents := agents);
      assert agents.Keys == c.agents.Keys + {agent};
    } else {
      assert r.cluster == c;
    }
  }

  lemma RejectedFixpoint(lib: Library, c: Cluster, agent: string, now: nat, later: nat, failure: Failure)
    requires agent in c.agents && Prepare(lib, c, agent, c.agents[agent].spec) == Rejected(failure)
    ensures var r := Reconcile(lib, c, agent, now);
      Reconcile(lib, r.cluster, agent, later) == Result(r.cluster, [], false, [], r.outcome)
  {
    hide RunStages, ReportStages, Resolve, MissingInputs, ValidConfig, BuildPlan;
    var spec, change := c.agents[agent].spec, ChangeFor(failure);
    ReportFrame(c, [], agent, spec, "", change, now, Done);
    ReportAbsorbed(c, [], agent, spec, "", change, now, later, Done);
    var d := Reconcile(lib, c, agent, now).cluster;
    assert d == Report(c, [], agent, spec, "", change, now, Done).cluster;
    assert Prepare(lib, d, agent, spec) == Rejected(failure) by { assert InputsOf(d) == InputsOf(c); }
    hide Report, Prepare, ChangeFor;
  }

  /** Reconciling again with nothing happening in between writes nothing, patches nothing, emits no
      event and ends the same way: on success and at every kind of failure. */
  lemma ReconcileFixpoint(lib: Library, c: Cluster, agent: string, now: nat, later: nat)
    requires WellFormed(c)
    requires agent in c.agents ==> NoGeneratedReference(agent, c.agents[agent].spec)
    ensures var r := Reconcile(lib, c, agent, now);
      Reconcile(lib, r.cluster, agent, later) == Result(r.cluster, [], false, [], r.outcome)
  {
    if agent in c.agents {
      var p := Prepare(lib, c, agent, c.agents[agent].spec);
      if p.Rejected? {
        RejectedFixpoint(lib, c, agent, now, later, p.failure);
      } else {
        hide Reconcile, Prepare;
        PreparedFixpoint(lib, c, agent, now, later, p.job);
      }
    }
  }

  lemma PipelineOrdered()
    ensures InOrder(PIPELINE)
  {
  }

  /** The pipeline, run again after the report, is idle. */
  lemma PipelineIdleAgain(lib: Library, c: Cluster, job: Job, agents: map<string, Agent>)
    requires WellFormed(c) && Planned(job)
    ensures var s := RunStages(lib, c, job, PIPELINE);
      RunStages(lib, s.cluster.(agents := agents), job, PIPELINE) ==
        StageResult(s.cluster.(agents := agents), [], s.failure)
  {
    hide RunStages, WellFormed, DistinctGenerated, DesiredNames, GeneratedNames, InOrder;
    PipelineOrdered();
    PlanShape(job.agent, job.spec);
    PipelineSettles(lib, c, job, PIPELINE);
    var d := RunStages(lib, c, job, PIPELINE).cluster;
    AgentsIrrelevant(lib, d, agents, job, PIPELINE);
  }

  /** The second reconcile prepares the same job. */
  lemma PreparedAgain(lib: Library, c: Cluster, job: Job, agents: map<string, Agent>)
    requires Planned(job) && NoGeneratedReference(job.agent, job.spec)
    requires Prepare(lib, c, job.agent, job.spec) == Prepared(job)
    ensures Prepare(lib, RunStages(lib, c, job, PIPELINE).cluster.(agents := agents), job.agent, job.spec) ==
      Prepared(job)
  {
    SameInputsAfter(lib, c, job, PIPELINE);
  }

  /** Idle stages and an absorbed report make an idle reconcile. */
  lemma IdleReconcile(lib: Library, c: Cluster, job: Job, failure: Option<Failure>, now: nat)
    requires job.agent in c.agents && c.agents[job.agent].spec == job.spec
    ensures var report := ReportStages(StageResult(c, [], failure), job, now);
      && Prepare(lib, c, job.agent, job.spec) == Prepared(job)
      && RunStages(lib, c, job, PIPELINE) == StageResult(c, [], failure)
      && report.cluster == c && !report.patched ==>
        Reconcile(lib, c, job.agent, now) == Result(c, [], false, [], FinalOutcome(StageResult(c, [], failure)))
  {
    hide RunStages, Prepare, Patched, FinalChange;
  }

  lemma FinalChangeIgnoresAgents(s: StageResult, agents: map<string, Agent>, agent: string, spec: AgentSpec)
    ensures FinalChange(StageResult(s.cluster.(agents := agents), [], s.failure), agent, spec) ==
      FinalChange(s, agent, spec)
  {
  }

  lemma StagesReportAbsorbed(s: StageResult, job: Job, now: nat, later: nat)
    ensures var c := ReportStages(s, job, now).cluster;
      var again := ReportStages(StageResult(c, [], s.failure), job, later);
      again.cluster == c && !again.patched
  {
    var change := FinalChange(s, job.agent, job.spec);
    ViewKinds(s.cluster, job.agent, job.spec);
    ReportFrame(s.cluster, s.writes, job.agent, job.spec, job.plan.hash, change, now, FinalOutcome(s));
    ReportAbsorbed(s.cluster, s.writes, job.agent, job.spec, job.plan.hash, change, now, later, FinalOutcome(s));
    FinalChangeIgnoresAgents(s, ReportStages(s, job, now).cluster.agents, job.agent, job.spec);
  }

  lemma PreparedFixpoint(lib: Library, c: Cluster, agent: string, now: nat, later: nat, job: Job)
    requires WellFormed(c) && agent in c.agents && NoGeneratedReference(agent, c.agents[agent].spec)
    requires Prepare(lib, c, agent, c.agents[agent].spec) == Prepared(job)
    ensures var r := Reconcile(lib, c, agent, now);
      Reconcile(lib, r.cluster, agent, later) == Result(r.cluster, [], false, [], r.outcome)
  {
    var spec, s := c.agents[agent].spec, RunStages(lib, c, job, PIPELINE);
    var r := ReportStages(s, job, now);
    assert Planned(job) && job.agent == agent && job.spec == spec;
    assert Reconcile(lib, c, agent, now) == r;
    PipelineFrame(lib, c, job, PIPELINE);
    ReportFrame(s.cluster, s.writes, agent, spec, job.plan.hash, FinalChange(s, agent, spec), now, FinalOutcome(s));
    assert r.outcome == FinalOutcome(s);
    hide Prepare, RunStages, Reconcile, Report, FinalChange, FinalOutcome, Planned;
    PipelineIdleAgain(lib, c, job, r.cluster.agents);
    PreparedAgain(lib, c, job, r.cluster.agents);
    StagesReportAbsorbed(s, job, now, later);
    IdleReconcile(lib, r.cluster, job, s.failure, later);
  }
}
