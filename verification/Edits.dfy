/** What an edit in the middle of a reconcile can and cannot do, over whole runs. */
module Edits {
  import opened Prelude
  import opened Api
  import opened Validation
  import opened References
  import opened Gate
  import opened ConfigPlan
  import opened Status
  import opened Store
  import opened Stages
  import opened Claims
  import opened Reconciliation
  import opened Runs
  import Guarantees
  import Liveness
  import Safety

  // ---- generations -----------------------------------------------------------------------------------

  /** The worker acts on this spec. */
  predicate ActsOn(task: Task, spec: AgentSpec) {
    match task
    case Resting => false
    case Resolving(s) => s == spec
    case Running(job, _) => job.spec == spec
    case Reporting(s, _, _) => s == spec
  }

  lemma AdvanceActsOn(lib: Library, c: Cluster, agent: string, task: Task, now: nat, spec: AgentSpec)
    ensures var after := Advance(lib, c, agent, task, now).task;
      && (ActsOn(task, spec) && !after.Resting? ==> ActsOn(after, spec))
      && (task.Resting? && agent in c.agents ==> ActsOn(after, c.agents[agent].spec))
  {
    hide RunStage, ViewStatus, Resolve, MissingInputs, ValidConfig, Report, ChangeFor, BuildPlan;
  }

  /** Between the step that read the agent at i and state k its worker has kept going. */
  ghost predicate SameReconcile(states: seq<System>, agent: string, i: nat, k: nat)
    requires k < |states|
  {
    forall m :: i < m <= k ==> !TaskOf(states[m], agent).Resting?
  }

  lemma {:induction false} ReadSpecKept(lib: Library, states: seq<System>, actors: seq<Actor>, agent: string, i: nat,
        k: nat)
    requires IsRun(lib, states, actors) && i < k < |states| && SameReconcile(states, agent, i, k)
    requires actors[i].Operator? && actors[i].agent == agent && TaskOf(states[i], agent).Resting?
      && agent in states[i].cluster.agents
    ensures ActsOn(TaskOf(states[k], agent), states[i].cluster.agents[agent].spec)
    decreases k
  {
    hide Init, Advance, EnvStep, ActsOn;
    var spec, s, actor, t := states[i].cluster.agents[agent].spec, states[k - 1], actors[k - 1], states[k];
    assert Next(lib, s, actor, t) && !TaskOf(t, agent).Resting?;
    hide IsRun;
    if actor.Operator? && actor.agent == agent {
      AdvanceActsOn(lib, s.cluster, agent, TaskOf(s, agent), actor.now, spec);
    }
    if i < k - 1 { ReadSpecKept(lib, states, actors, agent, i, k - 1); }
  }

  /** No step of the operator changes the spec or the generation of any agent. */
  lemma WorkerKeepsSpecs(lib: Library, s: System, actor: Actor, t: System, n: string)
    requires Next(lib, s, actor, t) && !actor.Environment? && n in s.cluster.agents
    ensures n in t.cluster.agents && t.cluster.agents[n].spec == s.cluster.agents[n].spec
      && t.cluster.agents[n].generation == s.cluster.agents[n].generation
  {
    hide RunStage, Report, Resolve, MissingInputs, ValidConfig, BuildPlan, ViewStatus, ChangeFor;
    if actor.Operator? {
      match TaskOf(s, actor.agent)
      case Running(job, todo) => if todo != [] { StageKeepsAgents(lib, s.cluster, job, todo[0]); }
      case Reporting(spec, hash, change) =>
        ReportScope(s.cluster, actor.agent, spec, hash, change, actor.now);
        assert n != actor.agent ==> Lookup(t.cluster.agents, n) == Lookup(s.cluster.agents, n);
      case _ =>
    }
  }

  lemma StepTells(lib: Library, s: System, actor: Actor, t: System, n: string)
    requires Next(lib, s, actor, t) && n in s.cluster.agents && n in t.cluster.agents
    ensures var before, after := s.cluster.agents[n], t.cluster.agents[n];
      before.generation <= after.generation && (before.generation == after.generation ==> before.spec == after.spec)
  {
    if !actor.Environment? { WorkerKeepsSpecs(lib, s, actor, t, n); }
    hide Advance, WellFormed;
  }

  ghost predicate Present(states: seq<System>, agent: string, i: nat, j: nat)
    requires j < |states|
  {
    forall k :: i <= k <= j ==> agent in states[k].cluster.agents
  }

  function SpecAt(states: seq<System>, agent: string, k: nat): AgentSpec
    requires k < |states| && agent in states[k].cluster.agents
  {
    states[k].cluster.agents[agent].spec
  }

  function GenerationAt(states: seq<System>, agent: string, k: nat): int
    requires k < |states| && agent in states[k].cluster.agents
  {
    states[k].cluster.agents[agent].generation
  }

  /** The spec is the same in all states from i to j. */
  ghost predicate Unedited(states: seq<System>, agent: string, i: nat, j: nat)
    requires i <= j < |states| && Present(states, agent, i, j)
  {
    forall k :: i <= k <= j ==> SpecAt(states, agent, k) == SpecAt(states, agent, i)
  }

  /** From i to j the generation rises at edits only. */
  ghost predicate RisesByEdits(states: seq<System>, agent: string, i: nat, j: nat)
    requires i <= j < |states| && Present(states, agent, i, j)
  {
    forall k :: i <= k < j && SpecAt(states, agent, k) == SpecAt(states, agent, k + 1) ==>
      GenerationAt(states, agent, k) == GenerationAt(states, agent, k + 1)
  }

  /** While the agent exists its generation never falls, is the same again only if the spec was never edited, and,
      where edits alone raise it, whenever the spec was never edited. */
  lemma {:induction false} GenerationTells(lib: Library, states: seq<System>, actors: seq<Actor>, agent: string,
        i: nat, j: nat)
    requires IsRun(lib, states, actors) && i <= j < |states| && Present(states, agent, i, j)
    ensures GenerationAt(states, agent, i) <= GenerationAt(states, agent, j)
    ensures GenerationAt(states, agent, i) == GenerationAt(states, agent, j) ==> Unedited(states, agent, i, j)
    ensures RisesByEdits(states, agent, i, j) && Unedited(states, agent, i, j) ==>
      GenerationAt(states, agent, i) == GenerationAt(states, agent, j)
    decreases j
  {
    hide Init, Next;
    if i < j {
      GenerationTells(lib, states, actors, agent, i, j - 1);
      assert Next(lib, states[j - 1], actors[j - 1], states[j]);
      hide IsRun;
      StepTells(lib, states[j - 1], actors[j - 1], states[j], agent);
      if Unedited(states, agent, i, j - 1) && SpecAt(states, agent, j - 1) == SpecAt(states, agent, j) {
        assert Unedited(states, agent, i, j);
      }
      if Unedited(states, agent, i, j) {
        assert SpecAt(states, agent, j - 1) == SpecAt(states, agent, i) == SpecAt(states, agent, j);
      }
    }
  }

  /** Over any run: a reconcile acts on the spec it read, whatever happens before its report, and stamps the generation
      it finds at the report. That is the generation it read exactly if no edit came between. */
  lemma StampExact(lib: Library, states: seq<System>, actors: seq<Actor>, agent: string, i: nat, j: nat)
    requires IsRun(lib, states, actors) && i < j < |actors| && SameReconcile(states, agent, i, j)
    requires actors[i].Operator? && actors[i].agent == agent && TaskOf(states[i], agent).Resting?
    requires actors[j].Operator? && actors[j].agent == agent && TaskOf(states[j], agent).Reporting?
    requires Present(states, agent, i, j)
    ensures TaskOf(states[j], agent).spec == SpecAt(states, agent, i)
    ensures agent in states[j + 1].cluster.agents
    ensures var stamp := states[j + 1].cluster.agents[agent].status.observedGeneration;
      && stamp == GenerationAt(states, agent, j) == GenerationAt(states, agent, j + 1)
      && GenerationAt(states, agent, i) <= stamp
      && (stamp == GenerationAt(states, agent, i) ==> Unedited(states, agent, i, j))
      && (RisesByEdits(states, agent, i, j) ==>
        (stamp == GenerationAt(states, agent, i) <==> Unedited(states, agent, i, j)))
  {
    ReadSpecKept(lib, states, actors, agent, i, j);
    GenerationTells(lib, states, actors, agent, i, j);
    assert Next(lib, states[j], actors[j], states[j + 1]);
    var task, c := TaskOf(states[j], agent), states[j].cluster;
    hide IsRun, SameReconcile, Report, Unedited, RisesByEdits;
    assert states[j + 1].cluster == Report(c, [], agent, task.spec, task.hash, task.change, actors[j].now,
      Done).cluster;
    ReportScope(c, agent, task.spec, task.hash, task.change, actors[j].now);
    Guarantees.ReportedFields(c, [], agent, task.spec, task.hash, task.change, actors[j].now, Done);
  }

  // ---- an edit between two steps of a worker --------------------------------------------------------

  function Edited(s: System, agent: string, spec: AgentSpec): System {
    s.(cluster := Liveness.EditSpec(s.cluster, agent, spec))
  }

  ghost function Stepped(lib: Library, s: System, agent: string, now: nat): System {
    var m := Advance(lib, s.cluster, agent, TaskOf(s, agent), now);
    System(m.cluster, s.tasks[agent := m.task])
  }

  lemma ExtendRun(lib: Library, states: seq<System>, actors: seq<Actor>, actor: Actor, t: System)
    requires IsRun(lib, states, actors) && Next(lib, states[|actors|], actor, t)
    ensures IsRun(lib, states + [t], actors + [actor])
  {
    hide Next, Init;
    var more, acts := states + [t], actors + [actor];
    forall k | 0 <= k < |acts| ensures Next(lib, more[k], acts[k], more[k + 1]) {
      if k < |actors| { assert Next(lib, states[k], actors[k], states[k + 1]); }
    }
  }

  /** A user may edit a spec in any state of any run. */
  lemma EditAnyTime(lib: Library, states: seq<System>, actors: seq<Actor>, agent: string, spec: AgentSpec)
    requires IsRun(lib, states, actors)
    ensures IsRun(lib, states + [Edited(states[|actors|], agent, spec)], actors + [Environment])
  {
    RunInvariant(lib, states, actors, |actors|);
    Liveness.EditAllowed(states[|actors|].cluster, agent, spec);
    hide IsRun, EnvStep, Liveness.EditSpec;
    ExtendRun(lib, states, actors, Environment, Edited(states[|actors|], agent, spec));
  }

  /** The stamp can name a spec nobody acted on: from every state of every run in which a worker is about to report, an
      edit to any other spec leads to a status that names the new generation, written for the old spec. */
  lemma EditBeforeReport(lib: Library, states: seq<System>, actors: seq<Actor>, agent: string, spec: AgentSpec,
        now: nat)
    requires IsRun(lib, states, actors)
    requires var s := states[|actors|];
      agent in s.cluster.agents && TaskOf(s, agent).Reporting? && spec != s.cluster.agents[agent].spec
    ensures var s := states[|actors|];
      var t := Edited(s, agent, spec);
      var u := Stepped(lib, t, agent, now);
      && IsRun(lib, states + [t] + [u], actors + [Environment] + [Operator(agent, now)])
      && TaskOf(t, agent) == TaskOf(s, agent)
      && agent in u.cluster.agents && u.cluster.agents[agent].spec == spec
      && s.cluster.agents[agent].generation < u.cluster.agents[agent].generation
        == u.cluster.agents[agent].status.observedGeneration
  {
    var t := Edited(states[|actors|], agent, spec);
    var task, c := TaskOf(t, agent), t.cluster;
    EditAnyTime(lib, states, actors, agent, spec);
    hide IsRun, Report;
    ReportScope(c, agent, task.spec, task.hash, task.change, now);
    Guarantees.ReportedFields(c, [], agent, task.spec, task.hash, task.change, now, Done);
    hide Advance, Liveness.EditSpec;
    ExtendRun(lib, states + [t], actors + [Environment], Operator(agent, now), Stepped(lib, t, agent, now));
  }

  /** A moved generation does not mean another spec: an edit can be taken back. */
  lemma EditTakenBack(lib: Library, states: seq<System>, actors: seq<Actor>, agent: string, spec: AgentSpec)
    requires IsRun(lib, states, actors)
    requires var s := states[|actors|]; agent in s.cluster.agents && spec != s.cluster.agents[agent].spec
    ensures var s := states[|actors|];
      var t := Edited(s, agent, spec);
      var u := Edited(t, agent, s.cluster.agents[agent].spec);
      && IsRun(lib, states + [t] + [u], actors + [Environment] + [Environment])
      && agent in u.cluster.agents && u.cluster.agents[agent].spec == s.cluster.agents[agent].spec
      && s.cluster.agents[agent].generation < u.cluster.agents[agent].generation
  {
    var s := states[|actors|];
    EditAnyTime(lib, states, actors, agent, spec);
    EditAnyTime(lib, states + [Edited(s, agent, spec)], actors + [Environment], agent, s.cluster.agents[agent].spec);
  }

  // ---- a claim created for a spec that is gone ------------------------------------------------------

  /** The worker of the agent is about to create its claim. */
  ghost predicate CreatesClaim(lib: Library, s: System, agent: string) {
    var task := TaskOf(s, agent);
    && task.Running? && task.todo != [] && task.todo[0] == ClaimStage
    && PersistenceEnabled(task.job.spec) && lib.parseQuantity(PersistenceSize(task.job.spec)).Some?
    && ClaimName(agent) !in s.cluster.claims
  }

  /** The claim such a step creates has the access modes and the storage class of the spec the worker read. */
  lemma ClaimCreated(lib: Library, s: System, agent: string, now: nat, t: System)
    requires Invariant(s) && Next(lib, s, Operator(agent, now), t) && CreatesClaim(lib, s, agent)
    ensures ClaimName(agent) in t.cluster.claims
    ensures var read, claim := TaskOf(s, agent).job.spec, t.cluster.claims[ClaimName(agent)];
      && claim.spec.accessModes ==
        (if read.persistence.accessModes == [] then ["ReadWriteOnce"] else read.persistence.accessModes)
      && claim.spec.storageClassName == read.persistence.storageClassName
  {
    hide GeneratedStep, WorkloadStep, ServiceStep, PolicyStep, BudgetStep, DesiredStatefulSet,
      Terminal.EffectiveBackend, ResourceLabels, ClaimName, Planned, StatusesOk, WellFormed, CoherentChange, Resolve,
      MissingInputs, ValidConfig, BuildPlan, ViewStatus, ChangeFor, Report, DriftedFields;
    var task := TaskOf(s, agent);
    assert TaskOk(agent, s.tasks[agent]) && task.job.agent == agent;
    assert t.cluster == RunStage(lib, s.cluster, task.job, ClaimStage).cluster;
  }

  /** A claim created for a spec read before an edit decides for good: in every later state, as long as nobody else
      touches its storage settings, the step for a spec fails with drift exactly if that spec wants other storage than
      the spec read, and then the whole pipeline fails. */
  lemma StaleClaimForGood(lib: Library, states: seq<System>, actors: seq<Actor>, i: nat, j: nat, agent: string,
        job: Job)
    requires IsRun(lib, states, actors) && i < j < |states| && job.agent == agent
    requires actors[i].Operator? && actors[i].agent == agent && CreatesClaim(lib, states[i], agent)
    requires forall k :: i < k < j && actors[k].Environment? ==>
      Safety.StorageKept(states[k].cluster, states[k + 1].cluster, ClaimName(agent))
    ensures var read, failure := TaskOf(states[i], agent).job.spec,
        ClaimStep(lib, states[j].cluster.claims, agent, job.spec).failure;
      var request := lib.parseQuantity(PersistenceSize(read)).value;
      var drifts := PersistenceEnabled(job.spec) && lib.parseQuantity(PersistenceSize(job.spec)).Some?
        && !SameStorage(job.spec, BuildClaim(read, request));
      && (failure.Some? && failure.value.SpecDrift? <==> drifts)
      && (drifts ==> RunStages(lib, states[j].cluster, job, PIPELINE).failure.Some?)
  {
    hide Init, ClaimName, ClaimStep, RunStages, Advance, Guarantees.AfterAll, PersistenceEnabled, PersistenceSize,
      ModesAsked;
    RunInvariant(lib, states, actors, i);
    assert Next(lib, states[i], actors[i], states[i + 1]);
    ClaimCreated(lib, states[i], agent, actors[i].now, states[i + 1]);
    Safety.ClaimsSurvive(lib, states, actors, i + 1, j, ClaimName(agent));
    hide IsRun, Next, Invariant;
    DriftReported(lib, states[j].cluster.claims, agent, job.spec);
    Guarantees.PipelineIndependent(lib, states[j].cluster, job);
  }
}
