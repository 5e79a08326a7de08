/** Whole runs: any number of agents, each with its own worker, interleaved step by step with an
    environment that may do almost anything, and with restarts of the operator. */
module Runs {
  import opened Api
  import opened Validation
  import opened References
  import opened Gate
  import opened ConfigPlan
  import opened Status
  import opened Store
  import opened Stages
  import opened Reconciliation
  import opened Ownership

  // ---- the machine --------------------------------------------------------------------------------

  /** How far the worker of one agent has got. */
  datatype Task =
    | Resting
    | Resolving(spec: AgentSpec)
    | Running(job: Job, todo: seq<Stage>)
    | Reporting(spec: AgentSpec, hash: string, change: StatusChange)

  datatype System = System(cluster: Cluster, tasks: map<string, Task>)

  datatype Actor = Operator(agent: string, now: nat) | Restart | Environment

  function TaskOf(s: System, agent: string): Task {
    if agent in s.tasks then s.tasks[agent] else Resting
  }

  datatype Moved = Moved(cluster: Cluster, task: Task)

  /** One atomic step of a worker: read and plan, resolve and gate, run one stage, read the view, or
      patch the status. */
  ghost function Advance(lib: Library, c: Cluster, agent: string, task: Task, now: nat): Moved {
    match task
    case Resting =>
      if agent !in c.agents then Moved(c, Resting)
      else
        var spec := c.agents[agent].spec;
        Moved(c, if ValidConfig(spec) then Resolving(spec) else Reporting(spec, "", ChangeFor(InvalidSpec(spec))))
    case Resolving(spec) =>
      var inputs := Resolve(spec, InputsOf(c));
      if !ValidConfig(spec) then Moved(c, Reporting(spec, "", ChangeFor(InvalidSpec(spec))))
      else if MissingInputs(inputs) != [] then Moved(c, Reporting(spec, "",
        ChangeFor(MissingReferences(MissingInputs(inputs)))))
      else Moved(c, Running(Job(agent, spec, inputs, BuildPlan(lib, agent, spec, inputs).value), PIPELINE))
    case Running(job, todo) =>
      if todo == [] then Moved(c, Reporting(job.spec, job.plan.hash, Observed(ViewStatus(c, job.agent, job.spec))))
      else
        var r := RunStage(lib, c, job, todo[0]);
        Moved(r.cluster, if r.failure.Some? then Reporting(job.spec, job.plan.hash, ChangeFor(r.failure.value))
          else Running(job, todo[1..]))
    case Reporting(spec, hash, change) =>
      Moved(Report(c, [], agent, spec, hash, change, now, Done).cluster, Resting)
  }

  // ---- without interference the small steps are one reconcile ------------------------------------

  function Distance(task: Task): nat {
    match task
    case Resting => 0
    case Reporting(_, _, _) => 1
    case Running(_, todo) => 2 + |todo|
    case Resolving(_) => 3 + |PIPELINE|
  }

  /** Let one worker finish on its own. */
  ghost function Finish(lib: Library, c: Cluster, agent: string, task: Task, now: nat): Cluster
    decreases Distance(task)
  {
    if task.Resting? then c
    else
      var m := Advance(lib, c, agent, task, now);
      Finish(lib, m.cluster, agent, m.task, now)
  }

  lemma ReportsTo(lib: Library, c: Cluster, agent: string, spec: AgentSpec, hash: string, change: StatusChange,
        now: nat, writes: seq<Write>, outcome: Outcome)
    ensures Finish(lib, c, agent, Reporting(spec, hash, change), now) ==
      Report(c, writes, agent, spec, hash, change, now, outcome).cluster
  {
    hide Patched, EventsFor;
    var m := Advance(lib, c, agent, Reporting(spec, hash, change), now);
    assert Finish(lib, m.cluster, agent, m.task, now) == m.cluster;
  }

  lemma {:induction false} FinishRunning(lib: Library, c: Cluster, job: Job, todo: seq<Stage>, now: nat)
    ensures Finish(lib, c, job.agent, Running(job, todo), now) ==
      ReportStages(RunStages(lib, c, job, todo), job, now).cluster
    decreases |todo|
  {
    hide RunStage, ViewStatus, ChangeFor, Report;
    var task, s := Running(job, todo), RunStages(lib, c, job, todo);
    var m := Advance(lib, c, job.agent, task, now);
    assert Finish(lib, c, job.agent, task, now) == Finish(lib, m.cluster, job.agent, m.task, now);
    if m.task.Running? {
      FinishRunning(lib, m.cluster, job, todo[1..], now);
      var t := RunStages(lib, m.cluster, job, todo[1..]);
      ReportIgnoresWrites(t.cluster, s.writes, t.writes, job.agent, job.spec, job.plan.hash,
        FinalChange(t, job.agent, job.spec), now, FinalOutcome(s), FinalOutcome(t));
    } else {
      ReportsTo(lib, m.cluster, job.agent, job.spec, job.plan.hash, m.task.change, now, s.writes, FinalOutcome(s));
    }
  }

  lemma ReportIgnoresWrites(c: Cluster, a: seq<Write>, b: seq<Write>, agent: string, spec: AgentSpec, hash: string,
        change: StatusChange, now: nat, x: Outcome, y: Outcome)
    ensures Report(c, a, agent, spec, hash, change, now, x).cluster ==
      Report(c, b, agent, spec, hash, change, now, y).cluster
  {
    hide Patched, EventsFor;
  }

  /** A worker left alone from its first step to its last does exactly what Reconcile does. */
  lemma AloneIsReconcile(lib: Library, c: Cluster, agent: string, now: nat)
    ensures var m := Advance(lib, c, agent, Resting, now);
      Finish(lib, m.cluster, agent, m.task, now) == Reconcile(lib, c, agent, now).cluster
  {
    if agent in c.agents {
      var spec := c.agents[agent].spec;
      var p := Prepare(lib, c, agent, spec);
      if p.Prepared? {
        var task := Resolving(spec);
        var m := Advance(lib, c, agent, task, now);
        assert m == Moved(c, Running(p.job, PIPELINE));
        assert Finish(lib, c, agent, task, now) == Finish(lib, c, agent, Running(p.job, PIPELINE), now);
        hide Prepare, RunStages, ReportStages, Resolve, MissingInputs, BuildPlan;
        FinishRunning(lib, c, p.job, PIPELINE, now);
      } else {
        hide Report;
        ReportsTo(lib, c, agent, spec, "", ChangeFor(p.failure), now, [], Done);
        if ValidConfig(spec) {
          assert Advance(lib, c, agent, Resolving(spec), now) == Moved(c, Reporting(spec, "", ChangeFor(p.failure)));
        }
      }
    }
  }

  // ---- runs ---------------------------------------------------------------------------------------------

  /** Everybody else: users, other controllers, the API server. Statuses of agents are the operator's;
      a spec edit raises the generation; a new agent has an empty status; a StatefulSet is never observed
      beyond its generation. Nothing else is assumed. */
  ghost predicate EnvStep(c: Cluster, d: Cluster) {
    && (forall n | n in d.agents && n in c.agents ::
          && d.agents[n].status == c.agents[n].status && c.agents[n].generation <= d.agents[n].generation
          && (d.agents[n].spec != c.agents[n].spec ==> c.agents[n].generation < d.agents[n].generation))
    && (forall n | n in d.agents && n !in c.agents :: d.agents[n].status == EMPTY_STATUS && d.agents[n].generation >= 0)
    && WellFormed(d)
  }

  ghost predicate Next(lib: Library, s: System, actor: Actor, t: System) {
    match actor
    case Operator(agent, now) =>
      var m := Advance(lib, s.cluster, agent, TaskOf(s, agent), now);
      t == System(m.cluster, s.tasks[agent := m.task])
    case Restart => t == System(s.cluster, map[])
    case Environment => t.tasks == s.tasks && EnvStep(s.cluster, t.cluster)
  }

  ghost predicate Init(s: System) {
    && s.tasks == map[] && WellFormed(s.cluster)
    && forall n | n in s.cluster.agents ::
      s.cluster.agents[n].status == EMPTY_STATUS && s.cluster.agents[n].generation >= 0
  }

  /** states[0], actors[0], states[1], actors[1], ... */
  ghost predicate IsRun(lib: Library, states: seq<System>, actors: seq<Actor>) {
    && |states| == |actors| + 1 && Init(states[0])
    && forall i :: 0 <= i < |actors| ==> Next(lib, states[i], actors[i], states[i + 1])
  }

  // ---- what every state of every run satisfies ----------------------------------------------------------

  ghost predicate TaskOk(agent: string, task: Task) {
    && (task.Running? ==> task.job.agent == agent && Planned(task.job))
    && (task.Reporting? ==> CoherentChange(task.change))
  }

  ghost predicate StatusesOk(c: Cluster) {
    forall n | n in c.agents :: StatusInvariant(c.agents[n].status, c.agents[n].generation)
  }

  ghost predicate Invariant(s: System) {
    && StatusesOk(s.cluster) && WellFormed(s.cluster)
    && forall n | n in s.tasks :: TaskOk(n, s.tasks[n])
  }

  lemma EmptyStatusOk(generation: int)
    requires generation >= 0
    ensures StatusInvariant(EMPTY_STATUS, generation)
  {
  }

  lemma InitInvariant(s: System)
    requires Init(s)
    ensures Invariant(s)
  {
    hide StatusInvariant;
    forall n | n in s.cluster.agents ensures StatusInvariant(s.cluster.agents[n].status,
      s.cluster.agents[n].generation) {
      EmptyStatusOk(s.cluster.agents[n].generation);
    }
  }

  lemma StatusSurvivesEdit(s: AgentStatus, before: int, after: int)
    requires StatusInvariant(s, before) && before <= after
    ensures StatusInvariant(s, after)
  {
  }

  lemma EnvKeepsStatuses(c: Cluster, d: Cluster)
    requires StatusesOk(c) && EnvStep(c, d)
    ensures StatusesOk(d)
  {
    hide StatusInvariant, WellFormed;
    forall n | n in d.agents ensures StatusInvariant(d.agents[n].status, d.agents[n].generation) {
      if n in c.agents {
        StatusSurvivesEdit(c.agents[n].status, c.agents[n].generation, d.agents[n].generation);
      } else {
        EmptyStatusOk(d.agents[n].generation);
      }
    }
  }

  lemma ReportKeepsStatuses(c: Cluster, agent: string, spec: AgentSpec, hash: string, change: StatusChange, now: nat)
    requires StatusesOk(c) && CoherentChange(change)
    ensures StatusesOk(Report(c, [], agent, spec, hash, change, now, Done).cluster)
  {
    hide StatusInvariant, Patched, EventsFor, CoherentChange;
    if agent in c.agents {
      var latest := c.agents[agent];
      ChangeKeepsInvariant(latest.status, latest.generation, latest.generation, agent, spec, hash, change, now);
    }
  }

  lemma ReportScope(c: Cluster, agent: string, spec: AgentSpec, hash: string, change: StatusChange, now: nat)
    ensures var d := Report(c, [], agent, spec, hash, change, now, Done).cluster;
      && d == c.(agents := d.agents) && Within(c.agents, d.agents, {agent})
      && (agent in c.agents ==>
        agent in d.agents && d.agents[agent].spec == c.agents[agent].spec
        && d.agents[agent].generation == c.agents[agent].generation)
  {
    hide Patched, EventsFor;
  }

  lemma AdvanceTask(lib: Library, c: Cluster, agent: string, task: Task, now: nat)
    requires TaskOk(agent, task)
    ensures TaskOk(agent, Advance(lib, c, agent, task, now).task)
  {
    hide RunStage, ViewStatus, Resolve, MissingInputs, ValidConfig, Report, CoherentView;
    if task.Running? && task.todo == [] { ViewKinds(c, task.job.agent, task.job.spec); }
  }

  lemma StageKeepsAgents(lib: Library, c: Cluster, job: Job, stage: Stage)
    ensures RunStage(lib, c, job, stage).cluster.agents == c.agents
  {
    hide GeneratedStep, ClaimStep, WorkloadStep, ServiceStep, PolicyStep, BudgetStep, DesiredStatefulSet,
      Terminal.EffectiveBackend;
  }

  lemma AdvanceKeepsStatuses(lib: Library, c: Cluster, agent: string, task: Task, now: nat)
    requires StatusesOk(c) && WellFormed(c) && TaskOk(agent, task)
    ensures var d := Advance(lib, c, agent, task, now).cluster; StatusesOk(d) && WellFormed(d)
  {
    hide RunStage, ViewStatus, Resolve, MissingInputs, ValidConfig, Report, CoherentChange, StatusInvariant,
      WellFormed, BuildPlan;
    match task
    case Running(job, todo) =>
      if todo != [] {
        StageKeepsAgents(lib, c, job, todo[0]);
        StageWellFormed(lib, c, job, todo[0]);
      }
    case Reporting(spec, hash, change) =>
      ReportKeepsStatuses(c, agent, spec, hash, change, now);
      ReportScope(c, agent, spec, hash, change, now);
      WellFormedByWorkloads(c, Advance(lib, c, agent, task, now).cluster);
    case _ =>
  }

  lemma WellFormedByWorkloads(c: Cluster, d: Cluster)
    requires d.statefulSets == c.statefulSets && WellFormed(c)
    ensures WellFormed(d)
  {
  }

  lemma NextInvariant(lib: Library, s: System, actor: Actor, t: System)
    requires Invariant(s) && Next(lib, s, actor, t)
    ensures Invariant(t)
  {
    hide StatusesOk, WellFormed, TaskOk, Advance;
    match actor
    case Operator(agent, now) =>
      var task := TaskOf(s, agent);
      assert TaskOk(agent, task) by { if agent !in s.tasks { RestingOk(agent); } }
      AdvanceTask(lib, s.cluster, agent, task, now);
      AdvanceKeepsStatuses(lib, s.cluster, agent, task, now);
    case Restart =>
    case Environment =>
      EnvKeepsStatuses(s.cluster, t.cluster);
  }

  lemma RestingOk(agent: string)
    ensures TaskOk(agent, Resting)
  {
  }

  /** The status invariant, in every state of every run. */
  lemma {:induction false} RunInvariant(lib: Library, states: seq<System>, actors: seq<Actor>, i: nat)
    requires IsRun(lib, states, actors) && i < |states|
    ensures Invariant(states[i])
  {
    hide Invariant, Next, Init;
    if i == 0 {
      InitInvariant(states[0]);
    } else {
      RunInvariant(lib, states, actors, i - 1);
      NextInvariant(lib, states[i - 1], actors[i - 1], states[i]);
    }
  }
}
