/** The convergence schedule is a schedule of the machine: its environment moves are allowed ones. */
module Liveness {
  import opened Api
  import opened Admission
  import opened Gate
  import opened ConfigPlan
  import opened Status
  import opened Store
  import opened Stages
  import opened Reconciliation
  import opened Guarantees
  import opened Convergence
  import opened Runs

  /** A user stores another spec. */
  function EditSpec(c: Cluster, agent: string, spec: AgentSpec): Cluster {
    if agent !in c.agents || c.agents[agent].spec == spec then c
    else c.(agents := c.agents[agent := c.agents[agent].(spec := spec, generation := c.agents[agent].generation + 1)])
  }

  /** Binding a claim, a StatefulSet catching up and a spec edit are things the environment may do. */
  lemma ActionsAllowed(c: Cluster, agent: string, spec: AgentSpec)
    requires WellFormed(c)
    ensures EnvStep(c, BindClaim(c, agent)) && EnvStep(c, CatchUp(c, agent)) && EnvStep(c, Settle(c, agent))
      && EnvStep(c, EditSpec(c, agent, spec))
  {
    hide ClaimName, WellFormed, DesiredCount;
    QuietlyAllowed(c, BindClaim(c, agent));
    CaughtUp(c, agent);
    CaughtUp(BindClaim(c, agent), agent);
    QuietlyAllowed(c, CatchUp(c, agent));
    QuietlyAllowed(c, Settle(c, agent));
    EditAllowed(c, agent, spec);
  }

  lemma CaughtUp(c: Cluster, agent: string)
    ensures (WellFormed(c) ==> WellFormed(CatchUp(c, agent))) && CatchUp(c, agent).agents == c.agents
    ensures WellFormed(c) ==> WellFormed(BindClaim(c, agent)) && BindClaim(c, agent).agents == c.agents
  {
    hide ClaimName, DesiredCount;
  }

  lemma QuietlyAllowed(c: Cluster, d: Cluster)
    ensures d.agents == c.agents && WellFormed(d) ==> EnvStep(c, d)
  {
  }

  lemma EditAllowed(c: Cluster, agent: string, spec: AgentSpec)
    requires WellFormed(c)
    ensures EnvStep(c, EditSpec(c, agent, spec))
  {
    var d := EditSpec(c, agent, spec);
    WellFormedByWorkloads(c, d);
    hide WellFormed;
    if agent !in c.agents || c.agents[agent].spec == spec {
      QuietlyAllowed(c, d);
    } else {
      assert d.agents == c.agents[agent := Agent(c.agents[agent].generation + 1, spec, c.agents[agent].status)];
      forall n | n in d.agents ensures n in c.agents && d.agents[n].status == c.agents[n].status
        && c.agents[n].generation <= d.agents[n].generation {
        if n != agent { assert d.agents[n] == c.agents[n]; }
      }
      forall n | n in d.agents && c.agents[n].generation == d.agents[n].generation ensures d.agents[n].spec ==
        c.agents[n].spec {
        assert n != agent && d.agents[n] == c.agents[n];
      }
    }
  }

  lemma ReconcileWellFormed(lib: Library, c: Cluster, agent: string, now: nat)
    requires WellFormed(c)
    ensures WellFormed(Reconcile(lib, c, agent, now).cluster)
  {
    if agent in c.agents {
      var spec := c.agents[agent].spec;
      var p := Prepare(lib, c, agent, spec);
      hide Prepare, RunStages, Report, ViewStatus, ChangeFor, WellFormed;
      if p.Rejected? {
        ReportFrame(c, [], agent, spec, "", ChangeFor(p.failure), now, Done);
        WellFormedByWorkloads(c, Reconcile(lib, c, agent, now).cluster);
      } else {
        var s := RunStages(lib, c, p.job, PIPELINE);
        PipelineWellFormed(lib, c, p.job, PIPELINE);
        ReportFrame(s.cluster, s.writes, p.job.agent, p.job.spec, p.job.plan.hash,
          FinalChange(s, p.job.agent, p.job.spec), now, FinalOutcome(s));
        WellFormedByWorkloads(s.cluster, Reconcile(lib, c, agent, now).cluster);
      }
    }
  }

  /** Let the worker run alone, let the environment settle, let the worker run alone again: Ready. */
  lemma ScheduleReachesReady(lib: Library, p: Parsers, c: Cluster, agent: string, now: nat, later: nat)
    requires WellFormed(c) && p.quantity == lib.parseQuantity && lib.parseQuantity("10Gi").Some?
    requires agent in c.agents && Admitted(p, c.agents[agent].spec)
    requires InputsComplete(c.agents[agent].spec, InputsOf(c)) && NoGeneratedReference(agent, c.agents[agent].spec)
    requires Unobstructed(c, agent, c.agents[agent].spec)
    ensures var first := Advance(lib, c, agent, Resting, now);
      var d := Finish(lib, first.cluster, agent, first.task, now);
      var e := Settle(d, agent);
      var second := Advance(lib, e, agent, Resting, later);
      EnvStep(d, e) && StatusOf(Finish(lib, second.cluster, agent, second.task, later), agent).phase == ReadyPhase
  {
    hide Reconcile, Advance, Finish, Settle, Admitted, InputsComplete, NoGeneratedReference, Unobstructed, EnvStep,
      WellFormed, StatusOf;
    ReachesReady(lib, p, c, agent, now, later);
    var d := Reconcile(lib, c, agent, now).cluster;
    AloneIsReconcile(lib, c, agent, now);
    ReconcileWellFormed(lib, c, agent, now);
    ActionsAllowed(d, agent, c.agents[agent].spec);
    AloneIsReconcile(lib, Settle(d, agent), agent, later);
  }
}
