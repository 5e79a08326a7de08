/** What the status says after a reconcile, in terms of the claim, the StatefulSet and the spec themselves, and
    which events announce it. */
module Views {
  import opened Prelude
  import opened Api
  import opened Gate
  import opened ConfigPlan
  import opened References
  import opened Status
  import opened Store
  import opened Announcements
  import opened Reconciliation
  import opened Guarantees
  import opened Serving
  import Missing
  import Deployment
  import Claims

  // ---- the state of the cluster -----------------------------------------------------------------------

  predicate Persistent(spec: AgentSpec) { spec.persistence.enabled != Some(false) }

  predicate ClaimIs(c: Cluster, agent: string, phase: ClaimPhase) {
    agent + "-data" in c.claims && c.claims[agent + "-data"].phase == phase
  }

  /** The claim is what keeps the agent from running. */
  predicate StorageWaits(c: Cluster, agent: string, spec: AgentSpec) {
    Persistent(spec) && !ClaimIs(c, agent, ClaimBound)
  }

  predicate Lagging(s: StatefulSet) { s.observedGeneration < s.generation }

  predicate Short(s: StatefulSet) {
    (s.spec.replicas.Some? && s.readyReplicas < s.spec.replicas.value) || (s.spec.replicas.None? && s.readyReplicas < 1)
  }

  // ---- the view of it -------------------------------------------------------------------------------------

  /** Storage: each state of the claim has its own phase, reason and condition status. */
  ghost predicate StorageViewed(v: StatusView, c: Cluster, agent: string, spec: AgentSpec) {
    && (v.phase == StorageErrorPhase <==> Persistent(spec) && ClaimIs(c, agent, ClaimLost))
    && (v.phase == StoragePending <==>
        Persistent(spec) && (agent + "-data" !in c.claims || ClaimIs(c, agent, ClaimPending)))
    && (v.persistence.reason == PersistenceDisabled <==> !Persistent(spec))
    && (v.persistence.reason == PersistentVolumeClaimMissing <==> Persistent(spec) && agent + "-data" !in c.claims)
    && (v.persistence.reason == PersistentVolumeClaimPending <==> Persistent(spec) && ClaimIs(c, agent, ClaimPending))
    && (v.persistence.reason == PersistentVolumeClaimLost <==> Persistent(spec) && ClaimIs(c, agent, ClaimLost))
    && (v.persistence.reason == PersistentVolumeClaimBound <==> Persistent(spec) && ClaimIs(c, agent, ClaimBound))
    && v.persistence.kind == PersistenceReady && v.workload.kind == WorkloadReady && v.overall.kind == Overall
    && (v.persistence.status == ConditionTrue <==> !StorageWaits(c, agent, spec))
    && (v.persistence.status == ConditionFalse <==> StorageWaits(c, agent, spec))
    && v.persistence.message == (if Persistent(spec) then OfClaim(agent + "-data") else Fixed)
    && (v.persistenceBound <==> Persistent(spec) && ClaimIs(c, agent, ClaimBound))
  }

  /** While storage waits the workload waits too, and the agent is not ready for the reason of its storage. */
  ghost predicate WaitingViewed(v: StatusView, c: Cluster, agent: string, spec: AgentSpec) {
    StorageWaits(c, agent, spec) ==>
      && v.workload.status == ConditionFalse && v.workload.reason == WaitingForPersistence
      && v.workload.message == Awaiting(if agent + "-data" in c.claims then ClaimToBind else ClaimToBeCreated)
      && v.overall.status == ConditionFalse
      && v.overall.reason == v.persistence.reason && v.overall.message == v.persistence.message
      && v.readyReplicas == 0
  }

  /** Otherwise the StatefulSet decides: missing, not rolled out, short of replicas, or ready. */
  ghost predicate WorkloadViewed(v: StatusView, c: Cluster, agent: string, spec: AgentSpec) {
    !StorageWaits(c, agent, spec) ==>
      var s := Lookup(c.statefulSets, agent);
      && (v.workload.reason == StatefulSetMissing <==> s.None?)
      && (v.workload.reason == StatefulSetRolloutPending <==> s.Some? && Lagging(s.value))
      && (v.workload.reason == StatefulSetWaitingForReadyReplicas <==>
          s.Some? && !Lagging(s.value) && Short(s.value))
      && (v.workload.reason == StatefulSetReady <==> s.Some? && !Lagging(s.value) && !Short(s.value))
      && v.readyReplicas == (if s.Some? then s.value.readyReplicas else 0)
      && (v.phase == ReadyPhase <==> v.workload.reason == StatefulSetReady)
      && (v.phase == WorkloadPending <==> v.workload.reason != StatefulSetReady)
      && (v.workload.status == ConditionTrue <==> v.phase == ReadyPhase)
      && (v.workload.status == ConditionFalse <==> v.phase == WorkloadPending)
      && v.overall.status == v.workload.status
      && (v.phase == ReadyPhase ==> v.overall.reason == Ready && v.overall.message == Fixed)
      && (v.phase == WorkloadPending ==>
          v.overall.reason == v.workload.reason && v.overall.message == v.workload.message)
      && (v.workload.reason == StatefulSetMissing ==> v.workload.message == Fixed)
      && (v.workload.reason == StatefulSetRolloutPending ==>
          v.workload.message == RolloutLag(s.value.observedGeneration, s.value.generation))
      && (v.workload.reason == StatefulSetWaitingForReadyReplicas || v.workload.reason == StatefulSetReady ==>
          v.workload.message.ReplicaCount? && v.workload.message.ready == s.value.readyReplicas
          && (v.workload.message.ready < v.workload.message.desired <==> Short(s.value)))
  }

  ghost predicate Viewed(v: StatusView, c: Cluster, agent: string, spec: AgentSpec) {
    StorageViewed(v, c, agent, spec) && WaitingViewed(v, c, agent, spec) && WorkloadViewed(v, c, agent, spec)
  }

  /** For every cluster and spec the view is fixed by the claim's phase, by generations and by replicas. */
  lemma ViewExact(c: Cluster, agent: string, spec: AgentSpec)
    ensures Viewed(ViewStatus(c, agent, spec), c, agent, spec)
  {
    hide StorageViewed, WaitingViewed, WorkloadViewed;
    assert StorageViewed(ViewStatus(c, agent, spec), c, agent, spec) by { StorageView(c, agent, spec); }
    assert WaitingViewed(ViewStatus(c, agent, spec), c, agent, spec) by { WaitingForStorage(c, agent, spec); }
    assert WorkloadViewed(ViewStatus(c, agent, spec), c, agent, spec) by { WorkloadDecides(c, agent, spec); }
  }

  lemma StorageView(c: Cluster, agent: string, spec: AgentSpec)
    ensures StorageViewed(ViewStatus(c, agent, spec), c, agent, spec)
  {
  }

  lemma WaitingForStorage(c: Cluster, agent: string, spec: AgentSpec)
    ensures WaitingViewed(ViewStatus(c, agent, spec), c, agent, spec)
  {
  }

  lemma WorkloadDecides(c: Cluster, agent: string, spec: AgentSpec)
    ensures WorkloadViewed(ViewStatus(c, agent, spec), c, agent, spec)
  {
  }

  // ---- the status that is stored ------------------------------------------------------------------------------

  /** The condition, whenever it was set and for whatever generation. */
  function SettingIn(s: AgentStatus, kind: ConditionType): Setting {
    match Find(s.conditions, kind)
    case None => Setting(kind, ConditionUnknown, NoReason, Fixed)
    case Some(c) => Setting(kind, c.status, c.reason, c.message)
  }

  function ViewIn(s: AgentStatus): StatusView {
    StatusView(s.readyReplicas, s.persistenceBound, SettingIn(s, PersistenceReady), SettingIn(s, WorkloadReady),
      SettingIn(s, Overall), s.phase)
  }

  lemma ReportedStatus(c: Cluster, writes: seq<Write>, agent: string, spec: AgentSpec, hash: string,
        change: StatusChange, now: nat, outcome: Outcome)
    requires agent in c.agents
    ensures var r := Report(c, writes, agent, spec, hash, change, now, outcome);
      && agent in r.cluster.agents && r.cluster == c.(agents := r.cluster.agents)
      && r.cluster.agents[agent].status ==
        Patched(c.agents[agent].status, c.agents[agent].generation, agent, spec, hash, change, now)
      && r.events == if r.cluster.agents[agent].status == c.agents[agent].status then []
        else EventsFor(c.agents[agent].status, r.cluster.agents[agent].status)
  {
    hide Patched, EventsFor;
    ReportFrame(c, writes, agent, spec, hash, change, now, outcome);
    var latest, r := c.agents[agent], Report(c, writes, agent, spec, hash, change, now, outcome);
    var status := Patched(latest.status, latest.generation, agent, spec, hash, change, now);
    if status != latest.status {
      assert r.cluster.agents == c.agents[agent := latest.(status := status)];
    }
  }

  lemma ShownSetting(t: AgentStatus, setting: Setting, generation: int)
    requires Shows(t.conditions, setting, generation)
    ensures SettingIn(t, setting.kind) == setting && Displays(t, setting)
  {
    hide Find;
  }

  lemma ObservedStatus(s: AgentStatus, generation: int, agent: string, spec: AgentSpec, hash: string, view: StatusView,
        now: nat)
    requires WellKinded(Observed(view))
    ensures var t := Patched(s, generation, agent, spec, hash, Observed(view), now);
      && ShowsAll(t, Observed(view), generation)
      && ViewIn(t) == view && SettingIn(t, ConfigReady) == CONFIG_RECONCILED
  {
    var change := Observed(view);
    var t := Patched(s, generation, agent, spec, hash, change, now);
    PatchShows(s, generation, agent, spec, hash, change, now);
    ObservedNumbers(s, generation, agent, spec, hash, view, now);
    hide Patched, Find, Shows;
    var settings := Settings(change);
    forall i | 0 <= i < 4 ensures Shows(t.conditions, settings[i], generation) {}
    ShownSetting(t, settings[0], generation);
    ShownSetting(t, settings[1], generation);
    ShownSetting(t, settings[2], generation);
    ShownSetting(t, settings[3], generation);
  }

  lemma ObservedNumbers(s: AgentStatus, generation: int, agent: string, spec: AgentSpec, hash: string, view: StatusView,
        now: nat)
    ensures var t := Patched(s, generation, agent, spec, hash, Observed(view), now);
      t.readyReplicas == view.readyReplicas && t.persistenceBound == view.persistenceBound && t.phase == view.phase
  {
    hide SetAll, Settings, HermesImage, ClaimName, PersistenceEnabled;
  }

  /** A view of the same claims and workloads is the same view. */
  lemma SameView(c: Cluster, d: Cluster, agent: string, spec: AgentSpec)
    requires c.claims == d.claims && c.statefulSets == d.statefulSets
    ensures ViewStatus(c, agent, spec) == ViewStatus(d, agent, spec)
  {
    hide WorkloadView, ClaimName;
  }

  /** The status a reconcile without error stores and the events it emits, given its view. */
  lemma DoneReport(lib: Library, c: Cluster, agent: string, job: Job, now: nat)
    requires agent in c.agents && Prepare(lib, c, agent, c.agents[agent].spec) == Prepared(job)
    requires Reconcile(lib, c, agent, now).outcome == Done
    ensures var r := Reconcile(lib, c, agent, now);
      var before, after := c.agents[agent].status, StatusOf(r.cluster, agent);
      var view := ViewStatus(r.cluster, agent, job.spec);
      && agent in r.cluster.agents && r.cluster == AfterAll(lib, c, job).(agents := r.cluster.agents)
      && after == Patched(before, c.agents[agent].generation, agent, job.spec, job.plan.hash, Observed(view), now)
      && r.events == if after == before then [] else EventsFor(before, after)
  {
    hide Reconcile, RunStages, Prepare, AllSucceed, AfterAll, ViewStatus, GeneratedNames, Report, Patched, EventsFor;
    PreparedJob(lib, c, agent, c.agents[agent].spec, job);
    PreparedReconcile(lib, c, agent, job, now);
    PipelineIndependent(lib, c, job);
    PipelineFrame(lib, c, job, PIPELINE);
    PreparedOutcome(lib, c, agent, job, now);
    var s := RunStages(lib, c, job, PIPELINE);
    var change := Observed(ViewStatus(s.cluster, agent, job.spec));
    assert FinalChange(s, agent, job.spec) == change;
    ReportedStatus(s.cluster, s.writes, agent, job.spec, job.plan.hash, change, now, Done);
    var d := Reconcile(lib, c, agent, now).cluster;
    SameView(s.cluster, d, agent, job.spec);
  }

  /** After every reconcile without error that reached the steps the stored status says of storage and workload what the
      stored claim and StatefulSet are, and of the configuration that it is in place. */
  lemma StatusExact(lib: Library, c: Cluster, agent: string, now: nat)
    requires agent in c.agents
    ensures var spec := c.agents[agent].spec;
      var r := Reconcile(lib, c, agent, now);
      Prepare(lib, c, agent, spec).Prepared? && r.outcome == Done ==>
        && Viewed(ViewIn(StatusOf(r.cluster, agent)), r.cluster, agent, spec)
        && SettingIn(StatusOf(r.cluster, agent), ConfigReady) ==
          Setting(ConfigReady, ConditionTrue, ConfigReconciled, Fixed)
  {
    hide Reconcile, Prepare, AfterAll, ViewStatus, Viewed, Patched, SettingIn;
    var spec, r := c.agents[agent].spec, Reconcile(lib, c, agent, now);
    var p := Prepare(lib, c, agent, spec);
    if p.Prepared? && r.outcome == Done {
      PreparedJob(lib, c, agent, spec, p.job);
      DoneReport(lib, c, agent, p.job, now);
      ViewExact(r.cluster, agent, spec);
      ViewKinds(r.cluster, agent, spec);
      ObservedStatus(c.agents[agent].status, c.agents[agent].generation, agent, spec, p.job.plan.hash,
        ViewStatus(r.cluster, agent, spec), now);
    }
  }

  // ---- the names in the status --------------------------------------------------------------------------------

  /** The status names the image the stored pods run, the claim they mount and the Service in front of them, or none. */
  lemma NamesExact(lib: Library, c: Cluster, agent: string, now: nat)
    requires agent in c.agents
    ensures var spec := c.agents[agent].spec;
      var r := Reconcile(lib, c, agent, now);
      var d, s := r.cluster, StatusOf(r.cluster, agent);
      Prepare(lib, c, agent, spec).Prepared? && r.outcome == Done ==>
        && agent in d.statefulSets && s.image == d.statefulSets[agent].spec.template.pod.image
        && (Persistent(spec) ==> s.claimName == agent + "-data" && s.claimName in d.claims)
        && (!Persistent(spec) ==> s.claimName == "")
        && (spec.service.enabled ==> s.serviceName == agent && s.serviceName in d.services)
        && (!spec.service.enabled ==> s.serviceName == "")
        && s.driftedFields == [] && s.remediation == ""
  {
    hide Reconcile, Prepare, AfterAll, ViewStatus, Patched, AllSucceed;
    var spec, r := c.agents[agent].spec, Reconcile(lib, c, agent, now);
    var p := Prepare(lib, c, agent, spec);
    if p.Prepared? && r.outcome == Done {
      PreparedJob(lib, c, agent, spec, p.job);
      PreparedOutcome(lib, c, agent, p.job, now);
      DoneReport(lib, c, agent, p.job, now);
      PopulatedNames(c.agents[agent].status, c.agents[agent].generation, agent, spec, p.job.plan.hash,
        Observed(ViewStatus(r.cluster, agent, spec)), now);
      StoredNames(lib, c, p.job);
      StoredParts(lib, c, p.job);
    }
  }

  lemma PopulatedNames(s: AgentStatus, generation: int, agent: string, spec: AgentSpec, hash: string,
        change: StatusChange, now: nat)
    requires change.Observed?
    ensures var t := Patched(s, generation, agent, spec, hash, change, now);
      && t.image == HermesImage(spec.image) && t.driftedFields == [] && t.remediation == ""
      && t.claimName == (if Persistent(spec) then agent + "-data" else "")
      && t.serviceName == (if spec.service.enabled then agent else "")
  {
    hide SetAll, Settings, HermesImage;
  }

  lemma StoredParts(lib: Library, c: Cluster, job: Job)
    ensures var d := AfterAll(lib, c, job);
      d.claims == ClaimOf(lib, c, job).store && d.statefulSets == WorkloadOf(c, job).store
      && d.services == ServiceOf(c, job).store
  {
    hide GeneratedOf, ClaimOf, WorkloadOf, ServiceOf, PolicyOf, BudgetOf;
  }

  lemma StoredNames(lib: Library, c: Cluster, job: Job)
    requires AllSucceed(lib, c, job)
    ensures var after := WorkloadOf(c, job).store;
      job.agent in after && after[job.agent].spec.template.pod.image == HermesImage(job.spec.image)
    ensures Persistent(job.spec) ==> job.agent + "-data" in ClaimOf(lib, c, job).store
    ensures job.spec.service.enabled ==> job.agent in ServiceOf(c, job).store
  {
    WorkloadStored(c.statefulSets, job.agent, DesiredStatefulSet(job));
    DesiredImage(job);
    Claims.ClaimExact(lib, c.claims, job.agent, job.spec);
    hide GeneratedOf, WorkloadStep, ClaimStep, PolicyOf, BudgetOf, DesiredStatefulSet, DesiredService;
  }

  lemma DesiredImage(job: Job)
    ensures DesiredStatefulSet(job).template.pod.image == HermesImage(job.spec.image)
  {
    hide HermesImage;
  }

  // ---- what is announced --------------------------------------------------------------------------------------

  /** A condition that the earlier status did not display is announced with its reason and message; the workload's is
      left out where it only repeats news of the storage. */
  function AnnouncedFor(before: AgentStatus, after: AgentStatus): seq<Event> {
    var storage, workload := SettingIn(after, PersistenceReady), SettingIn(after, WorkloadReady);
    var news := !Displays(before, storage);
    (if news then [Announcement(storage)] else [])
    + (if !Displays(before, workload) && !(news && workload.reason == WaitingForPersistence)
       then [Announcement(workload)] else [])
  }

  /** A reconcile without error announces exactly what changed about storage and workload, recoveries included. */
  lemma DoneAnnounced(lib: Library, c: Cluster, agent: string, now: nat)
    requires agent in c.agents
    ensures var r := Reconcile(lib, c, agent, now);
      Prepare(lib, c, agent, c.agents[agent].spec).Prepared? && r.outcome == Done ==>
        r.events == AnnouncedFor(c.agents[agent].status, StatusOf(r.cluster, agent))
  {
    hide Reconcile, Prepare, AfterAll, ViewStatus, Patched, AnnouncedFor, EventsFor;
    var spec, r := c.agents[agent].spec, Reconcile(lib, c, agent, now);
    var p := Prepare(lib, c, agent, spec);
    if p.Prepared? && r.outcome == Done {
      PreparedJob(lib, c, agent, spec, p.job);
      DoneReport(lib, c, agent, p.job, now);
      var view := ViewStatus(r.cluster, agent, spec);
      ViewKinds(r.cluster, agent, spec);
      ViewReasons(r.cluster, agent, spec);
      ObservedStatus(c.agents[agent].status, c.agents[agent].generation, agent, spec, p.job.plan.hash, view, now);
      ViewNews(c.agents[agent].status, StatusOf(r.cluster, agent), view, c.agents[agent].generation);
    }
  }

  lemma ViewReasons(c: Cluster, agent: string, spec: AgentSpec)
    ensures var v := ViewStatus(c, agent, spec);
      && v.persistence.reason != NoReason && v.persistence.reason != Unknown
      && v.workload.reason != NoReason && v.workload.reason != Unknown
  {
  }

  lemma ViewNews(s: AgentStatus, t: AgentStatus, view: StatusView, generation: int)
    requires WellKinded(Observed(view)) && ShowsAll(t, Observed(view), generation)
    requires view.persistence.reason != NoReason && view.persistence.reason != Unknown
    requires view.workload.reason != NoReason && view.workload.reason != Unknown
    ensures (if t == s then [] else EventsFor(s, t)) == AnnouncedFor(s, t)
  {
    var settings := Settings(Observed(view));
    forall i | 0 <= i < 3 ensures Shows(t.conditions, settings[i], generation) && settings[i].reason != NoReason {}
    assert !IsWarning(settings[0].reason);
    ShownSetting(t, settings[1], generation);
    ShownSetting(t, settings[2], generation);
    assert settings[1] == view.persistence && settings[2] == view.workload && settings[0].kind == ConfigReady;
    hide Displays, TransitionEvent, Shows, Settings, IsWarning, SettingIn;
    News(s, t, settings[0], generation);
    News(s, t, view.persistence, generation);
    News(s, t, view.workload, generation);
  }

  lemma NewsMembers(before: AgentStatus, after: AgentStatus)
    requires SettingIn(after, PersistenceReady).reason != SettingIn(after, WorkloadReady).reason
    ensures var storage, workload, events :=
        SettingIn(after, PersistenceReady), SettingIn(after, WorkloadReady), AnnouncedFor(before, after);
      && (Announcement(storage) in events <==> !Displays(before, storage))
      && (workload.reason != WaitingForPersistence ==>
          (Announcement(workload) in events <==> !Displays(before, workload)))
  {
    hide Displays, SettingIn, IsWarning;
  }

  /** What a view says of a claim that is lost, and of one that is bound. */
  lemma ClaimViewed(v: StatusView, c: Cluster, agent: string, spec: AgentSpec)
    requires Viewed(v, c, agent, spec) && Persistent(spec)
    ensures ClaimIs(c, agent, ClaimLost) ==>
      && v.phase == StorageErrorPhase && v.workload.reason == WaitingForPersistence
      && v.persistence ==
        Setting(PersistenceReady, ConditionFalse, PersistentVolumeClaimLost, OfClaim(agent + "-data"))
    ensures ClaimIs(c, agent, ClaimBound) ==>
      && v.persistence ==
        Setting(PersistenceReady, ConditionTrue, PersistentVolumeClaimBound, OfClaim(agent + "-data"))
      && v.workload.reason != WaitingForPersistence && v.workload.reason != PersistentVolumeClaimBound
      && (v.phase == ReadyPhase ==> v.workload.reason == StatefulSetReady)
  {
  }

  lemma DoneViewed(lib: Library, c: Cluster, agent: string, now: nat)
    requires agent in c.agents && Persistent(c.agents[agent].spec) && agent + "-data" in c.claims
    requires Prepare(lib, c, agent, c.agents[agent].spec).Prepared? && Reconcile(lib, c, agent, now).outcome == Done
    ensures var r := Reconcile(lib, c, agent, now);
      var after := StatusOf(r.cluster, agent);
      && r.events == AnnouncedFor(c.agents[agent].status, after)
      && Viewed(ViewIn(after), r.cluster, agent, c.agents[agent].spec)
      && agent + "-data" in r.cluster.claims
      && r.cluster.claims[agent + "-data"].phase == c.claims[agent + "-data"].phase
  {
    hide Reconcile, Prepare, AfterAll, AnnouncedFor, ViewIn, Viewed, Patched, EventsFor, ViewStatus;
    var spec := c.agents[agent].spec;
    var p := Prepare(lib, c, agent, spec);
    PreparedJob(lib, c, agent, spec, p.job);
    DoneReport(lib, c, agent, p.job, now);
    ClaimPhaseKept(lib, c, agent, p.job);
    StatusExact(lib, c, agent, now);
    DoneAnnounced(lib, c, agent, now);
  }

  /** The claim of a persistent agent was lost: StorageError, with one Warning unless the status already said so. */
  lemma LostClaimAnnounced(lib: Library, c: Cluster, agent: string, now: nat)
    requires agent in c.agents && Persistent(c.agents[agent].spec) && ClaimIs(c, agent, ClaimLost)
    ensures var r := Reconcile(lib, c, agent, now);
      var setting := Setting(PersistenceReady, ConditionFalse, PersistentVolumeClaimLost, OfClaim(agent + "-data"));
      Prepare(lib, c, agent, c.agents[agent].spec).Prepared? && r.outcome == Done ==>
        && StatusOf(r.cluster, agent).phase == StorageErrorPhase
        && SettingIn(StatusOf(r.cluster, agent), PersistenceReady) == setting
        && (Event(Warning, PersistentVolumeClaimLost, OfClaim(agent + "-data")) in r.events <==>
            !Displays(c.agents[agent].status, setting))
  {
    hide Reconcile, Prepare, Displays, SettingIn, Viewed, AnnouncedFor;
    var spec, r := c.agents[agent].spec, Reconcile(lib, c, agent, now);
    if Prepare(lib, c, agent, spec).Prepared? && r.outcome == Done {
      var after := StatusOf(r.cluster, agent);
      DoneViewed(lib, c, agent, now);
      ClaimViewed(ViewIn(after), r.cluster, agent, spec);
      NewsMembers(c.agents[agent].status, after);
    }
  }

  lemma ClaimPhaseKept(lib: Library, c: Cluster, agent: string, job: Job)
    requires job.agent == agent && agent + "-data" in c.claims
    ensures var d := AfterAll(lib, c, job);
      agent + "-data" in d.claims && d.claims[agent + "-data"].phase == c.claims[agent + "-data"].phase
  {
    StoredParts(lib, c, job);
    hide AfterAll, ClaimStep;
    Claims.ClaimStepSafe(lib, c.claims, agent, job.spec, agent + "-data");
  }

  /** Recovery: a claim that is bound now, or a StatefulSet that is ready now, is announced as Normal exactly if the
      status did not already say so. */
  lemma RecoveryAnnounced(lib: Library, c: Cluster, agent: string, now: nat)
    requires agent in c.agents && Persistent(c.agents[agent].spec) && ClaimIs(c, agent, ClaimBound)
    ensures var r := Reconcile(lib, c, agent, now);
      var before, after := c.agents[agent].status, StatusOf(r.cluster, agent);
      var bound := Setting(PersistenceReady, ConditionTrue, PersistentVolumeClaimBound, OfClaim(agent + "-data"));
      Prepare(lib, c, agent, c.agents[agent].spec).Prepared? && r.outcome == Done ==>
        && (Event(Normal, PersistentVolumeClaimBound, OfClaim(agent + "-data")) in r.events <==>
            !Displays(before, bound))
        && (after.phase == ReadyPhase ==>
            (Event(Normal, StatefulSetReady, SettingIn(after, WorkloadReady).message) in r.events <==>
             !Displays(before, SettingIn(after, WorkloadReady))))
  {
    hide Reconcile, Prepare, Displays, SettingIn, Viewed, AnnouncedFor;
    var spec, r := c.agents[agent].spec, Reconcile(lib, c, agent, now);
    if Prepare(lib, c, agent, spec).Prepared? && r.outcome == Done {
      var after := StatusOf(r.cluster, agent);
      DoneViewed(lib, c, agent, now);
      ClaimViewed(ViewIn(after), r.cluster, agent, spec);
      NewsMembers(c.agents[agent].status, after);
    }
  }

  // ---- what a failure leaves in the status --------------------------------------------------------------------

  predicate OfResource(f: Failure, resource: Resource) { (f.AlreadyOwned? || f.NotOwned?) && f.resource == resource }

  predicate ConfigFault(f: Failure) { f.InvalidConfig? || f.MissingReferences? || OfResource(f, ConfigMapResource) }

  predicate StorageFault(f: Failure) { f.BadQuantity? || f.SpecDrift? || OfResource(f, ClaimResource) }

  predicate Failed(s: AgentStatus, kind: ConditionType, reason: Reason, f: Failure) {
    && SettingIn(s, kind) == Setting(kind, ConditionFalse, reason, Cause(f))
    && SettingIn(s, Overall).status == ConditionFalse && SettingIn(s, Overall).reason == reason
  }

  predicate ConfigFine(s: AgentStatus) {
    SettingIn(s, ConfigReady) == Setting(ConfigReady, ConditionTrue, ConfigReconciled, Fixed)
  }

  /** A configuration failure: nothing is known of the rest. */
  predicate ConfigFailed(s: AgentStatus, f: Failure) {
    && s.phase == ConfigErrorPhase && s.readyReplicas == 0 && !s.persistenceBound
    && s.driftedFields == [] && s.remediation == ""
    && SettingIn(s, PersistenceReady) == Setting(PersistenceReady, ConditionUnknown, Unknown, Fixed)
    && SettingIn(s, WorkloadReady) == Setting(WorkloadReady, ConditionUnknown, Unknown, Fixed)
    && (f.InvalidConfig? ==> Failed(s, ConfigReady, InvalidConfigReason, f))
    && (f.MissingReferences? ==> Failed(s, ConfigReady, MissingReferencedInput, f))
    && (OfResource(f, ConfigMapResource) ==> Failed(s, ConfigReady, ConfigMapReconcileFailed, f))
  }

  /** A storage failure: drift names the fields and leaves the workload alone, anything else makes it wait. */
  predicate StorageFailed(s: AgentStatus, f: Failure) {
    && s.phase == StorageErrorPhase && s.readyReplicas == 0 && !s.persistenceBound && ConfigFine(s)
    && (f.SpecDrift? ==>
        && s.driftedFields == f.fields && s.remediation == f.claim
        && Failed(s, PersistenceReady, PersistentVolumeClaimSpecDrift, f)
        && SettingIn(s, WorkloadReady) ==
          Setting(WorkloadReady, ConditionUnknown, PersistentVolumeClaimSpecDrift, Fixed))
    && (!f.SpecDrift? ==>
        && s.driftedFields == [] && s.remediation == ""
        && Failed(s, PersistenceReady, PersistentVolumeClaimReconcileFailed, f)
        && SettingIn(s, WorkloadReady) ==
          Setting(WorkloadReady, ConditionFalse, WaitingForPersistence, Awaiting(ClaimToReconcile)))
  }

  /** A workload failure: what was said of the storage stays. */
  predicate WorkloadFailed(before: AgentStatus, s: AgentStatus, f: Failure) {
    && s.phase == WorkloadErrorPhase && s.readyReplicas == 0 && ConfigFine(s)
    && s.driftedFields == [] && s.remediation == ""
    && s.persistenceBound == before.persistenceBound
    && SettingIn(s, PersistenceReady) == SettingIn(before, PersistenceReady)
    && (OfResource(f, StatefulSetResource) ==> Failed(s, WorkloadReady, StatefulSetReconcileFailed, f))
    && (OfResource(f, ServiceResource) ==> Failed(s, WorkloadReady, ServiceReconcileFailed, f))
    && (OfResource(f, PolicyResource) ==> Failed(s, WorkloadReady, NetworkPolicyReconcileFailed, f))
    && (OfResource(f, BudgetResource) ==> Failed(s, WorkloadReady, PodDisruptionBudgetReconcileFailed, f))
  }

  predicate FailureSaid(before: AgentStatus, after: AgentStatus, f: Failure) {
    if ConfigFault(f) then ConfigFailed(after, f)
    else if StorageFault(f) then StorageFailed(after, f)
    else WorkloadFailed(before, after, f)
  }

  lemma FailureNumbers(s: AgentStatus, generation: int, agent: string, spec: AgentSpec, hash: string, f: Failure,
        now: nat)
    ensures var t := Patched(s, generation, agent, spec, hash, ChangeFor(f), now);
      && t.readyReplicas == 0
      && t.phase == (if ConfigFault(f) then ConfigErrorPhase else if StorageFault(f) then StorageErrorPhase
        else WorkloadErrorPhase)
      && t.persistenceBound == (!ConfigFault(f) && !StorageFault(f) && s.persistenceBound)
      && t.driftedFields == (if f.SpecDrift? then f.fields else [])
      && t.remediation == (if f.SpecDrift? then f.claim else "")
  {
    hide SetAll, Settings, HermesImage, ClaimName, PersistenceEnabled;
  }

  lemma FailureSettings(s: AgentStatus, t: AgentStatus, f: Failure, generation: int)
    requires ShowsAll(t, ChangeFor(f), generation)
    requires ChangeFor(f).WorkloadFailure? ==>
      Find(t.conditions, PersistenceReady) == Find(s.conditions, PersistenceReady)
    ensures forall i :: 0 <= i < |Settings(ChangeFor(f))| ==>
      SettingIn(t, Settings(ChangeFor(f))[i].kind) == Settings(ChangeFor(f))[i]
    ensures ChangeFor(f).WorkloadFailure? ==> SettingIn(t, PersistenceReady) == SettingIn(s, PersistenceReady)
  {
    var settings := Settings(ChangeFor(f));
    hide Settings, ChangeFor, Shows;
    forall i | 0 <= i < |settings| ensures SettingIn(t, settings[i].kind) == settings[i] {
      assert Shows(t.conditions, settings[i], generation);
      ShownSetting(t, settings[i], generation);
    }
  }

  /** The status after any failure says which part failed, why, and what is unknown because of it. */
  lemma FailureExact(s: AgentStatus, generation: int, agent: string, spec: AgentSpec, hash: string, f: Failure,
        now: nat)
    ensures FailureSaid(s, Patched(s, generation, agent, spec, hash, ChangeFor(f), now), f)
  {
    var t := Patched(s, generation, agent, spec, hash, ChangeFor(f), now);
    FailureNumbers(s, generation, agent, spec, hash, f, now);
    FailureWellKinded(f);
    PatchShows(s, generation, agent, spec, hash, ChangeFor(f), now);
    hide Patched, Find, ShowsAll;
    FailureSettings(s, t, f, generation);
    hide SettingIn;
    var settings := Settings(ChangeFor(f));
    assert |settings| >= 3 && SettingIn(t, settings[0].kind) == settings[0]
      && SettingIn(t, settings[1].kind) == settings[1] && SettingIn(t, settings[2].kind) == settings[2];
    if !ChangeFor(f).WorkloadFailure? { assert SettingIn(t, settings[3].kind) == settings[3]; }
  }

  lemma FailureWellKinded(f: Failure)
    ensures WellKinded(ChangeFor(f)) && !ChangeFor(f).Observed?
  {
  }

  lemma FailureReportStored(c: Cluster, writes: seq<Write>, agent: string, spec: AgentSpec, hash: string, f: Failure,
        now: nat, outcome: Outcome)
    requires agent in c.agents
    ensures FailureSaid(c.agents[agent].status,
      StatusOf(Report(c, writes, agent, spec, hash, ChangeFor(f), now, outcome).cluster, agent), f)
  {
    hide Report, Patched, ChangeFor, FailureSaid;
    ReportedStatus(c, writes, agent, spec, hash, ChangeFor(f), now, outcome);
    FailureExact(c.agents[agent].status, c.agents[agent].generation, agent, spec, hash, f, now);
  }

  /** Whatever a reconcile fails with, the stored status says exactly that. */
  lemma FailureStored(lib: Library, c: Cluster, agent: string, now: nat)
    requires agent in c.agents
    ensures var p := Prepare(lib, c, agent, c.agents[agent].spec);
      var r := Reconcile(lib, c, agent, now);
      var before, after := c.agents[agent].status, StatusOf(r.cluster, agent);
      && (p.Rejected? ==> FailureSaid(before, after, p.failure))
      && (r.outcome.Requeue? ==> p.Prepared? && FailureSaid(before, after, r.outcome.failure))
  {
    var spec := c.agents[agent].spec;
    var p := Prepare(lib, c, agent, spec);
    hide Prepare, RunStages, FailureSaid, Report, ChangeFor, ViewStatus;
    if p.Rejected? {
      FailureReportStored(c, [], agent, spec, "", p.failure, now, Done);
      RejectedOutcome(lib, c, agent, now);
    } else {
      var s := RunStages(lib, c, p.job, PIPELINE);
      PreparedJob(lib, c, agent, spec, p.job);
      PreparedReconcile(lib, c, agent, p.job, now);
      PipelineFrame(lib, c, p.job, PIPELINE);
      if s.failure.Some? {
        FailureReportStored(s.cluster, s.writes, agent, spec, p.job.plan.hash, s.failure.value, now,
          Requeue(s.failure.value));
        ReportedOutcome(s.cluster, s.writes, agent, spec, p.job.plan.hash, ChangeFor(s.failure.value), now,
          Requeue(s.failure.value));
      } else {
        ReportedOutcome(s.cluster, s.writes, agent, spec, p.job.plan.hash, FinalChange(s, agent, spec), now, Done);
      }
    }
  }

  lemma ReportedOutcome(c: Cluster, writes: seq<Write>, agent: string, spec: AgentSpec, hash: string,
        change: StatusChange, now: nat, outcome: Outcome)
    ensures Report(c, writes, agent, spec, hash, change, now, outcome).outcome == outcome
  {
    hide Patched, EventsFor;
  }

  lemma RejectedOutcome(lib: Library, c: Cluster, agent: string, now: nat)
    requires agent in c.agents && Prepare(lib, c, agent, c.agents[agent].spec).Rejected?
    ensures var f := Prepare(lib, c, agent, c.agents[agent].spec).failure;
      var r := Reconcile(lib, c, agent, now);
      r == Report(c, [], agent, c.agents[agent].spec, "", ChangeFor(f), now, Done) && r.outcome == Done
  {
    var spec := c.agents[agent].spec;
    var f := Prepare(lib, c, agent, spec).failure;
    hide Prepare, Report, ChangeFor;
    ReportedOutcome(c, [], agent, spec, "", ChangeFor(f), now, Done);
  }

  /** With inputs missing a reconcile of a fully named spec writes no object, and the status lists exactly the required
      references that do not resolve. */
  lemma MissingStored(lib: Library, c: Cluster, agent: string, now: nat)
    requires agent in c.agents && FullyNamed(c.agents[agent].spec)
      && !InputsComplete(c.agents[agent].spec, InputsOf(c))
    ensures var r := Reconcile(lib, c, agent, now);
      var missing := MissingInputs(Resolve(c.agents[agent].spec, InputsOf(c)));
      && r.outcome == Done && r.writes == [] && r.cluster == c.(agents := r.cluster.agents)
      && ConfigFailed(StatusOf(r.cluster, agent), MissingReferences(missing))
      && missing != [] && forall m :: m in missing <==> Missing.Lacks(c.agents[agent].spec, InputsOf(c), m)
  {
    var spec := c.agents[agent].spec;
    var missing := MissingInputs(Resolve(spec, InputsOf(c)));
    GateExact(spec, InputsOf(c));
    assert Prepare(lib, c, agent, spec) == Rejected(MissingReferences(missing));
    forall m ensures m in missing <==> Missing.Lacks(spec, InputsOf(c), m) {
      Missing.MissingExact(spec, InputsOf(c), m);
    }
    hide Prepare, MissingInputs, Resolve, FullyNamed, InputsComplete, Missing.Lacks, ConfigFailed, ChangeFor, Reconcile,
      Report;
    FailureStored(lib, c, agent, now);
    RejectedOutcome(lib, c, agent, now);
    RejectedWrites(c, agent, spec, ChangeFor(MissingReferences(missing)), now);
  }

  lemma RejectedWrites(c: Cluster, agent: string, spec: AgentSpec, change: StatusChange, now: nat)
    ensures var r := Report(c, [], agent, spec, "", change, now, Done);
      r.writes == [] && r.cluster == c.(agents := r.cluster.agents)
  {
    hide Patched, EventsFor;
    ReportFrame(c, [], agent, spec, "", change, now, Done);
  }

  /** An existing claim with other storage settings stops the reconcile, and the status names exactly the settings that
      differ. */
  lemma DriftStored(lib: Library, c: Cluster, agent: string, now: nat)
    requires agent in c.agents && Prepare(lib, c, agent, c.agents[agent].spec).Prepared?
    requires GeneratedOf(c, Prepare(lib, c, agent, c.agents[agent].spec).job).failure.None?
    requires Persistent(c.agents[agent].spec) && agent + "-data" in c.claims
    requires lib.parseQuantity(PersistenceSize(c.agents[agent].spec)).Some?
    requires !Claims.SameStorage(c.agents[agent].spec, c.claims[agent + "-data"].spec)
    ensures var spec, found := c.agents[agent].spec, c.claims[agent + "-data"].spec;
      var r := Reconcile(lib, c, agent, now);
      var after := StatusOf(r.cluster, agent);
      && r.outcome.Requeue? && r.outcome.failure.SpecDrift? && StorageFailed(after, r.outcome.failure)
      && after.remediation == agent + "-data"
      && (AccessModesField in after.driftedFields <==> !Claims.ModesAsked(spec, found.accessModes))
      && (StorageClassField in after.driftedFields <==>
            spec.persistence.storageClassName.Some? && found.storageClassName != spec.persistence.storageClassName)
      && multiset(after.driftedFields) <= multiset{AccessModesField, StorageClassField}
  {
    hide Prepare, Reconcile, ClaimStep, StorageFailed, GeneratedOf, Claims.SameStorage, Claims.ModesAsked;
    var spec := c.agents[agent].spec;
    var p := Prepare(lib, c, agent, spec);
    PreparedJob(lib, c, agent, spec, p.job);
    DriftFailure(lib, c.claims, agent, spec);
    var failure := ClaimStep(lib, c.claims, agent, spec).failure.value;
    assert Reconcile(lib, c, agent, now).outcome == Requeue(failure) by { ClaimOutcome(lib, c, agent, p.job, now); }
    FailureStored(lib, c, agent, now);
    assert StorageFault(failure) && !ConfigFault(failure);
    DriftNamed(StatusOf(Reconcile(lib, c, agent, now).cluster, agent), failure);
  }

  lemma DriftNamed(s: AgentStatus, f: Failure)
    requires f.SpecDrift? && StorageFailed(s, f)
    ensures s.driftedFields == f.fields && s.remediation == f.claim
  {
  }

  lemma ClaimOutcome(lib: Library, c: Cluster, agent: string, job: Job, now: nat)
    requires agent in c.agents && Prepare(lib, c, agent, c.agents[agent].spec) == Prepared(job)
    requires GeneratedOf(c, job).failure.None? && ClaimOf(lib, c, job).failure.Some?
    ensures Reconcile(lib, c, agent, now).outcome == Requeue(ClaimOf(lib, c, job).failure.value)
  {
    hide Reconcile, Prepare, RunStages, GeneratedOf, ClaimOf, Report, FinalChange;
    PreparedReconcile(lib, c, agent, job, now);
    FailsAtClaim(lib, c, job);
    var s := RunStages(lib, c, job, PIPELINE);
    ReportedOutcome(s.cluster, s.writes, job.agent, job.spec, job.plan.hash, FinalChange(s, job.agent, job.spec), now,
      FinalOutcome(s));
  }

  lemma DriftFailure(lib: Library, claims: map<string, Claim>, agent: string, spec: AgentSpec)
    requires Persistent(spec) && agent + "-data" in claims && lib.parseQuantity(PersistenceSize(spec)).Some?
    requires !Claims.SameStorage(spec, claims[agent + "-data"].spec)
    ensures var found := claims[agent + "-data"].spec;
      var failure := ClaimStep(lib, claims, agent, spec).failure;
      && failure.Some? && failure.value.SpecDrift? && failure.value.claim == agent + "-data"
      && (AccessModesField in failure.value.fields <==> !Claims.ModesAsked(spec, found.accessModes))
      && (StorageClassField in failure.value.fields <==>
            spec.persistence.storageClassName.Some? && found.storageClassName != spec.persistence.storageClassName)
      && multiset(failure.value.fields) <= multiset{AccessModesField, StorageClassField}
  {
    hide DriftedFields, Claims.SameStorage, ResourceLabels, BuildClaim, Claims.ModesAsked;
    Claims.DriftExact(spec, claims[agent + "-data"].spec, lib.parseQuantity(PersistenceSize(spec)).value);
  }

  lemma FailsAtClaim(lib: Library, c: Cluster, job: Job)
    requires GeneratedOf(c, job).failure.None? && ClaimOf(lib, c, job).failure.Some?
    ensures RunStages(lib, c, job, PIPELINE).failure == ClaimOf(lib, c, job).failure
  {
    hide RunStage, RunStages, GeneratedOf, ClaimOf, WorkloadOf;
    LastStages();
    FirstStages(lib, c, job);
    RunFirst(lib, c, job, 0);
    RunFirst(lib, c.(configMaps := GeneratedOf(c, job).store), job, 1);
  }

  // ---- when a condition changed ------------------------------------------------------------------------------

  function ChangeTime(before: Option<Condition>, status: ConditionStatus, now: nat): nat {
    if before.Some? && before.value.status == status then before.value.lastTransition else now
  }

  /** The transition time is that of the last change of the condition's status: now if it changed, else as it was. */
  predicate Timed(before: AgentStatus, s: AgentStatus, kind: ConditionType, now: nat) {
    var a := Find(s.conditions, kind);
    a.Some? ==> a.value.lastTransition == ChangeTime(Find(before.conditions, kind), a.value.status, now)
  }

  predicate Concerns(settings: seq<Setting>, kind: ConditionType) {
    exists i :: 0 <= i < |settings| && settings[i].kind == kind
  }

  lemma {:induction false} TimedSettings(before: seq<Condition>, settings: seq<Setting>, generation: int, now: nat,
        kind: ConditionType)
    requires DistinctKinds(settings)
    ensures var b, a := Find(before, kind), Find(SetAll(before, settings, generation, now), kind);
      && (!Concerns(settings, kind) ==> a == b)
      && (Concerns(settings, kind) ==> a.Some? && a.value.lastTransition == ChangeTime(b, a.value.status, now))
    decreases |settings|
  {
    if settings != [] {
      var c := ConditionOf(settings[0], generation, now);
      var next, rest := WithCondition(before, c), settings[1..];
      FindWithCondition(before, c, kind);
      assert forall i :: 0 <= i < |rest| ==> rest[i] == settings[i + 1];
      hide WithCondition, Find;
      TimedSettings(next, rest, generation, now, kind);
      if settings[0].kind == kind {
        forall i | 0 <= i < |rest| ensures rest[i].kind != kind { assert settings[i + 1].kind != settings[0].kind; }
      } else if Concerns(settings, kind) {
        var i :| 0 <= i < |settings| && settings[i].kind == kind;
        assert rest[i - 1].kind == kind;
      }
    }
  }

  lemma PatchedTimed(before: AgentStatus, generation: int, agent: string, spec: AgentSpec, hash: string,
        change: StatusChange, now: nat, kind: ConditionType)
    requires WellKinded(change)
    ensures Timed(before, Patched(before, generation, agent, spec, hash, change, now), kind, now)
  {
    var settings, s := Settings(change), Patched(before, generation, agent, spec, hash, change, now);
    assert s.conditions == SetAll(before.conditions, settings, generation, now);
    assert DistinctKinds(settings);
    hide Patched, SetAll, Settings, Find, DistinctKinds;
    TimedSettings(before.conditions, settings, generation, now, kind);
  }

  // ---- what every report says --------------------------------------------------------------------------------

  /** The condition was set for this generation. */
  predicate Stamped(s: AgentStatus, kind: ConditionType, generation: int) {
    Find(s.conditions, kind).Some? && Find(s.conditions, kind).value.observedGeneration == generation
  }

  ghost predicate Described(before: AgentStatus, s: AgentStatus, generation: int, agent: string, spec: AgentSpec,
        hash: string, now: nat) {
    && s.observedGeneration == generation && s.configHash == hash
    && Deployment.ImageNamed(s.image, spec.image)
    && s.claimName == (if Persistent(spec) then agent + "-data" else "")
    && s.serviceName == (if spec.service.enabled then agent else "")
    && Stamped(s, ConfigReady, generation) && Stamped(s, WorkloadReady, generation) && Stamped(s, Overall, generation)
    && (Stamped(s, PersistenceReady, generation)
        || (s.phase == WorkloadErrorPhase && Find(s.conditions, PersistenceReady) == Find(before.conditions,
          PersistenceReady)))
    && s.lastReconcileTime == (if s == before then before.lastReconcileTime else now)
    && forall kind :: Timed(before, s, kind, now)
  }

  lemma DescribedFields(before: AgentStatus, generation: int, agent: string, spec: AgentSpec, hash: string,
        change: StatusChange, now: nat)
    ensures var s := Patched(before, generation, agent, spec, hash, change, now);
      && s.observedGeneration == generation && s.configHash == hash && s.image == HermesImage(spec.image)
      && s.claimName == (if Persistent(spec) then agent + "-data" else "")
      && s.serviceName == (if spec.service.enabled then agent else "")
      && s.lastReconcileTime == (if s == before then before.lastReconcileTime else now)
      && (change.WorkloadFailure? ==> s.phase == WorkloadErrorPhase)
  {
    hide SetAll, Settings, HermesImage;
  }

  lemma SettingStamped(s: AgentStatus, setting: Setting, generation: int)
    requires Shows(s.conditions, setting, generation)
    ensures Stamped(s, setting.kind, generation)
  {
    hide Find;
  }

  lemma DescribedExact(before: AgentStatus, generation: int, agent: string, spec: AgentSpec, hash: string,
        change: StatusChange, now: nat)
    requires WellKinded(change)
    ensures Described(before, Patched(before, generation, agent, spec, hash, change, now), generation, agent, spec,
      hash, now)
  {
    var s := Patched(before, generation, agent, spec, hash, change, now);
    DescribedFields(before, generation, agent, spec, hash, change, now);
    PatchShows(before, generation, agent, spec, hash, change, now);
    Deployment.ImageExact(spec.image);
    hide Patched, Find, Shows, HermesImage, Deployment.ImageNamed, Stamped, Timed;
    forall kind ensures Timed(before, s, kind, now) {
      PatchedTimed(before, generation, agent, spec, hash, change, now, kind);
    }
    var settings := Settings(change);
    forall i | 0 <= i < |settings| ensures Stamped(s, settings[i].kind, generation) {
      SettingStamped(s, settings[i], generation);
    }
    assert Stamped(s, settings[0].kind, generation) && Stamped(s, settings[1].kind, generation)
      && Stamped(s, settings[2].kind, generation);
    if !change.WorkloadFailure? { assert Stamped(s, settings[3].kind, generation); }
  }

  lemma ReportDescribed(c: Cluster, d: Cluster, writes: seq<Write>, agent: string, spec: AgentSpec, hash: string,
        change: StatusChange, now: nat, outcome: Outcome)
    requires agent in c.agents && d.agents == c.agents && WellKinded(change)
    ensures Described(c.agents[agent].status,
      StatusOf(Report(d, writes, agent, spec, hash, change, now, outcome).cluster, agent), c.agents[agent].generation,
      agent, spec, hash, now)
  {
    hide Report, Patched, Described;
    ReportedStatus(d, writes, agent, spec, hash, change, now, outcome);
    DescribedExact(c.agents[agent].status, c.agents[agent].generation, agent, spec, hash, change, now);
  }

  /** After every reconcile, successful or not: the status is that of the agent's generation, with the hash of the plan
      if there was one, names image, claim and Service as the spec gives them, and carries the time of its last
      change. */
  lemma MetadataExact(lib: Library, c: Cluster, agent: string, now: nat)
    requires agent in c.agents
    ensures var spec := c.agents[agent].spec;
      var p := Prepare(lib, c, agent, spec);
      Described(c.agents[agent].status, StatusOf(Reconcile(lib, c, agent, now).cluster, agent),
        c.agents[agent].generation, agent, spec, if p.Prepared? then p.job.plan.hash else "", now)
  {
    var spec := c.agents[agent].spec;
    var p := Prepare(lib, c, agent, spec);
    hide Prepare, RunStages, Described, Report, ChangeFor, ViewStatus;
    if p.Rejected? {
      FailureWellKinded(p.failure);
      ReportDescribed(c, c, [], agent, spec, "", ChangeFor(p.failure), now, Done);
    } else {
      var s := RunStages(lib, c, p.job, PIPELINE);
      PreparedJob(lib, c, agent, spec, p.job);
      PreparedReconcile(lib, c, agent, p.job, now);
      PipelineFrame(lib, c, p.job, PIPELINE);
      ViewKinds(s.cluster, agent, spec);
      if s.failure.Some? { FailureWellKinded(s.failure.value); }
      ReportDescribed(c, s.cluster, s.writes, agent, spec, p.job.plan.hash, FinalChange(s, agent, spec), now,
        FinalOutcome(s));
    }
  }
}
