/** The status as the operator edits it: one record, mutated through a reference. */
module StatusRecords {
  import opened Api
  import opened Status

  /** What a change does to a status whose generation is already stamped. */
  function Applied(s: AgentStatus, change: StatusChange, now: nat): AgentStatus {
    Mark(s, change).(conditions := SetAll(s.conditions, Settings(change), s.observedGeneration, now))
  }

  ghost predicate FirstOf(conditions: seq<Condition>, i: nat, kind: ConditionType) {
    i < |conditions| && conditions[i].kind == kind && forall k :: 0 <= k < i ==> conditions[k].kind != kind
  }

  lemma {:induction false} UpdatedAt(conditions: seq<Condition>, c: Condition, i: nat)
    requires FirstOf(conditions, i, c.kind)
    ensures WithCondition(conditions, c) == conditions[i := Settled(conditions[i], c)]
  {
    if i > 0 {
      assert forall k :: 0 <= k < i - 1 ==> conditions[1..][k] == conditions[k + 1];
      UpdatedAt(conditions[1..], c, i - 1);
    }
  }

  lemma {:induction false} AppendedWhenAbsent(conditions: seq<Condition>, c: Condition)
    requires forall k :: 0 <= k < |conditions| ==> conditions[k].kind != c.kind
    ensures WithCondition(conditions, c) == conditions + [c]
  {
    if conditions != [] {
      assert forall k :: 0 <= k < |conditions| - 1 ==> conditions[1..][k] == conditions[k + 1];
      AppendedWhenAbsent(conditions[1..], c);
    }
  }

  /** One condition after another. */
  lemma SetFour(conditions: seq<Condition>, a: Setting, b: Setting, c: Setting, d: Setting, generation: int, now: nat)
    ensures SetAll(conditions, [a, b, c, d], generation, now) ==
      WithCondition(WithCondition(WithCondition(WithCondition(conditions, ConditionOf(a, generation, now)),
        ConditionOf(b, generation, now)),
        ConditionOf(c, generation, now)), ConditionOf(d, generation, now))
  {
    hide WithCondition;
    var all := [a, b, c, d];
    assert all[1..] == [b, c, d] && all[1..][1..] == [c, d] && all[1..][1..][1..] == [d];
    SetThree(WithCondition(conditions, ConditionOf(a, generation, now)), b, c, d, generation, now);
  }

  lemma SetThree(conditions: seq<Condition>, a: Setting, b: Setting, c: Setting, generation: int, now: nat)
    ensures SetAll(conditions, [a, b, c], generation, now) ==
      WithCondition(WithCondition(WithCondition(conditions, ConditionOf(a, generation, now)),
        ConditionOf(b, generation, now)), ConditionOf(c, generation, now))
  {
    hide WithCondition;
    var all := [a, b, c];
    assert all[1..] == [b, c] && all[1..][1..] == [c] && all[1..][1..][1..] == [];
    var next := WithCondition(conditions, ConditionOf(a, generation, now));
    assert SetAll(conditions, all, generation, now) == SetAll(next, [b, c], generation, now);
    assert [b, c][1..] == [c] && [c][1..] == [];
    var after := WithCondition(next, ConditionOf(b, generation, now));
    assert SetAll(next, [b, c], generation, now) == SetAll(after, [c], generation, now);
    assert SetAll(after, [c], generation, now) == SetAll(WithCondition(after, ConditionOf(c, generation, now)), [],
      generation, now);
  }

  class StatusRecord {
    var status: AgentStatus

    constructor (status: AgentStatus)
      ensures this.status == status
    {
      this.status := status;
    }

    /** SetStatusCondition: update the first condition of that type in place, or append. */
    method SetCondition(s: Setting, now: nat)
      modifies this
      ensures status == old(status).(conditions := WithCondition(old(status).conditions,
        ConditionOf(s, old(status).observedGeneration, now)))
    {
      var c := ConditionOf(s, status.observedGeneration, now);
      for i := 0 to |status.conditions|
        invariant status == old(status)
        invariant forall k :: 0 <= k < i ==> status.conditions[k].kind != s.kind
      {
        if status.conditions[i].kind == s.kind {
          UpdatedAt(status.conditions, c, i);
          var existing := status.conditions[i];
          if existing.status != c.status { existing := existing.(status := c.status, lastTransition := now); }
          existing := existing.(reason := c.reason, message := c.message, observedGeneration := c.observedGeneration);
          status := status.(conditions := status.conditions[i := existing]);
          return;
        }
      }
      AppendedWhenAbsent(status.conditions, c);
      status := status.(conditions := status.conditions + [c]);
    }

    method PopulateStatusMetadata(agent: string, spec: AgentSpec, hash: string)
      modifies this
      ensures status == Populate(old(status), agent, spec, hash)
    {
      status := status.(image := HermesImage(spec.image), configHash := hash);
      if PersistenceEnabled(spec) { status := status.(claimName := ClaimName(agent)); }
        else { status := status.(claimName := ""); }
      status := status.(driftedFields := [], remediation := "");
      if spec.service.enabled { status := status.(serviceName := agent); }
        else { status := status.(serviceName := ""); }
    }

    method SetFourConditions(a: Setting, b: Setting, c: Setting, d: Setting, now: nat)
      modifies this
      ensures status == old(status).(conditions := SetAll(old(status).conditions, [a, b, c, d],
        old(status).observedGeneration, now))
    {
      hide WithCondition, SetAll;
      SetFour(status.conditions, a, b, c, d, status.observedGeneration, now);
      SetCondition(a, now);
      SetCondition(b, now);
      SetCondition(c, now);
      SetCondition(d, now);
    }

    method MarkConfigFailure(reason: Reason, failure: Failure, now: nat)
      modifies this
      ensures status == Applied(old(status), ConfigFailure(reason, failure), now)
    {
      hide SetAll;
      status := status.(readyReplicas := 0, persistenceBound := false);
      SetFourConditions(
        Setting(ConfigReady, ConditionFalse, reason, Cause(failure)),
        Setting(PersistenceReady, ConditionUnknown, Unknown, Fixed),
        Setting(WorkloadReady, ConditionUnknown, Unknown, Fixed),
        Setting(Overall, ConditionFalse, reason, Fixed), now);
      status := status.(phase := ConfigErrorPhase);
    }

    method MarkPersistenceFailure(failure: Failure, now: nat)
      modifies this
      ensures status == Applied(old(status), PersistenceFailure(failure), now)
    {
      hide SetAll;
      status := status.(readyReplicas := 0, persistenceBound := false);
      if failure.SpecDrift? {
        status := status.(driftedFields := failure.fields, remediation := failure.claim);
        SetFourConditions(CONFIG_RECONCILED,
          Setting(PersistenceReady, ConditionFalse, PersistentVolumeClaimSpecDrift, Cause(failure)),
          Setting(WorkloadReady, ConditionUnknown, PersistentVolumeClaimSpecDrift, Fixed),
          Setting(Overall, ConditionFalse, PersistentVolumeClaimSpecDrift, Fixed), now);
        status := status.(phase := StorageErrorPhase);
        return;
      }
      SetFourConditions(CONFIG_RECONCILED,
        Setting(PersistenceReady, ConditionFalse, PersistentVolumeClaimReconcileFailed, Cause(failure)),
        Setting(WorkloadReady, ConditionFalse, WaitingForPersistence, Awaiting(ClaimToReconcile)),
        Setting(Overall, ConditionFalse, PersistentVolumeClaimReconcileFailed, Fixed), now);
      status := status.(phase := StorageErrorPhase);
    }

    method MarkWorkloadFailure(reason: Reason, failure: Failure, now: nat)
      modifies this
      ensures status == Applied(old(status), WorkloadFailure(reason, failure), now)
    {
      hide SetAll, WithCondition;
      var a, b, c := CONFIG_RECONCILED, Setting(WorkloadReady, ConditionFalse, reason, Cause(failure)),
        Setting(Overall, ConditionFalse, reason, Fixed);
      SetThree(status.conditions, a, b, c, status.observedGeneration, now);
      status := status.(readyReplicas := 0);
      SetCondition(a, now);
      SetCondition(b, now);
      SetCondition(c, now);
      status := status.(phase := WorkloadErrorPhase);
    }

    method ShowView(view: StatusView, now: nat)
      modifies this
      ensures status == Applied(old(status), Observed(view), now)
    {
      hide SetAll;
      status := status.(readyReplicas := view.readyReplicas, persistenceBound := view.persistenceBound);
      SetFourConditions(CONFIG_RECONCILED, view.persistence, view.workload, view.overall, now);
      status := status.(phase := view.phase);
    }

    method Apply(change: StatusChange, now: nat)
      modifies this
      ensures status == Applied(old(status), change, now)
    {
      hide Applied;
      match change {
        case ConfigFailure(reason, failure) => MarkConfigFailure(reason, failure, now);
        case PersistenceFailure(failure) => MarkPersistenceFailure(failure, now);
        case WorkloadFailure(reason, failure) => MarkWorkloadFailure(reason, failure, now);
        case Observed(view) => ShowView(view, now);
      }
    }
  }

  lemma AppliedIsMutated(s: AgentStatus, generation: int, agent: string, spec: AgentSpec, hash: string,
        change: StatusChange, now: nat)
    ensures Applied(Populate(s.(observedGeneration := generation), agent, spec, hash), change, now) ==
      Mutated(s, generation, agent, spec, hash, change, now)
  {
    hide SetAll, Settings, Mark, HermesImage, PersistenceEnabled, ClaimName;
  }

  /** statusEventsForTransition: config warnings, persistence, and workload unless it merely waits for the
      persistence just reported. */
  method StatusEventsForTransition(before: AgentStatus, after: AgentStatus) returns (events: seq<Event>)
    ensures events == EventsFor(before, after)
  {
    hide TransitionEvent;
    events := [];
    var persistenceChanged := false;
    var event := TransitionEvent(before, after, ConfigReady);
    if event.Some? && event.value.eventType == Warning { events := events + [event.value]; }
    event := TransitionEvent(before, after, PersistenceReady);
    if event.Some? && event.value.reason != Unknown {
      events := events + [event.value];
      persistenceChanged := true;
    }
    event := TransitionEvent(before, after, WorkloadReady);
    if event.Some? && event.value.reason != Unknown {
      if !persistenceChanged || event.value.reason != WaitingForPersistence {
        events := events + [event.value];
      }
    }
  }
}
