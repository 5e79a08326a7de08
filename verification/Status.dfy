/** The status of an agent: conditions, phases, the three failure marks and the events of a transition. */
module Status {
  import opened Prelude
  import opened Api
  import opened Validation
  import opened Gate

  datatype Resource = ConfigMapResource | ClaimResource | StatefulSetResource | ServiceResource | PolicyResource |
    BudgetResource

  /** Why a reconcile stops early. */
  datatype Failure =
    | InvalidConfig(error: ConfigError)
    | MissingReferences(missing: seq<MissingInput>)
    | AlreadyOwned(resource: Resource, name: string, owner: Owner)
    | NotOwned(resource: Resource, name: string)
    | BadQuantity(text: string)
    | SpecDrift(claim: string, fields: seq<ImmutableField>)

  /** The claim settings that cannot change in place. */
  datatype ImmutableField = AccessModesField | StorageClassField

  datatype Phase = NoPhase | ConfigErrorPhase | StoragePending | StorageErrorPhase | WorkloadPending |
    WorkloadErrorPhase | ReadyPhase
  datatype ConditionType = ConfigReady | PersistenceReady | WorkloadReady | Overall
  datatype ConditionStatus = ConditionTrue | ConditionFalse | ConditionUnknown

  /** The reasons a condition can carry; each stands for the string of the same name. */
  datatype Reason =
    | NoReason | Unknown | Ready
    | ConfigReconciled | InvalidConfigReason | MissingReferencedInput | ReferencedInputsReadFailed |
      ConfigMapReconcileFailed
    | PersistenceDisabled | PersistentVolumeClaimMissing | PersistentVolumeClaimPending | PersistentVolumeClaimLost |
      PersistentVolumeClaimBound
    | PersistentVolumeClaimReconcileFailed | PersistentVolumeClaimSpecDrift | WaitingForPersistence
    | StatefulSetMissing | StatefulSetReady | StatefulSetRolloutPending | StatefulSetWaitingForReadyReplicas
    | StatefulSetReconcileFailed | ServiceReconcileFailed | NetworkPolicyReconcileFailed |
      PodDisruptionBudgetReconcileFailed

  datatype Awaited = ClaimToBeCreated | ClaimToBind | ClaimToReconcile

  /** A message is kept as the values its text is printed from. */
  datatype Message =
    | Fixed | OfClaim(name: string) | Awaiting(what: Awaited) | Cause(failure: Failure)
    | ReplicaCount(ready: int, desired: int) | RolloutLag(observed: int, generation: int)

  datatype Condition = Condition(
    kind: ConditionType, status: ConditionStatus, observedGeneration: int,
    reason: Reason, message: Message, lastTransition: nat)

  datatype AgentStatus = AgentStatus(
    phase: Phase, observedGeneration: int, image: string, configHash: string,
    readyReplicas: int, persistenceBound: bool, claimName: string,
    driftedFields: seq<ImmutableField>, remediation: string, serviceName: string,
    lastReconcileTime: nat, conditions: seq<Condition>)

  const EMPTY_STATUS := AgentStatus(NoPhase, 0, "", "", 0, false, "", [], "", "", 0, [])

  // ---- conditions --------------------------------------------------------------------------

  function Find(conditions: seq<Condition>, kind: ConditionType): Option<Condition> {
    if conditions == [] then None
    else if conditions[0].kind == kind then Some(conditions[0])
    else Find(conditions[1..], kind)
  }

  /** Update the first condition of that type in place, or append; the transition time moves only
      when the status does. */
  function WithCondition(conditions: seq<Condition>, c: Condition): seq<Condition> {
    if conditions == [] then [c]
    else if conditions[0].kind == c.kind then [Settled(conditions[0], c)] + conditions[1..]
    else [conditions[0]] + WithCondition(conditions[1..], c)
  }

  function Settled(before: Condition, c: Condition): Condition {
    if before.status == c.status then c.(lastTransition := before.lastTransition) else c
  }

  lemma {:induction false} FindWithCondition(conditions: seq<Condition>, c: Condition, kind: ConditionType)
    ensures Find(WithCondition(conditions, c), kind) ==
      if kind != c.kind then Find(conditions, kind)
      else
        var before := Find(conditions, kind);
        Some(c.(lastTransition := if before.Some? && before.value.status == c.status then before.value.lastTransition
          else c.lastTransition))
  {
    if conditions != [] && conditions[0].kind != c.kind {
      FindWithCondition(conditions[1..], c, kind);
    }
  }

  lemma {:induction false} WithConditionStable(conditions: seq<Condition>, c: Condition)
    requires Find(conditions, c.kind).Some?
    requires var found := Find(conditions, c.kind).value; Settled(found, c) == found
    ensures WithCondition(conditions, c) == conditions
  {
    if conditions[0].kind != c.kind {
      WithConditionStable(conditions[1..], c);
    }
    assert conditions == [conditions[0]] + conditions[1..];
  }

  ghost predicate GenerationsBounded(conditions: seq<Condition>, bound: int) {
    forall i :: 0 <= i < |conditions| ==> conditions[i].observedGeneration <= bound
  }

  lemma {:induction false} WithConditionBounded(conditions: seq<Condition>, c: Condition, bound: int)
    requires GenerationsBounded(conditions, bound) && c.observedGeneration <= bound
    ensures GenerationsBounded(WithCondition(conditions, c), bound)
  {
    if conditions != [] && conditions[0].kind != c.kind {
      WithConditionBounded(conditions[1..], c, bound);
    }
  }

  // ---- status changes ------------------------------------------------------------------------

  datatype StatusView = StatusView(
    readyReplicas: int, persistenceBound: bool,
    persistence: Setting, workload: Setting, overall: Setting, phase: Phase)

  /** What a change says about one condition. */
  datatype Setting = Setting(kind: ConditionType, status: ConditionStatus, reason: Reason, message: Message)

  /** The mutation a reconcile ends with. */
  datatype StatusChange =
    | ConfigFailure(reason: Reason, failure: Failure)
    | PersistenceFailure(failure: Failure)
    | WorkloadFailure(reason: Reason, failure: Failure)
    | Observed(view: StatusView)

  const CONFIG_RECONCILED := Setting(ConfigReady, ConditionTrue, ConfigReconciled, Fixed)

  function Settings(change: StatusChange): seq<Setting> {
    match change
    case ConfigFailure(reason, failure) =>
      [Setting(ConfigReady, ConditionFalse, reason, Cause(failure)),
       Setting(PersistenceReady, ConditionUnknown, Unknown, Fixed),
       Setting(WorkloadReady, ConditionUnknown, Unknown, Fixed),
       Setting(Overall, ConditionFalse, reason, Fixed)]
    case PersistenceFailure(failure) =>
      if failure.SpecDrift? then
        [CONFIG_RECONCILED,
         Setting(PersistenceReady, ConditionFalse, PersistentVolumeClaimSpecDrift, Cause(failure)),
         Setting(WorkloadReady, ConditionUnknown, PersistentVolumeClaimSpecDrift, Fixed),
         Setting(Overall, ConditionFalse, PersistentVolumeClaimSpecDrift, Fixed)]
      else
        [CONFIG_RECONCILED,
         Setting(PersistenceReady, ConditionFalse, PersistentVolumeClaimReconcileFailed, Cause(failure)),
         Setting(WorkloadReady, ConditionFalse, WaitingForPersistence, Awaiting(ClaimToReconcile)),
         Setting(Overall, ConditionFalse, PersistentVolumeClaimReconcileFailed, Fixed)]
    case WorkloadFailure(reason, failure) =>
      [CONFIG_RECONCILED,
       Setting(WorkloadReady, ConditionFalse, reason, Cause(failure)),
       Setting(Overall, ConditionFalse, reason, Fixed)]
    case Observed(view) =>
      [CONFIG_RECONCILED, view.persistence, view.workload, view.overall]
  }

  function ConditionOf(s: Setting, generation: int, now: nat): Condition {
    Condition(s.kind, s.status, generation, s.reason, s.message, now)
  }

  function SetAll(conditions: seq<Condition>, settings: seq<Setting>, generation: int, now: nat): seq<Condition>
    decreases |settings|
  {
    if settings == [] then conditions
    else SetAll(WithCondition(conditions, ConditionOf(settings[0], generation, now)), settings[1..], generation, now)
  }

  function Populate(s: AgentStatus, agent: string, spec: AgentSpec, hash: string): AgentStatus {
    s.(image := HermesImage(spec.image),
       configHash := hash,
       claimName := if PersistenceEnabled(spec) then ClaimName(agent) else "",
       driftedFields := [],
       remediation := "",
       serviceName := if spec.service.enabled then agent else "")
  }

  function Mark(s: AgentStatus, change: StatusChange): AgentStatus {
    match change
    case ConfigFailure(_, _) => s.(readyReplicas := 0, persistenceBound := false, phase := ConfigErrorPhase)
    case PersistenceFailure(failure) =>
      var t := s.(readyReplicas := 0, persistenceBound := false, phase := StorageErrorPhase);
      if failure.SpecDrift? then t.(driftedFields := failure.fields, remediation := failure.claim) else t
    case WorkloadFailure(_, _) => s.(readyReplicas := 0, phase := WorkloadErrorPhase)
    case Observed(view) =>
      s.(readyReplicas := view.readyReplicas, persistenceBound := view.persistenceBound, phase := view.phase)
  }

  /** The mutated status, before the decision whether to write it. `generation` is that of the agent
      as stored now; the spec is that of the agent as it was read. */
  function Mutated(s: AgentStatus, generation: int, agent: string, spec: AgentSpec, hash: string, change: StatusChange,
        now: nat): AgentStatus {
    var t := Mark(Populate(s.(observedGeneration := generation), agent, spec, hash), change);
    t.(conditions := SetAll(s.conditions, Settings(change), generation, now))
  }

  function Patched(s: AgentStatus, generation: int, agent: string, spec: AgentSpec, hash: string, change: StatusChange,
        now: nat): AgentStatus {
    var t := Mutated(s, generation, agent, spec, hash, change, now);
    if t == s then s else t.(lastReconcileTime := now)
  }

  // ---- a change is absorbed once -------------------------------------------------------------------

  ghost predicate DistinctKinds(settings: seq<Setting>) {
    forall i, j :: 0 <= i < j < |settings| ==> settings[i].kind != settings[j].kind
  }

  ghost predicate Shows(conditions: seq<Condition>, s: Setting, generation: int) {
    && Find(conditions, s.kind).Some?
    && var c := Find(conditions, s.kind).value;
       c == ConditionOf(s, generation, c.lastTransition)
  }

  lemma {:induction false} FindSetAll(conditions: seq<Condition>, settings: seq<Setting>, generation: int, now: nat,
        kind: ConditionType)
    requires DistinctKinds(settings)
    ensures (forall i :: 0 <= i < |settings| ==> settings[i].kind != kind) ==>
      Find(SetAll(conditions, settings, generation, now), kind) == Find(conditions, kind)
    ensures forall i :: 0 <= i < |settings| && settings[i].kind == kind ==>
      Shows(SetAll(conditions, settings, generation, now), settings[i], generation)
    decreases |settings|
  {
    if settings != [] {
      var c := ConditionOf(settings[0], generation, now);
      var next, rest := WithCondition(conditions, c), settings[1..];
      FindWithCondition(conditions, c, kind);
      assert forall i :: 0 <= i < |rest| ==> rest[i] == settings[i + 1];
      FindSetAll(next, rest, generation, now, kind);
    }
  }

  lemma {:induction false} SetAllStable(conditions: seq<Condition>, settings: seq<Setting>, generation: int, now: nat)
    requires forall i :: 0 <= i < |settings| ==> Shows(conditions, settings[i], generation)
    ensures SetAll(conditions, settings, generation, now) == conditions
  {
    if settings != [] {
      assert Shows(conditions, settings[0], generation);
      WithConditionStable(conditions, ConditionOf(settings[0], generation, now));
      assert forall i :: 0 <= i < |settings| - 1 ==> settings[1..][i] == settings[i + 1];
      SetAllStable(conditions, settings[1..], generation, now);
    }
  }

  predicate WellKinded(change: StatusChange) {
    change.Observed? ==>
      change.view.persistence.kind == PersistenceReady && change.view.workload.kind == WorkloadReady
        && change.view.overall.kind == Overall
  }

  lemma ShownConditions(conditions: seq<Condition>, change: StatusChange, generation: int, now: nat)
    requires WellKinded(change)
    ensures var after := SetAll(conditions, Settings(change), generation, now);
      && (forall i :: 0 <= i < |Settings(change)| ==> Shows(after, Settings(change)[i], generation))
      && (change.WorkloadFailure? ==> Find(after, PersistenceReady) == Find(conditions, PersistenceReady))
  {
    var settings := Settings(change);
    assert DistinctKinds(settings);
    assert change.WorkloadFailure? ==> forall i :: 0 <= i < |settings| ==> settings[i].kind != PersistenceReady;
    hide Settings, SetAll, Shows, DistinctKinds;
    forall i | 0 <= i < |settings| ensures Shows(SetAll(conditions, settings, generation, now), settings[i],
      generation) {
      FindSetAll(conditions, settings, generation, now, settings[i].kind);
    }
    FindSetAll(conditions, settings, generation, now, PersistenceReady);
  }

  /** Applying the same change again, at any later time, leaves the status exactly as it is. */
  lemma ChangeAbsorbed(s: AgentStatus, generation: int, agent: string, spec: AgentSpec, hash: string,
        change: StatusChange, now: nat, later: nat)
    requires WellKinded(change)
    ensures var t := Patched(s, generation, agent, spec, hash, change, now);
      Mutated(t, generation, agent, spec, hash, change, later) == t
  {
    var settings := Settings(change);
    var t := Patched(s, generation, agent, spec, hash, change, now);
    var conditions := SetAll(s.conditions, settings, generation, now);
    assert t.conditions == conditions;
    MarkAbsorbed(s, generation, agent, spec, hash, change, conditions, t.lastReconcileTime);
    ShownConditions(s.conditions, change, generation, now);
    hide SetAll, Settings, Mark, Populate, Shows;
    SetAllStable(conditions, settings, generation, later);
  }

  lemma MarkAbsorbed(s: AgentStatus, generation: int, agent: string, spec: AgentSpec, hash: string,
        change: StatusChange, conditions: seq<Condition>, time: nat)
    ensures var t := Mark(Populate(s.(observedGeneration := generation), agent, spec, hash), change).(conditions :=
      conditions, lastReconcileTime := time);
      Mark(Populate(t.(observedGeneration := generation), agent, spec, hash), change) == t
  {
  }

  // ---- the invariant of every status ----------------------------------------------------------------

  predicate IsTrue(s: AgentStatus, kind: ConditionType) {
    Find(s.conditions, kind).Some? && Find(s.conditions, kind).value.status == ConditionTrue
  }

  predicate HasReason(s: AgentStatus, kind: ConditionType, reason: Reason) {
    Find(s.conditions, kind).Some? && Find(s.conditions, kind).value.reason == reason
  }

  ghost predicate StatusInvariant(s: AgentStatus, generation: int) {
    && (s.phase == ReadyPhase <==> IsTrue(s, Overall))
    && (IsTrue(s, Overall) <==> IsTrue(s, ConfigReady) && IsTrue(s, PersistenceReady) && IsTrue(s, WorkloadReady))
    && (s.persistenceBound ==> IsTrue(s, PersistenceReady))
    && (s.driftedFields != [] ==>
      s.phase == StorageErrorPhase && HasReason(s, PersistenceReady, PersistentVolumeClaimSpecDrift)
      && HasReason(s, Overall, PersistentVolumeClaimSpecDrift))
    && (s.readyReplicas != 0 ==> s.phase == ReadyPhase || s.phase == WorkloadPending)
    && GenerationsBounded(s.conditions, s.observedGeneration)
    && s.observedGeneration <= generation
  }

  /** A view that could have been read from a cluster. */
  predicate CoherentView(view: StatusView) {
    && (view.phase == ReadyPhase <==> view.overall.status == ConditionTrue)
    && (view.overall.status == ConditionTrue <==>
      view.persistence.status == ConditionTrue && view.workload.status == ConditionTrue)
    && (view.persistenceBound ==> view.persistence.status == ConditionTrue)
    && (view.readyReplicas != 0 ==> view.phase == ReadyPhase || view.phase == WorkloadPending)
  }

  predicate CoherentChange(change: StatusChange) {
    WellKinded(change) && (change.Observed? ==> CoherentView(change.view))
  }

  lemma {:induction false} SetAllBounded(conditions: seq<Condition>, settings: seq<Setting>, generation: int, now: nat)
    requires GenerationsBounded(conditions, generation)
    ensures GenerationsBounded(SetAll(conditions, settings, generation, now), generation)
    decreases |settings|
  {
    if settings != [] {
      var c := ConditionOf(settings[0], generation, now);
      WithConditionBounded(conditions, c, generation);
      SetAllBounded(WithCondition(conditions, c), settings[1..], generation, now);
    }
  }

  /** The invariant, from what the conditions show after a change. */
  lemma InvariantShown(s: AgentStatus, t: AgentStatus, generation: int, agent: string, spec: AgentSpec, hash: string,
        change: StatusChange)
    requires StatusInvariant(s, generation) && CoherentChange(change)
    requires t == Mark(Populate(s.(observedGeneration := generation), agent, spec, hash), change).(conditions :=
      t.conditions, lastReconcileTime := t.lastReconcileTime)
    requires forall i :: 0 <= i < |Settings(change)| ==> Shows(t.conditions, Settings(change)[i], generation)
    requires change.WorkloadFailure? ==> Find(t.conditions, PersistenceReady) == Find(s.conditions, PersistenceReady)
    requires GenerationsBounded(t.conditions, generation)
    ensures StatusInvariant(t, generation)
  {
    hide Find, HermesImage, ClaimName, PersistenceEnabled, GenerationsBounded;
    var settings := Settings(change);
    assert Shows(t.conditions, settings[0], generation);
    assert Shows(t.conditions, settings[1], generation);
    assert Shows(t.conditions, settings[2], generation);
    match change
    case WorkloadFailure(_, _) =>
    case _ => assert Shows(t.conditions, settings[3], generation);
  }

  /** Every coherent change keeps the invariant, whatever the status was and however stale the spec. */
  lemma ChangeKeepsInvariant(s: AgentStatus, before: int, generation: int, agent: string, spec: AgentSpec,
        hash: string, change: StatusChange, now: nat)
    requires StatusInvariant(s, before) && before <= generation && CoherentChange(change)
    ensures StatusInvariant(Patched(s, generation, agent, spec, hash, change, now), generation)
  {
    ShownConditions(s.conditions, change, generation, now);
    SetAllBounded(s.conditions, Settings(change), generation, now);
    InvariantShown(s, Patched(s, generation, agent, spec, hash, change, now), generation, agent, spec, hash, change);
  }

  // ---- events -----------------------------------------------------------------------------------------

  datatype EventType = Normal | Warning
  datatype Event = Event(eventType: EventType, reason: Reason, message: Message)

  predicate IsWarning(reason: Reason) {
    match reason
    case InvalidConfigReason => true
    case MissingReferencedInput => true
    case ReferencedInputsReadFailed => true
    case ConfigMapReconcileFailed => true
    case PersistentVolumeClaimReconcileFailed => true
    case PersistentVolumeClaimSpecDrift => true
    case PersistentVolumeClaimLost => true
    case StatefulSetReconcileFailed => true
    case ServiceReconcileFailed => true
    case NetworkPolicyReconcileFailed => true
    case PodDisruptionBudgetReconcileFailed => true
    case _ => false
  }

  function TransitionEvent(before: AgentStatus, after: AgentStatus, kind: ConditionType): Option<Event> {
    var b, a := Find(before.conditions, kind), Find(after.conditions, kind);
    if a.None? || a.value.reason == NoReason then None
    else if b.Some? && b.value.status == a.value.status && b.value.reason == a.value.reason
      && b.value.message == a.value.message then None
    else Some(Event(if IsWarning(a.value.reason) then Warning else Normal, a.value.reason, a.value.message))
  }

  function EventsFor(before: AgentStatus, after: AgentStatus): seq<Event> {
    var config := TransitionEvent(before, after, ConfigReady);
    var persistence := TransitionEvent(before, after, PersistenceReady);
    var workload := TransitionEvent(before, after, WorkloadReady);
    var persistenceChanged := persistence.Some? && persistence.value.reason != Unknown;
    (if config.Some? && config.value.eventType == Warning then [config.value] else [])
    + (if persistenceChanged then [persistence.value] else [])
    + (if workload.Some? && workload.value.reason != Unknown
          && (!persistenceChanged || workload.value.reason != WaitingForPersistence)
       then [workload.value] else [])
  }
}
