/** The claim is never deleted, and what cannot change in place is reported, not changed. */
module Claims {
  import opened Prelude
  import opened Api
  import opened Sorting
  import opened ConfigPlan
  import opened Status
  import opened Store

  /** Sorting both lists and comparing is the same as comparing them as multisets. */
  lemma SameModesExact(left: seq<string>, right: seq<string>)
    ensures SameModes(left, right) <==> multiset(left) == multiset(right)
  {
    StringLeTotal();
    SortCanonical(StringLe, left, right);
    assert |multiset(left)| == |left| && |multiset(right)| == |right|;
  }

  /** The access modes are those of the spec in some order, or ReadWriteOnce for a spec that lists none. */
  ghost predicate ModesAsked(spec: AgentSpec, modes: seq<string>) {
    && (spec.persistence.accessModes != [] ==> multiset(modes) == multiset(spec.persistence.accessModes))
    && (spec.persistence.accessModes == [] ==> modes == ["ReadWriteOnce"])
  }

  /** The settings that cannot change in place agree. */
  ghost predicate SameStorage(spec: AgentSpec, existing: ClaimSpec) {
    && ModesAsked(spec, existing.accessModes)
    && (spec.persistence.storageClassName.Some? ==> existing.storageClassName == spec.persistence.storageClassName)
  }

  /** The reported fields are exactly those that differ, each once. */
  lemma DriftExact(spec: AgentSpec, existing: ClaimSpec, request: int)
    ensures var drifted := DriftedFields(spec, existing, BuildClaim(spec, request));
      && (AccessModesField in drifted <==> !ModesAsked(spec, existing.accessModes))
      && (StorageClassField in drifted <==>
            spec.persistence.storageClassName.Some? && existing.storageClassName != spec.persistence.storageClassName)
      && (drifted == [] <==> SameStorage(spec, existing))
      && multiset(drifted) <= multiset{AccessModesField, StorageClassField}
  {
    ModesDrift(spec, existing.accessModes);
    hide SameModes, ModesAsked, PersistenceAccessModes;
  }

  lemma ModesDrift(spec: AgentSpec, modes: seq<string>)
    ensures SameModes(modes, PersistenceAccessModes(spec)) <==> ModesAsked(spec, modes)
  {
    SameModesExact(modes, PersistenceAccessModes(spec));
    hide SameModes;
    if spec.persistence.accessModes == [] { OneMode(modes, "ReadWriteOnce"); }
  }

  lemma OneMode(modes: seq<string>, mode: string)
    ensures multiset(modes) == multiset([mode]) <==> modes == [mode]
  {
    if multiset(modes) == multiset([mode]) {
      assert |multiset(modes)| == |modes| && |multiset([mode])| == 1;
      assert modes[0] in multiset(modes);
      assert modes == [modes[0]];
    }
  }

  lemma NoDrift(spec: AgentSpec, existing: ClaimSpec, request: int)
    ensures DriftedFields(spec, existing, BuildClaim(spec, request)) == [] <==> SameStorage(spec, existing)
  {
    DriftExact(spec, existing, request);
  }

  /** What a claim keeps whatever a reconcile does. */
  predicate ClaimKept(before: Claim, after: Claim) {
    && after.spec.accessModes == before.spec.accessModes && after.spec.storageClassName == before.spec.storageClassName
    && after.phase == before.phase
  }

  /** Every claim survives the step with its access modes and storage class, and only the agent's own
      claim can change at all. */
  lemma ClaimStepSafe(lib: Library, claims: map<string, Claim>, agent: string, spec: AgentSpec, n: string)
    requires n in claims
    ensures var r := ClaimStep(lib, claims, agent, spec);
      && n in r.store && ClaimKept(claims[n], r.store[n])
      && (n != ClaimName(agent) ==> r.store[n] == claims[n])
      && (forall w | w in r.writes :: w.resource == ClaimResource && w.name == ClaimName(agent) && w.verb != Delete)
  {
    hide DriftedFields, BuildClaim, ResourceLabels, ClaimName;
  }

  /** A drift failure is reported exactly for an existing claim whose storage settings differ. */
  lemma DriftReported(lib: Library, claims: map<string, Claim>, agent: string, spec: AgentSpec)
    ensures var failure := ClaimStep(lib, claims, agent, spec).failure;
      failure.Some? && failure.value.SpecDrift? <==>
        && PersistenceEnabled(spec) && lib.parseQuantity(PersistenceSize(spec)).Some?
        && ClaimName(agent) in claims && !SameStorage(spec, claims[ClaimName(agent)].spec)
  {
    hide DriftedFields, SameStorage, ResourceLabels, ClaimName, BuildClaim;
    var request := lib.parseQuantity(PersistenceSize(spec));
    if ClaimName(agent) in claims && request.Some? {
      NoDrift(spec, claims[ClaimName(agent)].spec, request.value);
    }
  }

  /** The size the spec asks for, or ten gibibytes. */
  ghost predicate SizeAsked(lib: Library, spec: AgentSpec, request: int) {
    && (spec.persistence.size != "" ==> lib.parseQuantity(spec.persistence.size) == Some(request))
    && (spec.persistence.size == "" ==> lib.parseQuantity("10Gi") == Some(request))
  }

  /** The agent's claim after a step that succeeded, in the fields of the spec: a new claim takes access modes and
      storage class as they are written there, an old one keeps its own, which were asked for; both request the size
      asked for. Without persistence nothing changes. */
  lemma ClaimExact(lib: Library, claims: map<string, Claim>, agent: string, spec: AgentSpec)
    requires ClaimStep(lib, claims, agent, spec).failure.None?
    ensures var after, n := ClaimStep(lib, claims, agent, spec).store, agent + "-data";
      if spec.persistence.enabled == Some(false) then after == claims
      else
        && n in after && after[n].controller == Some(AgentOwner(agent)) && SizeAsked(lib, spec, after[n].spec.request)
        && (n !in claims ==>
          && after[n].spec.storageClassName == spec.persistence.storageClassName && after[n].phase == ClaimPending
          && after[n].spec.accessModes ==
            if spec.persistence.accessModes == [] then ["ReadWriteOnce"] else spec.persistence.accessModes)
        && (n in claims ==>
          && after[n].spec == claims[n].spec.(request := after[n].spec.request) && after[n].phase == claims[n].phase
          && SameStorage(spec, claims[n].spec))
  {
    hide DriftedFields, ResourceLabels, SameStorage;
    var request := lib.parseQuantity(PersistenceSize(spec));
    if agent + "-data" in claims && request.Some? { NoDrift(spec, claims[agent + "-data"].spec, request.value); }
  }
}
