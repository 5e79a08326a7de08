/** What the events of a status patch say: every failure not already shown, once. */
module Announcements {
  import opened Prelude
  import opened Api
  import opened Status
  import opened Store
  import opened Reconciliation

  /** The condition that carries a failure. */
  function Headline(failure: Failure): Setting {
    match ChangeFor(failure)
    case ConfigFailure(reason, f) => Setting(ConfigReady, ConditionFalse, reason, Cause(f))
    case PersistenceFailure(f) =>
      Setting(PersistenceReady, ConditionFalse,
        if f.SpecDrift? then PersistentVolumeClaimSpecDrift else PersistentVolumeClaimReconcileFailed, Cause(f))
    case WorkloadFailure(reason, f) => Setting(WorkloadReady, ConditionFalse, reason, Cause(f))
    case Observed(_) => Setting(Overall, ConditionUnknown, NoReason, Fixed)
  }

  /** The status already says this, whenever it was said. */
  predicate Displays(s: AgentStatus, setting: Setting) {
    && Find(s.conditions, setting.kind).Some?
    && var c := Find(s.conditions, setting.kind).value;
       c.status == setting.status && c.reason == setting.reason && c.message == setting.message
  }

  function Announcement(setting: Setting): Event {
    Event(if IsWarning(setting.reason) then Warning else Normal, setting.reason, setting.message)
  }

  /** A condition that a status shows is news exactly if the status before did not display it. */
  lemma News(before: AgentStatus, after: AgentStatus, setting: Setting, generation: int)
    requires Shows(after.conditions, setting, generation) && setting.reason != NoReason
    ensures TransitionEvent(before, after, setting.kind) == if Displays(before, setting) then None
      else Some(Announcement(setting))
  {
    hide Find, IsWarning;
  }

  /** Every kind of failure has its own condition, a warning, with the failure as its cause. */
  lemma HeadlineOf(failure: Failure)
    ensures !ChangeFor(failure).Observed? && Announcement(Headline(failure)) ==
      Event(Warning, Headline(failure).reason, Cause(failure))
    ensures Headline(failure) in Settings(ChangeFor(failure))
  {
    var change := ChangeFor(failure);
    if change.ConfigFailure? {
      assert Settings(change)[0] == Headline(failure);
    } else {
      assert Settings(change)[1] == Headline(failure);
    }
  }

  ghost predicate ShowsAll(t: AgentStatus, change: StatusChange, generation: int) {
    forall i :: 0 <= i < |Settings(change)| ==> Shows(t.conditions, Settings(change)[i], generation)
  }

  lemma ConfigNews(s: AgentStatus, t: AgentStatus, reason: Reason, failure: Failure, generation: int)
    requires ShowsAll(t, ConfigFailure(reason, failure), generation) && IsWarning(reason)
    ensures EventsFor(s, t) ==
      if Displays(s, Setting(ConfigReady, ConditionFalse, reason, Cause(failure))) then []
      else [Event(Warning, reason, Cause(failure))]
  {
    var settings := Settings(ConfigFailure(reason, failure));
    forall i | 0 <= i < 3 ensures Shows(t.conditions, settings[i], generation) && settings[i].reason != NoReason {}
    hide Displays, TransitionEvent, Shows;
    News(s, t, settings[0], generation);
    News(s, t, settings[1], generation);
    News(s, t, settings[2], generation);
  }

  /** Where the persistence event stands among the events. */
  lemma PersistenceFirst(s: AgentStatus, t: AgentStatus)
    requires var e := TransitionEvent(s, t, ConfigReady); e.None? || e.value.eventType == Normal
    requires var e := TransitionEvent(s, t, PersistenceReady); e.Some? ==> e.value.reason != Unknown
    ensures var own, rest := TransitionEvent(s, t, PersistenceReady), TransitionEvent(s, t, WorkloadReady);
      var first := if own.Some? then [own.value] else [];
      EventsFor(s, t) == first || (rest.Some? && EventsFor(s, t) == first + [rest.value])
  {
    hide TransitionEvent;
  }

  lemma AtMostOnce(first: seq<Event>, own: Event, rest: Event)
    requires own != rest && (first == [] || first == [own])
    ensures own in first <==> own in first + [rest]
    ensures multiset(first)[own] <= 1 && multiset(first + [rest])[own] <= 1
  {
  }

  lemma PersistenceNews(s: AgentStatus, t: AgentStatus, failure: Failure, generation: int)
    requires ShowsAll(t, PersistenceFailure(failure), generation)
    ensures var setting := Settings(PersistenceFailure(failure))[1];
      && (Announcement(setting) in EventsFor(s, t) <==> !Displays(s, setting))
      && multiset(EventsFor(s, t))[Announcement(setting)] <= 1
  {
    var settings := Settings(PersistenceFailure(failure));
    forall i | 0 <= i < 3 ensures Shows(t.conditions, settings[i], generation) && settings[i].reason != NoReason {}
    var own, workload := Announcement(settings[1]), Announcement(settings[2]);
    assert settings[0].kind == ConfigReady && settings[1].kind == PersistenceReady && settings[2].kind == WorkloadReady;
    assert workload != own && Announcement(settings[0]).eventType == Normal && own.reason != Unknown;
    hide Displays, TransitionEvent, Shows, Settings, IsWarning, EventsFor, Announcement;
    News(s, t, settings[0], generation);
    News(s, t, settings[1], generation);
    News(s, t, settings[2], generation);
    PersistenceFirst(s, t);
    AtMostOnce(if Displays(s, settings[1]) then [] else [own], own, workload);
  }

  lemma WorkloadNews(s: AgentStatus, t: AgentStatus, reason: Reason, failure: Failure, generation: int)
    requires ShowsAll(t, WorkloadFailure(reason, failure), generation) && IsWarning(reason)
    requires Find(t.conditions, PersistenceReady) == Find(s.conditions, PersistenceReady)
    ensures EventsFor(s, t) ==
      if Displays(s, Setting(WorkloadReady, ConditionFalse, reason, Cause(failure))) then []
      else [Event(Warning, reason, Cause(failure))]
  {
    var settings := Settings(WorkloadFailure(reason, failure));
    forall i | 0 <= i < 2 ensures Shows(t.conditions, settings[i], generation) && settings[i].reason != NoReason {}
    assert TransitionEvent(s, t, PersistenceReady).None?;
    hide Displays, TransitionEvent, Shows;
    News(s, t, settings[0], generation);
    News(s, t, settings[1], generation);
  }

  lemma FailureNews(s: AgentStatus, t: AgentStatus, failure: Failure, generation: int)
    requires ShowsAll(t, ChangeFor(failure), generation)
    requires ChangeFor(failure).WorkloadFailure? ==>
      Find(t.conditions, PersistenceReady) == Find(s.conditions, PersistenceReady)
    ensures var event := Event(Warning, Headline(failure).reason, Cause(failure));
      && (event in EventsFor(s, t) <==> !Displays(s, Headline(failure)))
      && multiset(EventsFor(s, t))[event] <= 1
  {
    HeadlineOf(failure);
    hide EventsFor, Displays, ShowsAll;
    match ChangeFor(failure)
    case ConfigFailure(reason, f) => ConfigNews(s, t, reason, f, generation);
    case PersistenceFailure(f) => PersistenceNews(s, t, f, generation);
    case WorkloadFailure(reason, f) => WorkloadNews(s, t, reason, f, generation);
  }

  /** Reporting a failure emits a warning with its reason and cause exactly if the status did not already display
      it, never twice, and the status displays it from then on. */
  lemma FailureAnnounced(c: Cluster, writes: seq<Write>, agent: string, spec: AgentSpec, hash: string,
        failure: Failure, now: nat, outcome: Outcome)
    requires agent in c.agents
    ensures var r := Report(c, writes, agent, spec, hash, ChangeFor(failure), now, outcome);
      var event := Event(Warning, Headline(failure).reason, Cause(failure));
      && (event in r.events <==> !Displays(c.agents[agent].status, Headline(failure)))
      && multiset(r.events)[event] <= 1
      && agent in r.cluster.agents && Displays(r.cluster.agents[agent].status, Headline(failure))
  {
    hide Patched, EventsFor, Displays, Headline, ChangeFor, ShowsAll;
    var change, latest := ChangeFor(failure), c.agents[agent];
    var t := Patched(latest.status, latest.generation, agent, spec, hash, change, now);
    HeadlineOf(failure);
    PatchShows(latest.status, latest.generation, agent, spec, hash, change, now);
    HeadlineDisplayed(t, failure, latest.generation);
    FailureNews(latest.status, t, failure, latest.generation);
  }

  /** After one failure another under the same condition is announced exactly if it is not the same one again: a spec
      edited into a differently invalid one is. */
  lemma NextFailureAnnounced(c: Cluster, writes: seq<Write>, agent: string, spec: AgentSpec, hash: string,
        failure: Failure, next: Failure, now: nat, outcome: Outcome)
    requires agent in c.agents && Headline(next).kind == Headline(failure).kind
    requires Displays(c.agents[agent].status, Headline(failure))
    ensures var event := Event(Warning, Headline(next).reason, Cause(next));
      event in Report(c, writes, agent, spec, hash, ChangeFor(next), now, outcome).events <==> next != failure
  {
    assert Headline(next).message == Cause(next) && Headline(failure).message == Cause(failure);
    hide Report, ChangeFor, Headline, Find;
    FailureAnnounced(c, writes, agent, spec, hash, next, now, outcome);
  }

  lemma HeadlineDisplayed(t: AgentStatus, failure: Failure, generation: int)
    requires ShowsAll(t, ChangeFor(failure), generation)
    ensures Displays(t, Headline(failure))
  {
    HeadlineOf(failure);
    var settings := Settings(ChangeFor(failure));
    hide Settings, Headline, ChangeFor, Find;
    var i :| 0 <= i < |settings| && settings[i] == Headline(failure);
    assert Shows(t.conditions, settings[i], generation);
  }

  lemma PatchShows(s: AgentStatus, generation: int, agent: string, spec: AgentSpec, hash: string, change: StatusChange,
        now: nat)
    requires WellKinded(change)
    ensures var t := Patched(s, generation, agent, spec, hash, change, now);
      && ShowsAll(t, change, generation)
      && (change.WorkloadFailure? ==> Find(t.conditions, PersistenceReady) == Find(s.conditions, PersistenceReady))
  {
    var t := Patched(s, generation, agent, spec, hash, change, now);
    assert t.conditions == SetAll(s.conditions, Settings(change), generation, now);
    hide Patched, SetAll, Shows, Settings;
    ShownConditions(s.conditions, change, generation, now);
  }
}
