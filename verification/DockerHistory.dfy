/**
 * What the container machine holds and makes known is told by the events alone: each container's
 * record by the reports of it, the anchor's recovery by its health reports, and every action and
 * publication by the change an event brings.
 */
module DockerHistory {
  import opened Basics
  import opened Docker

  // ---------- The state, from the events ----------

  /** The dependents last discovered. */
  function DependentsOf(events: seq<Timed>): seq<Name> {
    if events == [] then []
    else
      var e := events[|events| - 1].event;
      if e.DependentsDiscovered? then e.names else DependentsOf(events[..|events| - 1])
  }

  /** When the anchor was first reported healthy since it was last reported unhealthy. */
  function AnchorUp(anchor: Name, events: seq<Timed>): Option<Time> {
    if events == [] then None
    else
      var e, before := events[|events| - 1], AnchorUp(anchor, events[..|events| - 1]);
      if e.event == ContainerUnhealthy(anchor) then None
      else if e.event == ContainerHealthy(anchor) && before.None? then Some(e.at)
      else before
  }

  /** How often the anchor came up. */
  function Recoveries(anchor: Name, events: seq<Timed>): nat {
    if events == [] then 0
    else
      var before := events[..|events| - 1];
      Recoveries(anchor, before)
        + if AnchorUp(anchor, before).None? && AnchorUp(anchor, events).Some? then 1 else 0
  }

  function HealthOf(events: seq<Timed>, name: Name): Health {
    if events == [] then Unknown
    else
      var e := events[|events| - 1].event;
      if e == ContainerHealthy(name) then Healthy
      else if e == ContainerUnhealthy(name) then Unhealthy
      else HealthOf(events[..|events| - 1], name)
  }

  /** The start last reported. */
  function StartOf(events: seq<Timed>, name: Name): Option<Time> {
    if events == [] then None
    else
      var e := events[|events| - 1].event;
      if e.ContainerStarted? && e.name == name then Some(e.startedAt) else StartOf(events[..|events| - 1], name)
  }

  /** A dependent that is not the anchor, while the anchor is up: only such a container's start is compared. */
  predicate Compared(anchor: Name, events: seq<Timed>, name: Name) {
    name != anchor && name in DependentsOf(events) && AnchorUp(anchor, events).Some?
  }

  /**
   * A container is trusted from a start at or after the anchor's recovery until it stops, starts
   * earlier, or the anchor goes down or comes up again.
   */
  function TrustOf(anchor: Name, events: seq<Timed>, name: Name): bool {
    if events == [] then false
    else
      var before, e := events[..|events| - 1], events[|events| - 1].event;
      if e.ContainerStarted? && e.name == name && Compared(anchor, before, name)
      then e.startedAt >= AnchorUp(anchor, before).value
      else
        && TrustOf(anchor, before, name)
        && e != ContainerStopped(name)
        && !(AnchorUp(anchor, before).Some? && AnchorUp(anchor, events).None?)
        && !(AnchorUp(anchor, before).None? && AnchorUp(anchor, events).Some? && name in DependentsOf(before))
  }

  function RecordOf(anchor: Name, events: seq<Timed>, name: Name): Container {
    Container(HealthOf(events, name), StartOf(events, name), TrustOf(anchor, events, name))
  }

  ghost predicate Tells(config: Config, events: seq<Timed>, m: Machine) {
    && m.config == config && m.dependents == DependentsOf(events)
    && m.anchorSince == AnchorUp(config.anchor, events) && m.incident == Recoveries(config.anchor, events)
    && forall name :: Known(m, name) == RecordOf(config.anchor, events, name)
  }

  function Entry(containers: map<Name, Container>, name: Name): Container {
    if name in containers then containers[name] else UNSEEN
  }

  lemma {:induction false} DistrustIs(containers: map<Name, Container>, names: seq<Name>, name: Name)
    ensures Entry(Distrust(containers, names), name) ==
      if name in names then Entry(containers, name).(trusted := false) else Entry(containers, name)
  {
    if names != [] {
      var n := |names| - 1;
      DistrustIs(containers, names[..n], name);
      assert names == names[..n] + [names[n]];
    }
  }

  lemma TryRestartKeeps(m: Machine, name: Name, now: Time)
    ensures var t := TryRestart(m, name, now).machine;
      t.config == m.config && t.containers == m.containers && t.dependents == m.dependents
        && t.anchorSince == m.anchorSince && t.incident == m.incident
  {
    hide Prune;
  }

  lemma HealthyGrows(anchor: Name, events: seq<Timed>, now: Time, name: Name, other: Name)
    ensures var all, r := events + [Timed(now, ContainerHealthy(name))], RecordOf(anchor, events, other);
      var up := name == anchor && AnchorUp(anchor, events).None?;
      && DependentsOf(all) == DependentsOf(events)
      && AnchorUp(anchor, all) == (if up then Some(now) else AnchorUp(anchor, events))
      && Recoveries(anchor, all) == Recoveries(anchor, events) + (if up then 1 else 0)
      && RecordOf(anchor, all, other) ==
           Container(if other == name then Healthy else r.health, r.startedAt,
                     r.trusted && !(up && other in DependentsOf(events)))
  {
    var all := events + [Timed(now, ContainerHealthy(name))];
    assert all[..|events|] == events;
  }

  lemma HealthyTells(config: Config, events: seq<Timed>, m: Machine, now: Time, name: Name)
    requires Tells(config, events, m)
    ensures Tells(config, events + [Timed(now, ContainerHealthy(name))], HandleHealthy(m, name, now).machine)
  {
    var all := events + [Timed(now, ContainerHealthy(name))];
    var t := HandleHealthy(m, name, now).machine;
    var seen := Put(m, name, Known(m, name).(health := Healthy));
    hide DependentsOf, AnchorUp, Recoveries, RecordOf, Distrust, Inspects;
    HealthyGrows(config.anchor, events, now, name, name);
    forall other ensures Known(t, other) == RecordOf(config.anchor, all, other) {
      DistrustIs(seen.containers, m.dependents, other);
      HealthyGrows(config.anchor, events, now, name, other);
      assert Known(m, other) == RecordOf(config.anchor, events, other);
    }
  }

  lemma UnhealthyGrows(anchor: Name, events: seq<Timed>, now: Time, name: Name, other: Name)
    ensures var all, r := events + [Timed(now, ContainerUnhealthy(name))], RecordOf(anchor, events, other);
      && DependentsOf(all) == DependentsOf(events) && Recoveries(anchor, all) == Recoveries(anchor, events)
      && AnchorUp(anchor, all) == (if name == anchor then None else AnchorUp(anchor, events))
      && RecordOf(anchor, all, other) ==
           Container(if other == name then Unhealthy else r.health, r.startedAt,
                     r.trusted && !(name == anchor && AnchorUp(anchor, events).Some?))
  {
    var all := events + [Timed(now, ContainerUnhealthy(name))];
    assert all[..|events|] == events;
  }

  lemma UnhealthyTells(config: Config, events: seq<Timed>, m: Machine, now: Time, name: Name)
    requires Tells(config, events, m)
    ensures Tells(config, events + [Timed(now, ContainerUnhealthy(name))], HandleUnhealthy(m, name, now).machine)
  {
    var all := events + [Timed(now, ContainerUnhealthy(name))];
    var t := HandleUnhealthy(m, name, now).machine;
    TryRestartKeeps(Put(m, name, Known(m, name).(health := Unhealthy)), name, now);
    hide TryRestart, DependentsOf, AnchorUp, Recoveries, RecordOf;
    UnhealthyGrows(config.anchor, events, now, name, name);
    forall other ensures Known(t, other) == RecordOf(config.anchor, all, other) {
      UnhealthyGrows(config.anchor, events, now, name, other);
      assert Known(m, other) == RecordOf(config.anchor, events, other);
    }
  }

  lemma StartedGrows(anchor: Name, events: seq<Timed>, now: Time, name: Name, at: Time, other: Name)
    ensures var all, r := events + [Timed(now, ContainerStarted(name, at))], RecordOf(anchor, events, other);
      && DependentsOf(all) == DependentsOf(events) && AnchorUp(anchor, all) == AnchorUp(anchor, events)
      && Recoveries(anchor, all) == Recoveries(anchor, events)
      && RecordOf(anchor, all, other) ==
           if other != name then r
           else if Compared(anchor, events, name)
           then r.(startedAt := Some(at), trusted := at >= AnchorUp(anchor, events).value)
           else r.(startedAt := Some(at))
  {
    var all := events + [Timed(now, ContainerStarted(name, at))];
    assert all[..|events|] == events;
  }

  lemma StartedTells(config: Config, events: seq<Timed>, m: Machine, now: Time, name: Name, at: Time)
    requires Tells(config, events, m)
    ensures Tells(config, events + [Timed(now, ContainerStarted(name, at))], HandleStarted(m, name, at, now).machine)
  {
    var all := events + [Timed(now, ContainerStarted(name, at))];
    var t := HandleStarted(m, name, at, now).machine;
    TryRestartKeeps(Put(m, name, Known(m, name).(startedAt := Some(at), trusted := false)), name, now);
    hide TryRestart, DependentsOf, AnchorUp, Recoveries, RecordOf;
    StartedGrows(config.anchor, events, now, name, at, name);
    forall other ensures Known(t, other) == RecordOf(config.anchor, all, other) {
      StartedGrows(config.anchor, events, now, name, at, other);
      assert Known(m, other) == RecordOf(config.anchor, events, other);
    }
  }

  lemma OtherTells(config: Config, events: seq<Timed>, m: Machine, e: Timed)
    requires Tells(config, events, m)
    requires !e.event.ContainerHealthy? && !e.event.ContainerUnhealthy? && !e.event.ContainerStarted?
    ensures Tells(config, events + [e], Handle(m, e.at, e.event).machine)
  {
    var all := events + [e];
    assert all[..|events|] == events;
    var t := Handle(m, e.at, e.event).machine;
    forall other ensures Known(t, other) == RecordOf(config.anchor, all, other) {
      assert Known(m, other) == RecordOf(config.anchor, events, other);
    }
  }

  /**
   * In every run what the machine holds is what the events tell: the dependents, the anchor's recovery
   * and how many there were, and of each container its health, its start and whether it is trusted.
   */
  lemma {:induction false} MachineTellsItsHistory(config: Config, events: seq<Timed>)
    ensures Tells(config, events, Run(config, events).machine)
  {
    if events == [] {
      assert Run(config, events).machine.containers == map[];
    } else {
      var before, e := events[..|events| - 1], events[|events| - 1];
      var m := Run(config, before).machine;
      MachineTellsItsHistory(config, before);
      assert events == before + [e];
      assert Run(config, events).machine == Handle(m, e.at, e.event).machine;
      hide Run, Tells;
      match e.event
      case ContainerHealthy(name) => HealthyTells(config, before, m, e.at, name);
      case ContainerUnhealthy(name) => UnhealthyTells(config, before, m, e.at, name);
      case ContainerStarted(name, at) => StartedTells(config, before, m, e.at, name, at);
      case _ => OtherTells(config, before, m, e);
    }
  }

  // ---------- What each event leads to ----------

  /** What bears on an event: the record of the container it names, and what is known of the others. */
  datatype Facts = Facts(
    config: Config, dependents: seq<Name>, up: Option<Time>, record: Container, dumped: bool)

  /** The container an event names. */
  function Subject(e: Event): Name {
    match e
    case ContainerHealthy(name) => name
    case ContainerUnhealthy(name) => name
    case ContainerStopped(name) => name
    case ContainerStarted(name, _) => name
    case _ => ""
  }

  /** The facts, from the events before. */
  ghost function FactsOf(config: Config, before: seq<Timed>, e: Event): Facts {
    Facts(config, DependentsOf(before), AnchorUp(config.anchor, before), RecordOf(config.anchor, before, Subject(e)),
          Recoveries(config.anchor, before) in Run(config, before).dumps)
  }

  /** The event asks for a restart: autoheal of a dependent, or one that started before the anchor's recovery. */
  predicate AsksRestart(f: Facts, e: Event) {
    match e
    case ContainerUnhealthy(name) => f.config.autoheal && name != f.config.anchor && name in f.dependents
    case ContainerStarted(name, at) =>
      name != f.config.anchor && name in f.dependents && f.up.Some? && at < f.up.value
    case _ => false
  }

  /** What is published, told by the change the event brings. */
  predicate Published(f: Facts, e: Event, o: Outcome, p: Publish) {
    match p
    case Crashed(name) =>
      e == ContainerUnhealthy(name) && if name == f.config.anchor then f.up.Some? else f.record.health != Unhealthy
    case BecameHealthy(name) =>
      e == ContainerHealthy(name) && if name == f.config.anchor then f.up.None? else f.record.health != Healthy
    case Stopped(name) => e == ContainerStopped(name)
    case Started(name, at) => e == ContainerStarted(name, at)
    case Untrusted(name, at, since) =>
      && e == ContainerStarted(name, at) && name != f.config.anchor && name in f.dependents
      && f.up == Some(since) && at < since
    case Trusted(name) =>
      && e.ContainerStarted? && e.name == name && name != f.config.anchor && name in f.dependents
      && f.up.Some? && e.startedAt >= f.up.value && !f.record.trusted
    case RestartStorm(count, max) => AsksRestart(f, e) && !Restarted(o) && count == max == f.config.maxRestarts
  }

  /** What is asked of Docker: a restart of the container reported, or everyone's logs, or inspections. */
  predicate Requested(f: Facts, e: Event, o: Outcome, a: Action) {
    match a
    case RestartContainer(name) => AsksRestart(f, e) && !Stormed(o) && name == Subject(e)
    case InspectContainer(name) =>
      || (e.Init? && name == f.config.anchor)
      || (e == ContainerHealthy(f.config.anchor) && f.up.None? && name in f.dependents)
    case DumpLogs(name) =>
      AsksRestart(f, e) && Stormed(o) && !f.dumped && (name == f.config.anchor || name in f.dependents)
    case DiscoverDependents => e.Init?
  }

  lemma {:induction false} ListsName(names: seq<Name>, name: Name)
    ensures DumpLogs(name) in Dumps(names) <==> name in names
    ensures InspectContainer(name) in Inspects(names) <==> name in names
  {
    if names != [] {
      ListsName(names[..|names| - 1], name);
      assert names == names[..|names| - 1] + [names[|names| - 1]];
    }
  }

  lemma PruneShrinks(restarts: seq<Time>, now: Time, window: nat)
    ensures |Prune(restarts, now, window)| <= |restarts|
  {
    PruneDropsTheOld(restarts, now, window);
  }

  /** A restart asked for is made, or is a storm; the logs are dumped the first time in an incident. */
  lemma TryRestartLeads(m: Machine, name: Name, now: Time)
    requires m.config.maxRestarts > 0 ==> |m.restarts| <= m.config.maxRestarts
    ensures var o, max := TryRestart(m, name, now), m.config.maxRestarts;
      && (max > 0 ==> |o.machine.restarts| <= max)
      && (|| (o.actions == [RestartContainer(name)] && o.publishes == [] && o.machine.dumped == m.dumped)
          || (o.publishes == [RestartStorm(max, max)] && o.machine.dumped
              && o.actions == if m.dumped then [] else DumpAll(m)))
  {
    PruneShrinks(m.restarts, now, m.config.window);
  }

  lemma DumpAllNames(m: Machine, a: Action)
    ensures a in DumpAll(m) <==> a.DumpLogs? && (a.name == m.config.anchor || a.name in m.dependents)
  {
    if a.DumpLogs? { ListsName(m.dependents, a.name); }
    ListsOnlyName(m.dependents);
    assert DumpAll(m)[0] == DumpLogs(m.config.anchor);
    assert forall i :: 1 <= i < |DumpAll(m)| ==> DumpAll(m)[i] == Dumps(m.dependents)[i - 1];
    if a in Dumps(m.dependents) {
      var i :| 0 <= i < |Dumps(m.dependents)| && Dumps(m.dependents)[i] == a;
      assert DumpAll(m)[i + 1] == a;
    }
  }

  /** The window is no fuller than it may be, and the logs were dumped if this incident is among the dumps. */
  ghost predicate Kept(h: History) {
    && (h.machine.config.maxRestarts > 0 ==> |h.machine.restarts| <= h.machine.config.maxRestarts)
    && (h.machine.dumped <==> h.machine.incident in h.dumps)
    && (forall i :: 0 <= i < |h.dumps| ==> h.dumps[i] <= h.machine.incident)
  }

  /** Logs are dumped exactly at a storm of an incident that had none, and a new incident has none. */
  lemma HandleDumpsIff(m: Machine, now: Time, e: Event)
    requires m.config.maxRestarts > 0 ==> |m.restarts| <= m.config.maxRestarts
    ensures var o := Handle(m, now, e);
      && (o.machine.config.maxRestarts > 0 ==> |o.machine.restarts| <= o.machine.config.maxRestarts)
      && (if o.machine.incident == m.incident then o.machine.dumped <==> m.dumped || DumpedLogs(o)
          else o.machine.incident == m.incident + 1 && !o.machine.dumped && !DumpedLogs(o))
  {
    ListsOnlyName(m.dependents);
    match e
    case ContainerUnhealthy(name) =>
      TryDumpsIff(Put(m, name, Known(m, name).(health := Unhealthy)), name, now);
      hide TryRestart;
    case ContainerStarted(name, at) =>
      TryDumpsIff(Put(m, name, Known(m, name).(startedAt := Some(at), trusted := false)), name, now);
      hide TryRestart;
    case _ => hide TryRestart, Distrust;
  }

  lemma TryDumpsIff(m: Machine, name: Name, now: Time)
    requires m.config.maxRestarts > 0 ==> |m.restarts| <= m.config.maxRestarts
    ensures var o := TryRestart(m, name, now);
      && o.machine.config == m.config && o.machine.incident == m.incident
      && (m.config.maxRestarts > 0 ==> |o.machine.restarts| <= m.config.maxRestarts)
      && (o.machine.dumped <==> m.dumped || DumpedLogs(o))
  {
    TryRestartLeads(m, name, now);
    TryRestartKeeps(m, name, now);
    ListsOnlyName(m.dependents);
    assert DumpAll(m)[0].DumpLogs?;
    hide TryRestart;
  }

  lemma {:induction false} RunKept(config: Config, events: seq<Timed>)
    ensures Kept(Run(config, events))
  {
    if events != [] {
      var h, e := Run(config, events[..|events| - 1]), events[|events| - 1];
      RunKept(config, events[..|events| - 1]);
      HandleDumpsIff(h.machine, e.at, e.event);
      var o := Handle(h.machine, e.at, e.event);
      var t := Run(config, events);
      assert t.machine == o.machine && t.dumps == if DumpedLogs(o) then h.dumps + [h.machine.incident] else h.dumps;
      hide Handle, DumpedLogs, Restarted, Run;
    }
  }

  /** What trying a restart makes known and asks for, as the two lists hold it. */
  lemma TryRestartLists(m: Machine, name: Name, now: Time, others: seq<Publish>)
    requires m.config.maxRestarts > 0 ==> |m.restarts| <= m.config.maxRestarts
    requires forall p :: p in others ==> !p.RestartStorm?
    ensures var o, max := TryRestart(m, name, now), m.config.maxRestarts;
      var all := o.(publishes := others + o.publishes);
      && (Restarted(all) <==> !Stormed(all))
      && (forall p :: p in all.publishes <==> p in others || (p == RestartStorm(max, max) && !Restarted(all)))
      && (forall a :: a in all.actions <==>
            || (a == RestartContainer(name) && !Stormed(all))
            || (a.DumpLogs? && Stormed(all) && !m.dumped && (a.name == m.config.anchor || a.name in m.dependents)))
  {
    TryRestartLeads(m, name, now);
    var o := TryRestart(m, name, now);
    var all := o.(publishes := others + o.publishes);
    hide TryRestart;
    forall a ensures a in DumpAll(m) <==> a.DumpLogs? && (a.name == m.config.anchor || a.name in m.dependents) {
      DumpAllNames(m, a);
    }
    hide DumpAll;
    if o.actions == [RestartContainer(name)] {
      assert all.actions[0].RestartContainer?;
      assert forall i :: 0 <= i < |others| ==> others[i] in others;
      assert all.publishes == others;
    } else {
      assert all.publishes[|others|].RestartStorm?;
      assert forall i :: 0 <= i < |o.actions| ==> o.actions[i] in o.actions;
    }
  }

  /** This outcome holds exactly what the facts tell. */
  ghost predicate Told(f: Facts, e: Event, o: Outcome) {
    && (forall p :: p in o.publishes <==> Published(f, e, o, p))
    && (forall a :: a in o.actions <==> Requested(f, e, o, a))
  }

  ghost function FactsIn(m: Machine, e: Event): Facts {
    Facts(m.config, m.dependents, m.anchorSince, Known(m, Subject(e)), m.dumped)
  }

  ghost predicate NotOverfull(m: Machine) {
    m.config.maxRestarts > 0 ==> |m.restarts| <= m.config.maxRestarts
  }

  lemma RestartTold(f: Facts, e: Event, o: Outcome, others: seq<Publish>)
    requires AsksRestart(f, e)
    requires forall p :: p in others <==> !p.RestartStorm? && Published(f, e, o, p)
    requires forall p :: p in o.publishes <==>
      p in others || (p == RestartStorm(f.config.maxRestarts, f.config.maxRestarts) && !Restarted(o))
    requires forall a :: a in o.actions <==>
      || (a == RestartContainer(Subject(e)) && !Stormed(o))
      || (a.DumpLogs? && Stormed(o) && !f.dumped && (a.name == f.config.anchor || a.name in f.dependents))
    ensures Told(f, e, o)
  {
    hide Restarted, Stormed;
    assert forall p :: p in o.publishes <==> Published(f, e, o, p);
  }

  lemma SickLeads(m: Machine, now: Time, name: Name)
    requires NotOverfull(m) && AsksRestart(FactsIn(m, ContainerUnhealthy(name)), ContainerUnhealthy(name))
    ensures var e := ContainerUnhealthy(name); Told(FactsIn(m, e), e, Handle(m, now, e))
  {
    var seen := Put(m, name, Known(m, name).(health := Unhealthy));
    var others := if Known(m, name).health.Unhealthy? then [] else [Crashed(name)];
    TryRestartLists(seen, name, now, others);
    var o := Handle(m, now, ContainerUnhealthy(name));
    assert o == TryRestart(seen, name, now).(publishes := others + TryRestart(seen, name, now).publishes);
    hide TryRestart, Handle, Stormed, Restarted, Told;
    RestartTold(FactsIn(m, ContainerUnhealthy(name)), ContainerUnhealthy(name), o, others);
  }

  lemma StaleLeads(m: Machine, now: Time, name: Name, at: Time)
    requires NotOverfull(m) && AsksRestart(FactsIn(m, ContainerStarted(name, at)), ContainerStarted(name, at))
    ensures var e := ContainerStarted(name, at); Told(FactsIn(m, e), e, Handle(m, now, e))
  {
    var seen := Put(m, name, Known(m, name).(startedAt := Some(at), trusted := false));
    var others := [Started(name, at)] + [Untrusted(name, at, m.anchorSince.value)];
    TryRestartLists(seen, name, now, others);
    var o := Handle(m, now, ContainerStarted(name, at));
    assert o == TryRestart(seen, name, now).(publishes := others + TryRestart(seen, name, now).publishes);
    hide TryRestart, Handle, Stormed, Restarted, Told;
    RestartTold(FactsIn(m, ContainerStarted(name, at)), ContainerStarted(name, at), o, others);
  }

  lemma QuietLeads(m: Machine, now: Time, e: Event)
    requires (e.ContainerUnhealthy? || e.ContainerStarted?) && !AsksRestart(FactsIn(m, e), e)
    ensures Told(FactsIn(m, e), e, Handle(m, now, e))
  {
    hide TryRestart;
  }

  lemma HealthyLeads(m: Machine, now: Time, name: Name)
    ensures var e := ContainerHealthy(name); Told(FactsIn(m, e), e, Handle(m, now, e))
  {
    forall a ensures a in Inspects(m.dependents) <==> a.InspectContainer? && a.name in m.dependents {
      if a.InspectContainer? { ListsName(m.dependents, a.name); }
      ListsOnlyName(m.dependents);
    }
    hide Inspects, Distrust;
  }

  lemma OtherLeads(m: Machine, now: Time, e: Event)
    requires !e.ContainerUnhealthy? && !e.ContainerStarted? && !e.ContainerHealthy?
    ensures Told(FactsIn(m, e), e, Handle(m, now, e))
  {
    hide Known;
  }

  /**
   * In every run each event publishes and asks for exactly what the events tell: crashes and
   * recoveries at the change of health, trust at its change, a restart of the very container that was
   * reported, and a storm and the dump of everyone's logs, once an incident, where it was refused.
   */
  lemma OutcomesAreTold(config: Config, before: seq<Timed>, e: Timed)
    ensures Told(FactsOf(config, before, e.event), e.event, Handle(Run(config, before).machine, e.at, e.event))
  {
    MachineTellsItsHistory(config, before);
    RunKept(config, before);
    var m := Run(config, before).machine;
    assert FactsIn(m, e.event) == FactsOf(config, before, e.event);
    assert NotOverfull(m);
    hide Run, Tells, Kept, Handle, Told, FactsOf;
    if AsksRestart(FactsIn(m, e.event), e.event) {
      match e.event
      case ContainerUnhealthy(name) => SickLeads(m, e.at, name);
      case ContainerStarted(name, at) => StaleLeads(m, e.at, name, at);
    } else if e.event.ContainerUnhealthy? || e.event.ContainerStarted? {
      QuietLeads(m, e.at, e.event);
    } else if e.event.ContainerHealthy? {
      HealthyLeads(m, e.at, e.event.name);
    } else {
      OtherLeads(m, e.at, e.event);
    }
  }
}
