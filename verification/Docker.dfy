/** The archived container machine: a restart breaker over a sliding window, and namespace trust. */
module Docker {
  import opened Basics

  type Name = string

  datatype Health = Unknown | Healthy | Unhealthy

  datatype Container = Container(health: Health, startedAt: Option<Time>, trusted: bool)

  const UNSEEN: Container := Container(Unknown, None, false)

  datatype Config = Config(anchor: Name, maxRestarts: nat, window: nat, autoheal: bool)

  datatype Machine = Machine(
    config: Config,
    containers: map<Name, Container>,
    dependents: seq<Name>,
    anchorSince: Option<Time>,
    restarts: seq<Time>,
    incident: nat,
    dumped: bool)

  datatype Event =
    | Init
    | ContainerHealthy(name: Name)
    | ContainerUnhealthy(name: Name)
    | ContainerStopped(name: Name)
    | ContainerStarted(name: Name, startedAt: Time)
    | DependentsDiscovered(names: seq<Name>)
    | LogsDumped
    | LogsDumpFailed

  datatype Action =
    | RestartContainer(name: Name)
    | InspectContainer(name: Name)
    | DumpLogs(name: Name)
    | DiscoverDependents

  datatype Publish =
    | Crashed(name: Name)
    | BecameHealthy(name: Name)
    | Stopped(name: Name)
    | Started(name: Name, at: Time)
    | Untrusted(name: Name, at: Time, anchorSince: Time)
    | Trusted(name: Name)
    | RestartStorm(count: nat, max: nat)

  datatype Outcome = Outcome(machine: Machine, actions: seq<Action>, publishes: seq<Publish>)

  /** The window without the restarts older than its length. */
  function Prune(restarts: seq<Time>, now: Time, window: nat): seq<Time> {
    if restarts != [] && now - restarts[0] > window then Prune(restarts[1..], now, window) else restarts
  }

  function Dumps(names: seq<Name>): seq<Action> {
    if names == [] then [] else Dumps(names[..|names| - 1]) + [DumpLogs(names[|names| - 1])]
  }

  function Inspects(names: seq<Name>): seq<Action> {
    if names == [] then [] else Inspects(names[..|names| - 1]) + [InspectContainer(names[|names| - 1])]
  }

  function DumpAll(m: Machine): seq<Action> {
    [DumpLogs(m.config.anchor)] + Dumps(m.dependents)
  }

  /** A restart, unless the window is full: then a storm is published and logs are dumped once an incident. */
  function TryRestart(m: Machine, name: Name, now: Time): Outcome {
    var recent := Prune(m.restarts, now, m.config.window);
    var pruned := m.(restarts := recent);
    if m.config.maxRestarts == 0 || |recent| < m.config.maxRestarts
    then Outcome(pruned.(restarts := recent + [now]), [RestartContainer(name)], [])
    else Outcome(pruned.(dumped := true), if m.dumped then [] else DumpAll(m),
        [RestartStorm(|recent|, m.config.maxRestarts)])
  }

  function Known(m: Machine, name: Name): Container {
    if name in m.containers then m.containers[name] else UNSEEN
  }

  function Put(m: Machine, name: Name, c: Container): Machine {
    m.(containers := m.containers[name := c])
  }

  /** Every listed container known and untrusted. */
  function Distrust(containers: map<Name, Container>, names: seq<Name>): map<Name, Container> {
    if names == [] then containers
    else
      var before := Distrust(containers, names[..|names| - 1]);
      var name := names[|names| - 1];
      before[name := if name in before then before[name].(trusted := false) else UNSEEN]
  }

  function DistrustAll(containers: map<Name, Container>): map<Name, Container> {
    map name | name in containers :: containers[name].(trusted := false)
  }

  function HandleHealthy(m: Machine, name: Name, now: Time): Outcome {
    var c := Known(m, name);
    var seen := Put(m, name, c.(health := Healthy));
    if name == m.config.anchor then
      if m.anchorSince.Some? then Outcome(seen, [], [])
      else
        Outcome(
          seen.(anchorSince := Some(now), incident := m.incident + 1, dumped := false,
                containers := Distrust(seen.containers, m.dependents)),
          Inspects(m.dependents),
          [BecameHealthy(name)])
    else Outcome(seen, [], if c.health.Healthy? then [] else [BecameHealthy(name)])
  }

  function HandleUnhealthy(m: Machine, name: Name, now: Time): Outcome {
    var c := Known(m, name);
    var seen := Put(m, name, c.(health := Unhealthy));
    if name == m.config.anchor then
      if m.anchorSince.None? then Outcome(seen, [], [])
      else Outcome(seen.(anchorSince := None, containers := DistrustAll(seen.containers)), [], [Crashed(name)])
    else
      var published := if c.health.Unhealthy? then [] else [Crashed(name)];
      if m.config.autoheal && name in m.dependents then
        var tried := TryRestart(seen, name, now);
        tried.(publishes := published + tried.publishes)
      else Outcome(seen, [], published)
  }

  function HandleStarted(m: Machine, name: Name, at: Time, now: Time): Outcome {
    var c := Known(m, name).(startedAt := Some(at));
    var started := [Started(name, at)];
    if name != m.config.anchor && name in m.dependents && m.anchorSince.Some? then
      if at >= m.anchorSince.value then
        Outcome(Put(m, name, c.(trusted := true)), [], if c.trusted then started else started + [Trusted(name)])
      else
        var tried := TryRestart(Put(m, name, c.(trusted := false)), name, now);
        tried.(publishes := started + [Untrusted(name, at, m.anchorSince.value)] + tried.publishes)
    else Outcome(Put(m, name, c), [], started)
  }

  function Handle(m: Machine, now: Time, event: Event): Outcome {
    match event
    case Init => Outcome(m, [DiscoverDependents, InspectContainer(m.config.anchor)], [])
    case DependentsDiscovered(names) => Outcome(m.(dependents := names), [], [])
    case ContainerHealthy(name) => HandleHealthy(m, name, now)
    case ContainerUnhealthy(name) => HandleUnhealthy(m, name, now)
    case ContainerStopped(name) => Outcome(Put(m, name, Known(m, name).(trusted := false)), [], [Stopped(name)])
    case ContainerStarted(name, at) => HandleStarted(m, name, at, now)
    case LogsDumped => Outcome(m, [], [])
    case LogsDumpFailed => Outcome(m, [], [])
  }

  // ---------- The machine updated in place ----------

  class DockerMachine {
    const config: Config
    var containers: map<Name, Container>
    var dependents: seq<Name>
    var anchorSince: Option<Time>
    var restarts: seq<Time>
    var incident: nat
    var dumped: bool

    ghost function View(): Machine
      reads this
    {
      Machine(config, containers, dependents, anchorSince, restarts, incident, dumped)
    }

    constructor (c: Config)
      ensures View() == Machine(c, map[], [], None, [], 0, false)
    {
      config := c;
      containers, dependents, anchorSince, restarts, incident, dumped := map[], [], None, [], 0, false;
    }

    /** Drop restarts older than the window from the front. */
    method PruneWindow(now: Time)
      modifies this`restarts
      ensures restarts == Prune(old(restarts), now, config.window)
    {
      while restarts != [] && now - restarts[0] > config.window
        invariant Prune(restarts, now, config.window) == Prune(old(restarts), now, config.window)
        decreases |restarts|
      {
        restarts := restarts[1..];
      }
    }

    method AttemptRestart(name: Name, now: Time) returns (actions: seq<Action>, publishes: seq<Publish>)
      modifies this`restarts, this`dumped
      ensures Outcome(View(), actions, publishes) == TryRestart(old(View()), name, now)
    {
      PruneWindow(now);
      if config.maxRestarts == 0 || |restarts| < config.maxRestarts {
        restarts := restarts + [now];
        return [RestartContainer(name)], [];
      }
      actions, publishes := [], [RestartStorm(|restarts|, config.maxRestarts)];
      if !dumped {
        dumped := true;
        actions := [DumpLogs(config.anchor)];
        var i := 0;
        while i < |dependents|
          invariant i <= |dependents| && actions == [DumpLogs(config.anchor)] + Dumps(dependents[..i])
        {
          actions := actions + [DumpLogs(dependents[i])];
          assert dependents[..i + 1][..i] == dependents[..i];
          i := i + 1;
        }
        assert dependents[..i] == dependents;
      }
    }

    method AnchorRecovered(now: Time) returns (actions: seq<Action>)
      modifies this
      ensures View() == old(View()).(anchorSince := Some(now), incident := old(incident) + 1, dumped := false,
                                     containers := Distrust(old(containers), old(dependents)))
      ensures actions == Inspects(old(dependents))
    {
      anchorSince, incident, dumped, actions := Some(now), incident + 1, false, [];
      var i := 0;
      while i < |dependents|
        invariant i <= |dependents| && actions == Inspects(dependents[..i])
        invariant View() == old(View()).(anchorSince := Some(now), incident := old(incident) + 1, dumped := false,
                                         containers := Distrust(old(containers), dependents[..i]))
      {
        var name := dependents[i];
        containers := containers[name := if name in containers then containers[name].(trusted := false) else UNSEEN];
        actions := actions + [InspectContainer(name)];
        assert dependents[..i + 1][..i] == dependents[..i];
        i := i + 1;
      }
      assert dependents[..i] == dependents;
    }

    /** A start report: trust follows the anchor's recovery, and a stale namespace asks for a restart. */
    method ReportStarted(name: Name, at: Time, now: Time) returns (actions: seq<Action>, publishes: seq<Publish>)
      modifies this
      ensures Outcome(View(), actions, publishes) == HandleStarted(old(View()), name, at, now)
    {
      actions := [];
      var entry := (if name in containers then containers[name] else UNSEEN).(startedAt := Some(at));
      containers := containers[name := entry];
      publishes := [Started(name, at)];
      if name != config.anchor && name in dependents && anchorSince.Some? {
        if at >= anchorSince.value {
          containers := containers[name := entry.(trusted := true)];
          if !entry.trusted { publishes := publishes + [Trusted(name)]; }
        } else {
          containers := containers[name := entry.(trusted := false)];
          publishes := publishes + [Untrusted(name, at, anchorSince.value)];
          var restartActions, restartPublishes := AttemptRestart(name, now);
          actions, publishes := restartActions, publishes + restartPublishes;
        }
      }
    }

    method HandleEvent(now: Time, event: Event) returns (actions: seq<Action>, publishes: seq<Publish>)
      modifies this
      ensures Outcome(View(), actions, publishes) == Handle(old(View()), now, event)
    {
      actions, publishes := [], [];
      match event
      case Init =>
        actions := [DiscoverDependents, InspectContainer(config.anchor)];
      case DependentsDiscovered(names) =>
        dependents := names;
      case ContainerHealthy(name) =>
        var entry := if name in containers then containers[name] else UNSEEN;
        containers := containers[name := entry.(health := Healthy)];
        if name == config.anchor {
          if anchorSince.None? {
            actions := AnchorRecovered(now);
            publishes := [BecameHealthy(name)];
          }
        } else if !entry.health.Healthy? {
          publishes := [BecameHealthy(name)];
        }
      case ContainerUnhealthy(name) =>
        var entry := if name in containers then containers[name] else UNSEEN;
        containers := containers[name := entry.(health := Unhealthy)];
        if name == config.anchor {
          if anchorSince.Some? {
            anchorSince := None;
            containers := DistrustAll(containers);
            publishes := [Crashed(name)];
          }
        } else {
          if !entry.health.Unhealthy? { publishes := [Crashed(name)]; }
          if config.autoheal && name in dependents {
            var restartActions, restartPublishes := AttemptRestart(name, now);
            actions, publishes := restartActions, publishes + restartPublishes;
          }
        }
      case ContainerStopped(name) =>
        var entry := if name in containers then containers[name] else UNSEEN;
        containers := containers[name := entry.(trusted := false)];
        publishes := [Stopped(name)];
      case ContainerStarted(name, at) =>
        actions, publishes := ReportStarted(name, at, now);
      case LogsDumped =>
      case LogsDumpFailed =>
    }
  }

  // ---------- Whole runs ----------

  datatype Timed = Timed(at: Time, event: Event)

  /** The restart this outcome asks for, if it does. */
  predicate Restarted(o: Outcome) {
    exists i :: 0 <= i < |o.actions| && o.actions[i].RestartContainer?
  }

  predicate DumpedLogs(o: Outcome) {
    exists i :: 0 <= i < |o.actions| && o.actions[i].DumpLogs?
  }

  /** A run with the times of its restarts and the incidents whose logs were dumped. */
  datatype History = History(machine: Machine, restartTimes: seq<Time>, dumps: seq<nat>)

  function Extend(h: History, e: Timed): History {
    var o := Handle(h.machine, e.at, e.event);
    History(o.machine,
            if Restarted(o) then h.restartTimes + [e.at] else h.restartTimes,
            if DumpedLogs(o) then h.dumps + [h.machine.incident] else h.dumps)
  }

  function Run(config: Config, events: seq<Timed>): History {
    if events == [] then History(Machine(config, map[], [], None, [], 0, false), [], [])
    else Extend(Run(config, events[..|events| - 1]), events[|events| - 1])
  }

  /** Wall time does not go back. */
  ghost predicate Forward(events: seq<Timed>) {
    forall i, j :: 0 <= i < j < |events| ==> events[i].at <= events[j].at
  }

  ghost predicate Sorted(ts: seq<Time>) {
    forall i, j :: 0 <= i < j < |ts| ==> ts[i] <= ts[j]
  }

  /** Any `max + 1` restarts in a row span more than the window. */
  ghost predicate Spaced(ts: seq<Time>, max: nat, window: nat) {
    forall i :: 0 <= i && i + max < |ts| ==> ts[i + max] - ts[i] > window
  }

  /** The kept restarts are the newest; the others were already too old at `now`. */
  ghost predicate LogInv(log: seq<Time>, kept: seq<Time>, config: Config, now: Time) {
    && Sorted(log) && (forall i :: 0 <= i < |log| ==> log[i] <= now)
    && |kept| <= |log| && kept == log[|log| - |kept|..]
    && (forall i :: 0 <= i < |log| - |kept| ==> now - log[i] > config.window)
    && (config.maxRestarts > 0 ==> Spaced(log, config.maxRestarts, config.window))
  }

  ghost predicate WindowInv(h: History, now: Time) {
    LogInv(h.restartTimes, h.machine.restarts, h.machine.config, now)
  }

  lemma {:induction false} PruneDropsTheOld(restarts: seq<Time>, now: Time, window: nat)
    ensures var kept := Prune(restarts, now, window);
      && |kept| <= |restarts| && kept == restarts[|restarts| - |kept|..]
      && (forall i :: 0 <= i < |restarts| - |kept| ==> now - restarts[i] > window)
  {
    if restarts != [] && now - restarts[0] > window {
      PruneDropsTheOld(restarts[1..], now, window);
    }
  }

  lemma {:induction false} ListsOnlyName(names: seq<Name>)
    ensures forall i :: 0 <= i < |Dumps(names)| ==> Dumps(names)[i].DumpLogs?
    ensures forall i :: 0 <= i < |Inspects(names)| ==> Inspects(names)[i].InspectContainer?
  {
    if names != [] { ListsOnlyName(names[..|names| - 1]); }
  }

  /** How an outcome may change the window: not at all, pruned and full, or pruned with one restart more. */
  ghost predicate WindowStep(m: Machine, o: Outcome, now: Time) {
    var recent := Prune(m.restarts, now, m.config.window);
    && o.machine.config == m.config
    && (|| (o.machine.restarts == m.restarts && !Restarted(o))
        || (o.machine.restarts == recent && !Restarted(o))
        || (o.machine.restarts == recent + [now] && Restarted(o)
            && (m.config.maxRestarts == 0 || |recent| < m.config.maxRestarts)))
  }

  lemma TryRestartStep(m: Machine, name: Name, now: Time)
    ensures WindowStep(m, TryRestart(m, name, now), now)
  {
    ListsOnlyName(m.dependents);
    var o := TryRestart(m, name, now);
    if o.actions == [RestartContainer(name)] { assert o.actions[0].RestartContainer?; }
  }

  lemma HandleStep(m: Machine, now: Time, event: Event)
    ensures WindowStep(m, Handle(m, now, event), now)
  {
    ListsOnlyName(m.dependents);
    hide TryRestart;
    match event
    case ContainerUnhealthy(name) =>
      TryRestartStep(Put(m, name, Known(m, name).(health := Unhealthy)), name, now);
    case ContainerStarted(name, at) =>
      TryRestartStep(Put(m, name, Known(m, name).(startedAt := Some(at), trusted := false)), name, now);
    case _ =>
  }

  lemma PruneKeepsLog(log: seq<Time>, kept: seq<Time>, config: Config, before: Time, now: Time)
    requires LogInv(log, kept, config, before) && before <= now
    ensures LogInv(log, Prune(kept, now, config.window), config, now)
  {
    var recent := Prune(kept, now, config.window);
    PruneDropsTheOld(kept, now, config.window);
    hide Spaced, Prune;
    var k := |log| - |kept|;
    assert recent == log[|log| - |recent|..];
    forall i | 0 <= i < |log| - |recent|
      ensures now - log[i] > config.window
    {
      if i >= k { assert kept[i - k] == log[i]; }
    }
  }

  lemma RestartKeepsLog(log: seq<Time>, recent: seq<Time>, config: Config, now: Time)
    requires LogInv(log, recent, config, now)
    requires config.maxRestarts == 0 || |recent| < config.maxRestarts
    ensures LogInv(log + [now], recent + [now], config, now)
  {
    if config.maxRestarts > 0 { SpacedGrows(log, recent, now, config.maxRestarts, config.window); }
    hide Spaced;
  }

  lemma HandleKeepsWindow(h: History, e: Timed, before: Time)
    requires WindowInv(h, before) && before <= e.at
    ensures WindowInv(Extend(h, e), e.at) && Extend(h, e).machine.config == h.machine.config
  {
    var m := h.machine;
    var recent := Prune(m.restarts, e.at, m.config.window);
    HandleStep(m, e.at, e.event);
    LaterKeepsWindow(h, before, e.at);
    PruneKeepsLog(h.restartTimes, m.restarts, m.config, before, e.at);
    hide Handle, Prune, Restarted, DumpedLogs, LogInv;
    if m.config.maxRestarts == 0 || |recent| < m.config.maxRestarts {
      RestartKeepsLog(h.restartTimes, recent, m.config, e.at);
    }
  }

  /** A restart that finds room follows all but fewer than `max` of the earlier ones by more than the window. */
  lemma SpacedGrows(log: seq<Time>, recent: seq<Time>, now: Time, max: nat, window: nat)
    requires Spaced(log, max, window) && |recent| <= |log| && |recent| < max
    requires forall i :: 0 <= i < |log| - |recent| ==> now - log[i] > window
    ensures Spaced(log + [now], max, window)
  {
  }

  lemma {:induction false} RunKeepsWindow(config: Config, events: seq<Timed>, now: Time)
    requires Forward(events) && forall i :: 0 <= i < |events| ==> events[i].at <= now
    ensures WindowInv(Run(config, events), now) && Run(config, events).machine.config == config
  {
    if events != [] {
      var n := |events| - 1;
      RunKeepsWindow(config, events[..n], events[n].at);
      HandleKeepsWindow(Run(config, events[..n]), events[n], events[n].at);
      LaterKeepsWindow(Run(config, events), events[n].at, now);
    }
  }

  lemma LaterKeepsWindow(h: History, before: Time, now: Time)
    requires WindowInv(h, before) && before <= now
    ensures WindowInv(h, now)
  {
  }

  /** The indices of the restarts within the interval. */
  ghost function Within(ts: seq<Time>, from: Time, window: nat): set<nat> {
    set i: nat | i < |ts| && from <= ts[i] <= from + window
  }

  /** Every interval as long as the window holds at most the configured number of restarts. */
  lemma RestartsAreBounded(config: Config, events: seq<Timed>, from: Time)
    requires Forward(events) && config.maxRestarts > 0
    ensures |Within(Run(config, events).restartTimes, from, config.window)| <= config.maxRestarts
  {
    var now := if events == [] then 0 else events[|events| - 1].at;
    RunKeepsWindow(config, events, now);
    SpacedBoundsInterval(Run(config, events).restartTimes, config.maxRestarts, config.window, from);
  }

  lemma SpacedBoundsInterval(ts: seq<Time>, max: nat, window: nat, from: Time)
    requires Sorted(ts) && Spaced(ts, max, window)
    ensures |Within(ts, from, window)| <= max
  {
    var inside := Within(ts, from, window);
    if inside != {} {
      var lo := FirstIn(inside);
      forall i | i in inside
        ensures lo <= i < lo + max
      {
        assert i < |ts| && ts[i] - ts[lo] <= window;
        assert lo + max < |ts| ==> ts[lo + max] - ts[lo] > window;
      }
      RangeCard(inside, lo, max);
    }
  }

  ghost function FirstIn(s: set<nat>): (lo: nat)
    requires s != {}
    ensures lo in s && forall i :: i in s ==> lo <= i
  {
    FirstInExists(s);
    var lo: nat :| lo in s && forall i :: i in s ==> lo <= i;
    lo
  }

  lemma {:induction false} FirstInExists(s: set<nat>)
    requires s != {}
    ensures exists lo: nat :: lo in s && forall i :: i in s ==> lo <= i
    decreases |s|
  {
    var x :| x in s;
    if s == {x} {
      assert x in s && forall i :: i in s ==> x <= i;
    } else {
      var rest := s - {x};
      assert rest != {} by { assert s == rest + {x}; }
      FirstInExists(rest);
      var y: nat :| y in rest && forall i :: i in rest ==> y <= i;
      var lo := if x < y then x else y;
      assert lo in s && forall i :: i in s ==> lo <= i;
    }
  }

  lemma {:induction false} RangeCard(s: set<nat>, lo: nat, n: nat)
    requires forall i :: i in s ==> lo <= i < lo + n
    ensures |s| <= n
  {
    if n == 0 {
      assert s == {};
    } else {
      RangeCard(s - {lo + n - 1}, lo, n - 1);
    }
  }

  // ---------- Storms ----------

  /** Whether an event asks the breaker for a restart: a stale namespace, or autoheal. */
  predicate Tries(m: Machine, event: Event) {
    match event
    case ContainerUnhealthy(name) => name != m.config.anchor && m.config.autoheal && name in m.dependents
    case ContainerStarted(name, at) =>
      name != m.config.anchor && name in m.dependents && m.anchorSince.Some? && at < m.anchorSince.value
    case _ => false
  }

  predicate Stormed(o: Outcome) {
    exists i :: 0 <= i < |o.publishes| && o.publishes[i].RestartStorm?
  }

  /** What the breaker made known: a restart, or a storm. */
  datatype Signal = Restart(at: Time) | Storm(at: Time)

  function SignalOf(o: Outcome, at: Time): seq<Signal> {
    (if Restarted(o) then [Restart(at)] else []) + (if Stormed(o) then [Storm(at)] else [])
  }

  function Signals(config: Config, events: seq<Timed>): seq<Signal> {
    if events == [] then []
    else
      var last := events[|events| - 1];
      var m := Run(config, events[..|events| - 1]).machine;
      Signals(config, events[..|events| - 1]) + SignalOf(Handle(m, last.at, last.event), last.at)
  }

  /** The restarts among these signals. */
  function Restarts(signals: seq<Signal>): seq<Time> {
    if signals == [] then []
    else
      var last := signals[|signals| - 1];
      Restarts(signals[..|signals| - 1]) + if last.Restart? then [last.at] else []
  }

  /** The restart `max` back is still within the window at this time. */
  predicate Blocked(restarts: seq<Time>, max: nat, window: nat, at: Time) {
    max > 0 && |restarts| >= max && at - restarts[|restarts| - max] <= window
  }

  lemma TryRestartSignals(m: Machine, name: Name, now: Time)
    ensures var o := TryRestart(m, name, now); var recent := Prune(m.restarts, now, m.config.window);
      var full := m.config.maxRestarts > 0 && |recent| >= m.config.maxRestarts;
      Restarted(o) == !full && Stormed(o) == full
  {
    ListsOnlyName(m.dependents);
    var o := TryRestart(m, name, now);
    if o.actions == [RestartContainer(name)] { assert o.actions[0].RestartContainer?; }
    if o.publishes != [] { assert o.publishes[0].RestartStorm?; }
    hide Prune, Dumps;
  }

  /** Publishes before a storm's own are not storms. */
  lemma StormedAfter(first: seq<Publish>, o: Outcome)
    requires forall i :: 0 <= i < |first| ==> !first[i].RestartStorm?
    ensures Stormed(o.(publishes := first + o.publishes)) == Stormed(o)
    ensures Restarted(o.(publishes := first + o.publishes)) == Restarted(o)
  {
    if Stormed(o) {
      var i :| 0 <= i < |o.publishes| && o.publishes[i].RestartStorm?;
      assert (first + o.publishes)[|first| + i].RestartStorm?;
    }
  }

  /** Every attempt is answered by exactly one signal: a storm when the window is full, else a restart. */
  lemma HandleSignals(m: Machine, now: Time, event: Event)
    ensures var o := Handle(m, now, event); var recent := Prune(m.restarts, now, m.config.window);
      var full := m.config.maxRestarts > 0 && |recent| >= m.config.maxRestarts;
      SignalOf(o, now) == if !Tries(m, event) then [] else if full then [Storm(now)] else [Restart(now)]
  {
    ListsOnlyName(m.dependents);
    match event
    case ContainerUnhealthy(name) =>
      if Tries(m, event) {
        var c := Known(m, name);
        var seen := Put(m, name, c.(health := Unhealthy));
        TryRestartSignals(seen, name, now);
        StormedAfter(if c.health.Unhealthy? then [] else [Crashed(name)], TryRestart(seen, name, now));
        hide TryRestart, Prune;
      }
    case ContainerStarted(name, at) =>
      if Tries(m, event) {
        var seen := Put(m, name, Known(m, name).(startedAt := Some(at), trusted := false));
        TryRestartSignals(seen, name, now);
        StormedAfter([Started(name, at)] + [Untrusted(name, at, m.anchorSince.value)], TryRestart(seen, name, now));
        hide TryRestart, Prune;
      }
    case _ => hide Prune;
  }

  lemma {:induction false} SignalsKeepRestarts(config: Config, events: seq<Timed>)
    ensures Restarts(Signals(config, events)) == Run(config, events).restartTimes
    ensures Run(config, events).machine.config == config
  {
    if events != [] {
      var n := |events| - 1;
      var h := Run(config, events[..n]);
      SignalsKeepRestarts(config, events[..n]);
      HandleSignals(h.machine, events[n].at, events[n].event);
      HandleStep(h.machine, events[n].at, events[n].event);
      hide Handle, Prune, Tries;
      var before, after := Signals(config, events[..n]), Signals(config, events);
      var o := Handle(h.machine, events[n].at, events[n].event);
      assert after == before + SignalOf(o, events[n].at);
      hide Signals, Run;
      if SignalOf(o, events[n].at) != [] {
        assert after[..|after| - 1] == before;
      } else {
        assert after == before;
      }
    }
  }

  /** With the log sorted, the pruned window is full exactly when the restart `max` back is within it. */
  lemma FullIffBlocked(log: seq<Time>, kept: seq<Time>, config: Config, before: Time, now: Time)
    requires LogInv(log, kept, config, before) && before <= now && config.maxRestarts > 0
    ensures |Prune(kept, now, config.window)| >= config.maxRestarts <==>
      Blocked(log, config.maxRestarts, config.window, now)
  {
    PruneDropsTheOld(kept, now, config.window);
    PruneKeepsTheNew(kept, now, config.window);
    var recent := Prune(kept, now, config.window);
    var max := config.maxRestarts;
    hide Prune, Spaced;
    if |log| >= max {
      var i := |log| - max;
      if i < |log| - |kept| {
        assert now - log[i] > config.window;
      } else {
        assert log[i] == kept[|kept| - max];
        if |recent| >= max {
          assert log[|log| - |recent|] == recent[0];
        }
      }
    }
  }

  lemma {:induction false} PruneKeepsTheNew(restarts: seq<Time>, now: Time, window: nat)
    ensures var kept := Prune(restarts, now, window); kept != [] ==> now - kept[0] <= window
  {
    if restarts != [] && now - restarts[0] > window { PruneKeepsTheNew(restarts[1..], now, window); }
  }

  /**
   * Over every run with time going forward: an attempt is published as a storm, and not carried
   * out, exactly when the restart `max` back is within the window; else it is a restart.
   */
  lemma AttemptIsStormIff(config: Config, events: seq<Timed>, next: Timed)
    requires Forward(events + [next])
    ensures var m := Run(config, events).machine;
      SignalOf(Handle(m, next.at, next.event), next.at) ==
        if !Tries(m, next.event) then []
        else if Blocked(Restarts(Signals(config, events)), config.maxRestarts, config.window, next.at)
        then [Storm(next.at)]
        else [Restart(next.at)]
  {
    var h := Run(config, events);
    assert Forward(events) by {
      forall i, j | 0 <= i < j < |events| ensures events[i].at <= events[j].at {
        assert (events + [next])[i].at <= (events + [next])[j].at;
      }
    }
    var before := if events == [] then next.at else events[|events| - 1].at;
    assert before <= next.at by {
      if events != [] { assert (events + [next])[|events| - 1].at <= (events + [next])[|events|].at; }
    }
    RunKeepsWindow(config, events, before);
    SignalsKeepRestarts(config, events);
    HandleSignals(h.machine, next.at, next.event);
    hide Handle, Run, Signals, Forward;
    if config.maxRestarts > 0 {
      FullIffBlocked(h.restartTimes, h.machine.restarts, config, before, next.at);
    }
  }

  /** What the notes promise: between any two storms the breaker let a restart through. */
  ghost predicate OneStormATrip(signals: seq<Signal>) {
    forall k :: 0 < k < |signals| && signals[k - 1].Storm? ==> !signals[k].Storm?
  }

  /** When the breaker was asked. */
  function AttemptTimes(config: Config, events: seq<Timed>): seq<Time> {
    if events == [] then []
    else
      var last := events[|events| - 1];
      var m := Run(config, events[..|events| - 1]).machine;
      AttemptTimes(config, events[..|events| - 1]) + if Tries(m, last.event) then [last.at] else []
  }

  /** The breaker by times alone: the attempts it lets through. */
  function Granted(times: seq<Time>, max: nat, window: nat): seq<Time> {
    if times == [] then []
    else
      var before, at := Granted(times[..|times| - 1], max, window), times[|times| - 1];
      if Blocked(before, max, window, at) then before else before + [at]
  }

  predicate Suppressed(times: seq<Time>, max: nat, window: nat, k: nat)
    requires k < |times|
  {
    Blocked(Granted(times[..k], max, window), max, window, times[k])
  }

  /** No attempt is suppressed right after another that is. */
  ghost predicate NoTwoSuppressed(times: seq<Time>, max: nat, window: nat) {
    forall k :: 0 < k < |times| && Suppressed(times, max, window, k - 1) ==> !Suppressed(times, max, window, k)
  }

  /** Each signal is the breaker's answer to an attempt at that time, given the restarts before it. */
  ghost predicate AnswersAttempts(signals: seq<Signal>, config: Config) {
    forall k :: 0 <= k < |signals| ==>
      (signals[k].Storm? <==> Blocked(Restarts(signals[..k]), config.maxRestarts, config.window, signals[k].at))
  }

  lemma {:induction false} SignalsAnswerAttempts(config: Config, events: seq<Timed>)
    requires Forward(events)
    ensures AnswersAttempts(Signals(config, events), config)
  {
    if events != [] {
      var n := |events| - 1;
      var before, after := Signals(config, events[..n]), Signals(config, events);
      SignalsAnswerAttempts(config, events[..n]);
      assert events[..n] + [events[n]] == events;
      AttemptIsStormIff(config, events[..n], events[n]);
      var m := Run(config, events[..n]).machine;
      var added := SignalOf(Handle(m, events[n].at, events[n].event), events[n].at);
      assert after == before + added && |added| <= 1;
      hide Signals, Run, Handle, SignalOf, Forward;
      AnswersExtend(before, added, config);
    }
  }

  lemma AnswersExtend(before: seq<Signal>, added: seq<Signal>, config: Config)
    requires AnswersAttempts(before, config) && |added| <= 1
    requires added != [] ==>
      (added[0].Storm? <==> Blocked(Restarts(before), config.maxRestarts, config.window, added[0].at))
    ensures AnswersAttempts(before + added, config)
  {
    hide Restarts, Blocked;
    var after := before + added;
    forall k | 0 <= k < |after|
      ensures after[k].Storm? <==> Blocked(Restarts(after[..k]), config.maxRestarts, config.window, after[k].at)
    {
      if k < |before| {
        assert after[..k] == before[..k];
      } else {
        assert after[..k] == before;
      }
    }
  }

  function TimesOf(signals: seq<Signal>): (times: seq<Time>)
    ensures |times| == |signals| && forall k :: 0 <= k < |signals| ==> times[k] == signals[k].at
  {
    if signals == [] then [] else TimesOf(signals[..|signals| - 1]) + [signals[|signals| - 1].at]
  }

  /** Every attempt has its signal, and nothing else has one. */
  lemma {:induction false} SignalsAreAttempts(config: Config, events: seq<Timed>)
    ensures TimesOf(Signals(config, events)) == AttemptTimes(config, events)
  {
    if events != [] {
      var n := |events| - 1;
      var m := Run(config, events[..n]).machine;
      SignalsAreAttempts(config, events[..n]);
      HandleSignals(m, events[n].at, events[n].event);
      var before, after := Signals(config, events[..n]), Signals(config, events);
      assert after == before + SignalOf(Handle(m, events[n].at, events[n].event), events[n].at);
      hide Handle, Run, Prune, Signals;
      if Tries(m, events[n].event) {
        assert after[..|after| - 1] == before;
      } else {
        assert after == before;
      }
    }
  }

  lemma AnswersOfPrefix(signals: seq<Signal>, config: Config, n: nat)
    requires AnswersAttempts(signals, config) && n <= |signals|
    ensures AnswersAttempts(signals[..n], config)
  {
    hide Blocked, Restarts;
    var init := signals[..n];
    forall k | 0 <= k < n
      ensures init[k].Storm? <==> Blocked(Restarts(init[..k]), config.maxRestarts, config.window, init[k].at)
    {
      assert init[..k] == signals[..k];
    }
  }

  /** Signals that answer attempts let through what the breaker by times does. */
  lemma {:induction false} RestartsAreGranted(signals: seq<Signal>, config: Config)
    requires AnswersAttempts(signals, config)
    ensures Restarts(signals) == Granted(TimesOf(signals), config.maxRestarts, config.window)
  {
    if signals != [] {
      var n := |signals| - 1;
      var init := signals[..n];
      AnswersOfPrefix(signals, config, n);
      RestartsAreGranted(init, config);
      assert TimesOf(signals)[..n] == TimesOf(init);
      assert signals[n].Storm? <==> Blocked(Restarts(init), config.maxRestarts, config.window, signals[n].at);
      hide Blocked;
    }
  }

  /** A signal is a storm exactly when the breaker by times suppresses that attempt. */
  lemma StormIffSuppressed(signals: seq<Signal>, config: Config, k: nat)
    requires AnswersAttempts(signals, config) && k < |signals|
    ensures signals[k].Storm? <==> Suppressed(TimesOf(signals), config.maxRestarts, config.window, k)
  {
    hide Blocked, Restarts, Granted, TimesOf;
    var init := signals[..k];
    AnswersOfPrefix(signals, config, k);
    assert signals[k].Storm? <==> Blocked(Restarts(init), config.maxRestarts, config.window, signals[k].at);
    hide AnswersAttempts;
    RestartsAreGranted(init, config);
    assert TimesOf(signals)[..k] == TimesOf(init);
  }

  /**
   * The notes' promise holds of a run exactly when, of the times at which the breaker was asked, no
   * two in a row come while the restart `max` back is still within the window.
   */
  lemma OneStormATripIff(config: Config, events: seq<Timed>)
    requires Forward(events)
    ensures OneStormATrip(Signals(config, events)) <==>
      NoTwoSuppressed(AttemptTimes(config, events), config.maxRestarts, config.window)
  {
    var signals, times := Signals(config, events), AttemptTimes(config, events);
    SignalsAnswerAttempts(config, events);
    SignalsAreAttempts(config, events);
    forall k | 0 <= k < |signals|
      ensures signals[k].Storm? <==> Suppressed(times, config.maxRestarts, config.window, k)
    {
      StormIffSuppressed(signals, config, k);
    }
    hide Signals, AttemptTimes, AnswersAttempts, Suppressed, Forward;
  }

  /** The restarts of a run are those the breaker by times lets through. */
  lemma RestartsAreGrantedByTimes(config: Config, events: seq<Timed>)
    requires Forward(events)
    ensures Run(config, events).restartTimes == Granted(AttemptTimes(config, events), config.maxRestarts, config.window)
  {
    SignalsAnswerAttempts(config, events);
    SignalsAreAttempts(config, events);
    SignalsKeepRestarts(config, events);
    RestartsAreGranted(Signals(config, events), config);
  }

  lemma {:induction false} StormsAndRestarts(signals: seq<Signal>)
    ensures |Restarts(signals)| + StormCount(signals) == |signals|
  {
    if signals != [] { StormsAndRestarts(signals[..|signals| - 1]); }
  }

  /** Storms and restarts together are the attempts, so storms are the attempts suppressed. */
  lemma StormsCountSuppressed(config: Config, events: seq<Timed>)
    ensures StormCount(Signals(config, events)) == |AttemptTimes(config, events)| - |Run(config, events).restartTimes|
  {
    SignalsAreAttempts(config, events);
    SignalsKeepRestarts(config, events);
    StormsAndRestarts(Signals(config, events));
  }

  function StormCount(signals: seq<Signal>): nat {
    if signals == [] then 0 else StormCount(signals[..|signals| - 1]) + if signals[|signals| - 1].Storm? then 1 else 0
  }

  const ONE_A_WINDOW: Config := Config("anchor", 1, 10, true)

  const STORMY: seq<Timed> :=
    [Timed(0, DependentsDiscovered(["a"])), Timed(0, ContainerUnhealthy("a")),
     Timed(1, ContainerUnhealthy("a")), Timed(2, ContainerUnhealthy("a"))]

  lemma RunPrefix(config: Config, events: seq<Timed>, n: nat)
    requires n < |events|
    ensures Run(config, events[..n + 1]) == Extend(Run(config, events[..n]), events[n])
    ensures var o := Handle(Run(config, events[..n]).machine, events[n].at, events[n].event);
      Signals(config, events[..n + 1]) == Signals(config, events[..n]) + SignalOf(o, events[n].at)
  {
    assert events[..n + 1][..n] == events[..n];
  }

  /** An autohealed container keeps its dependents and its breaker. */
  lemma UnhealthyKeeps(m: Machine, now: Time, name: Name)
    requires m.config == ONE_A_WINDOW && m.dependents == ["a"]
    ensures var t := Handle(m, now, ContainerUnhealthy(name)).machine;
      t.config == m.config && t.dependents == m.dependents
  {
    hide Prune;
  }

  /** After `n` of the events: the dependent is known, and the breaker is as configured. */
  ghost predicate Stormy(n: nat, signals: seq<Signal>)
    requires n <= 4
  {
    var m := Run(ONE_A_WINDOW, STORMY[..n]).machine;
    m.config == ONE_A_WINDOW && m.dependents == ["a"] && Signals(ONE_A_WINDOW, STORMY[..n]) == signals
  }

  lemma StormyForward()
    ensures Forward(STORMY)
  {
  }

  lemma StormyStart()
    ensures Stormy(1, [])
  {
    RunPrefix(ONE_A_WINDOW, STORMY, 0);
    assert STORMY[..0] == [];
    var m := Run(ONE_A_WINDOW, []).machine;
    assert m == Machine(ONE_A_WINDOW, map[], [], None, [], 0, false);
    assert Signals(ONE_A_WINDOW, []) == [];
    hide Run, Signals;
    HandleSignals(m, 0, STORMY[0].event);
    hide SignalOf, Prune, HandleHealthy, HandleUnhealthy, HandleStarted;
  }

  lemma StormyAttempt(n: nat, signals: seq<Signal>)
    requires 1 <= n < 4 && Stormy(n, signals) && Forward(STORMY)
    ensures Stormy(n + 1,
      signals
      + [if Blocked(Restarts(signals), 1, 10, STORMY[n].at) then Storm(STORMY[n].at) else Restart(STORMY[n].at)])
  {
    RunPrefix(ONE_A_WINDOW, STORMY, n);
    var before, next := STORMY[..n], STORMY[n];
    assert Forward(before + [next]) by {
      assert before + [next] == STORMY[..n + 1];
    }
    assert next.event == ContainerUnhealthy("a");
    AttemptIsStormIff(ONE_A_WINDOW, before, next);
    var m := Run(ONE_A_WINDOW, before).machine;
    UnhealthyKeeps(m, next.at, "a");
    assert Tries(m, next.event) by {
      assert |"a"| != |"anchor"|;
    }
    hide Run, Signals, Handle, SignalOf, Blocked, Restarts, Forward;
  }

  lemma TwoRestarts()
    ensures Restarts([]) == [] && Restarts([Restart(0)]) == [0] && Restarts([Restart(0), Storm(1)]) == [0]
  {
    assert [Restart(0)][..0] == [] && [Restart(0), Storm(1)][..1] == [Restart(0)];
  }

  /** An input on which the promise fails: one restart, then two storms with no restart between them. */
  lemma StormRepeats()
    ensures Forward(STORMY) && Signals(ONE_A_WINDOW, STORMY) == [Restart(0), Storm(1), Storm(2)]
    ensures !OneStormATrip(Signals(ONE_A_WINDOW, STORMY))
  {
    StormyForward();
    StormyStart();
    TwoRestarts();
    hide Stormy, Forward, Restarts, Signals;
    var one, two, three := [Restart(0)], [Restart(0), Storm(1)], [Restart(0), Storm(1), Storm(2)];
    StormyAttempt(1, []);
    assert [] + one == one;
    StormyAttempt(2, one);
    assert one + [Storm(1)] == two;
    StormyAttempt(3, two);
    assert two + [Storm(2)] == three;
    StormyEnds(three);
    assert three[1].Storm? && three[2].Storm?;
  }

  lemma StormyEnds(signals: seq<Signal>)
    requires Stormy(4, signals)
    ensures Signals(ONE_A_WINDOW, STORMY) == signals
  {
    assert STORMY[..4] == STORMY;
  }

  // ---------- Log dumps ----------

  ghost predicate DumpInv(h: History) {
    && (forall i :: 0 <= i < |h.dumps| ==> h.dumps[i] <= h.machine.incident)
    && (forall i, j :: 0 <= i < j < |h.dumps| ==> h.dumps[i] < h.dumps[j])
    && (h.dumps != [] && h.dumps[|h.dumps| - 1] == h.machine.incident ==> h.machine.dumped)
  }

  lemma HandleDumps(m: Machine, now: Time, event: Event)
    ensures var o := Handle(m, now, event);
      && (DumpedLogs(o) ==> !m.dumped && o.machine.dumped && o.machine.incident == m.incident)
      && ((o.machine.incident == m.incident && (m.dumped ==> o.machine.dumped)) || o.machine.incident == m.incident + 1)
  {
    ListsOnlyName(m.dependents);
    hide Prune;
  }

  /** Logs are dumped at most once an incident. */
  lemma {:induction false} DumpedOncePerIncident(config: Config, events: seq<Timed>)
    ensures DumpInv(Run(config, events))
  {
    if events != [] {
      var n := |events| - 1;
      var h := Run(config, events[..n]);
      DumpedOncePerIncident(config, events[..n]);
      HandleDumps(h.machine, events[n].at, events[n].event);
      var o := Handle(h.machine, events[n].at, events[n].event);
      var t := Run(config, events);
      assert t.machine == o.machine && t.dumps == if DumpedLogs(o) then h.dumps + [h.machine.incident] else h.dumps;
      hide Handle, DumpedLogs, Restarted, Run;
      DumpsExtend(h, t, DumpedLogs(o));
    }
  }

  /** One more dump is of the current incident, which had none. */
  lemma DumpsExtend(h: History, t: History, dumped: bool)
    requires DumpInv(h) && t.dumps == if dumped then h.dumps + [h.machine.incident] else h.dumps
    requires dumped ==> !h.machine.dumped && t.machine.dumped && t.machine.incident == h.machine.incident
    requires
      || (t.machine.incident == h.machine.incident && (h.machine.dumped ==> t.machine.dumped))
      || t.machine.incident == h.machine.incident + 1
    ensures DumpInv(t)
  {
  }

  // ---------- Trust ----------

  /** A container is trusted only while the anchor is healthy and it started at or after the anchor's recovery. */
  ghost predicate TrustInv(m: Machine) {
    forall name :: name in m.containers && m.containers[name].trusted ==>
      && m.anchorSince.Some? && m.containers[name].startedAt.Some?
      && m.containers[name].startedAt.value >= m.anchorSince.value
  }

  lemma {:induction false} DistrustKeeps(containers: map<Name, Container>, names: seq<Name>)
    ensures forall name :: name in Distrust(containers, names) && Distrust(containers, names)[name].trusted ==>
      name in containers && containers[name].trusted
  {
    if names != [] { DistrustKeeps(containers, names[..|names| - 1]); }
  }

  /** A start report that would leave a trusted container with a start before the anchor's recovery. */
  predicate Stale(m: Machine, event: Event) {
    && event.ContainerStarted? && event.name in m.containers && m.containers[event.name].trusted
    && (event.name == m.config.anchor || event.name !in m.dependents)
    && m.anchorSince.Some? && event.startedAt < m.anchorSince.value
  }

  lemma TryRestartKeepsTrust(m: Machine, name: Name, now: Time)
    ensures var t := TryRestart(m, name, now).machine; t.containers == m.containers && t.anchorSince == m.anchorSince
  {
  }

  /**
   * A step keeps trust sound exactly when it is not such a report, of a trusted container no longer in
   * the registry.
   */
  lemma TrustKeptIff(m: Machine, now: Time, event: Event)
    requires TrustInv(m)
    ensures TrustInv(Handle(m, now, event).machine) <==> !Stale(m, event)
  {
    hide TryRestart, Inspects;
    match event
    case ContainerUnhealthy(name) =>
        TryRestartKeepsTrust(Put(m, name, Known(m, name).(health := Unhealthy)), name, now);
    case ContainerHealthy(name) =>
        DistrustKeeps(Put(m, name, Known(m, name).(health := Healthy)).containers, m.dependents);
    case ContainerStarted(name, at) =>
      TryRestartKeepsTrust(Put(m, name, Known(m, name).(startedAt := Some(at), trusted := false)), name, now);
      if Stale(m, event) {
        assert Handle(m, now, event).machine.containers[name].trusted;
      }
    case _ =>
  }

  /** Each container's reported start times never go back. */
  ghost predicate StartsForward(events: seq<Timed>) {
    forall i, j :: 0 <= i < j < |events| && events[i].event.ContainerStarted? && events[j].event.ContainerStarted? ==>
      events[i].event.name == events[j].event.name ==> events[i].event.startedAt <= events[j].event.startedAt
  }

  /** A container's recorded start is one that was reported. */
  ghost predicate StartWasReported(m: Machine, events: seq<Timed>) {
    forall name :: name in m.containers && m.containers[name].startedAt.Some? ==>
      exists i :: 0 <= i < |events| && events[i].event == ContainerStarted(name, m.containers[name].startedAt.value)
  }

  lemma {:induction false} DistrustStarts(containers: map<Name, Container>, names: seq<Name>)
    ensures forall name :: name in Distrust(containers, names) ==>
      Distrust(containers, names)[name].startedAt == (if name in containers then containers[name].startedAt else None)
  {
    if names != [] {
      var n := |names| - 1;
      DistrustStarts(containers, names[..n]);
      var before := Distrust(containers, names[..n]);
      assert names[n] in containers ==> names[n] in before by { DistrustKnows(containers, names[..n]); }
    }
  }

  lemma {:induction false} DistrustKnows(containers: map<Name, Container>, names: seq<Name>)
    ensures containers.Keys <= Distrust(containers, names).Keys
  {
    if names != [] { DistrustKnows(containers, names[..|names| - 1]); }
  }

  lemma HandleStarts(m: Machine, now: Time, event: Event)
    ensures var t := Handle(m, now, event).machine;
      forall name :: name in t.containers && t.containers[name].startedAt.Some? ==>
        || (name in m.containers && m.containers[name].startedAt == t.containers[name].startedAt)
        || event == ContainerStarted(name, t.containers[name].startedAt.value)
  {
    hide Prune, Dumps, Inspects;
    match event
    case ContainerHealthy(name) =>
        DistrustStarts(Put(m, name, Known(m, name).(health := Healthy)).containers, m.dependents);
    case _ =>
  }

  /** When start times never go back, trust is sound in every run. */
  lemma {:induction false} TrustIsSound(config: Config, events: seq<Timed>)
    requires StartsForward(events)
    ensures TrustInv(Run(config, events).machine) && StartWasReported(Run(config, events).machine, events)
  {
    if events != [] {
      var n := |events| - 1;
      var m := Run(config, events[..n]).machine;
      TrustIsSound(config, events[..n]);
      TrustKeptIff(m, events[n].at, events[n].event);
      HandleStarts(m, events[n].at, events[n].event);
      var t := Run(config, events).machine;
      hide Handle, DumpedLogs, Restarted;
      forall name | name in t.containers && t.containers[name].startedAt.Some?
        ensures exists i ::
          0 <= i < |events| && events[i].event == ContainerStarted(name, t.containers[name].startedAt.value)
      {
        if events[n].event != ContainerStarted(name, t.containers[name].startedAt.value) {
          var i :| 0 <= i < n && events[..n][i].event == ContainerStarted(name, m.containers[name].startedAt.value);
          assert events[i].event == ContainerStarted(name, t.containers[name].startedAt.value);
        }
      }
    }
  }

  const FORGOTTEN: seq<Timed> :=
    [Timed(9, DependentsDiscovered(["a"])), Timed(10, ContainerHealthy("anchor")), Timed(11, ContainerStarted("a", 10)),
     Timed(12, DependentsDiscovered([])), Timed(13, ContainerStarted("a", 5))]

  lemma AnchorComesUp(m: Machine)
    requires m.config == ONE_A_WINDOW && m.dependents == ["a"] && m.anchorSince.None? && "a" !in m.containers
    ensures var t := Handle(m, 10, ContainerHealthy("anchor")).machine;
      t.config == m.config && t.dependents == ["a"] && t.anchorSince == Some(10) && "a" in t.containers
        && t.containers["a"] == UNSEEN
  {
    assert |"a"| != |"anchor"|;
    assert ["a"][..0] == [];
    var seen := Put(m, "anchor", Known(m, "anchor").(health := Healthy));
    assert Distrust(seen.containers, []) == seen.containers;
    assert Distrust(seen.containers, ["a"])["a"] == UNSEEN;
    hide Inspects;
  }

  lemma DependentStarts(m: Machine)
    requires m.config == ONE_A_WINDOW && m.dependents == ["a"] && m.anchorSince == Some(10) && Known(m, "a") == UNSEEN
    ensures var t := Handle(m, 11, ContainerStarted("a", 10)).machine;
      t.config == m.config && t.anchorSince == Some(10) && "a" in t.containers
        && t.containers["a"] == Container(Unknown, Some(10), true)
  {
    assert |"a"| != |"anchor"|;
    hide TryRestart;
  }

  /** A run in which trust fails: a trusted container leaves the registry and then reports an older start. */
  lemma TrustBreaks()
    ensures var m := Run(ONE_A_WINDOW, FORGOTTEN).machine;
      && m.anchorSince == Some(10) && "a" in m.containers && m.containers["a"] == Container(Unknown, Some(5), true)
      && Stale(Run(ONE_A_WINDOW, FORGOTTEN[..4]).machine, FORGOTTEN[4].event) && !TrustInv(m)
  {
    var c := ONE_A_WINDOW;
    forall n | 0 <= n < 5
      ensures Run(c, FORGOTTEN[..n + 1]).machine ==
        Handle(Run(c, FORGOTTEN[..n]).machine, FORGOTTEN[n].at, FORGOTTEN[n].event).machine
    {
      RunPrefix(c, FORGOTTEN, n);
    }
    assert FORGOTTEN[..0] == [] && FORGOTTEN[..5] == FORGOTTEN;
    assert Run(c, []).machine == Machine(c, map[], [], None, [], 0, false);
    hide Run;
    var one, two, three, four := Run(c, FORGOTTEN[..1]).machine, Run(c, FORGOTTEN[..2]).machine,
      Run(c, FORGOTTEN[..3]).machine, Run(c, FORGOTTEN[..4]).machine;
    assert one == Handle(Run(c, FORGOTTEN[..0]).machine, 9, FORGOTTEN[0].event).machine;
    assert two == Handle(one, 10, FORGOTTEN[1].event).machine;
    assert three == Handle(two, 11, FORGOTTEN[2].event).machine;
    assert four == Handle(three, 12, FORGOTTEN[3].event).machine;
    assert Run(c, FORGOTTEN).machine == Handle(four, 13, FORGOTTEN[4].event).machine;
    AnchorComesUp(one);
    DependentStarts(two);
    hide HandleHealthy, HandleUnhealthy, TryRestart;
  }
}
