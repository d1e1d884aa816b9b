/**
 * What polling asks of qBittorrent, over whole runs: the settings wanted, polls, registry commands and
 * the preferences, each when it is due.
 */
module Asking {
  import opened Basics
  import opened Timer
  import opened Torrents
  import opened Replication
  import opened Polling
  import opened Wake
  import opened Following
  import G = Registry
  import R = Reconciliation

  /** The listen port is known to be wrong. */
  predicate PortDue(p: Preferences, wanted: Wanted) {
    wanted.listenPort.Some? && p.listenPort != wanted.listenPort
  }

  /** The queue is reported, and known to be wrong. */
  predicate QueueDue(p: Preferences, wanted: Wanted) {
    wanted.queue.Some? && p.queue.Some? && p.queue != wanted.queue
  }

  /** The setting to change next, the listen port first. */
  function SettingDue(p: Preferences, wanted: Wanted): Option<Action> {
    if PortDue(p, wanted) then Some(SetListenPort(wanted.listenPort.value))
    else if QueueDue(p, wanted) then Some(SetQueue(wanted.queue.value))
    else None
  }

  // ---------- What the session knows ----------

  /** The session has the preferences the client last told and counts the lists since; it waits on fewer than six. */
  ghost predicate Informed(y: System) {
    y.client.Connected? ==>
      var s := y.client.session;
      && y.said == Some(s.preferences) && y.polls == s.pollsSincePreferences
      && (s.activity.Waiting? ==> y.polls < 6)
  }

  predicate SameFacts(a: Client, b: Client) {
    && a.Connected? == b.Connected?
    && (a.Connected? ==>
          && a.session.preferences == b.session.preferences && a.session.version == b.session.version
          && a.session.pollsSincePreferences == b.session.pollsSincePreferences && SameList(a, b))
  }

  /** What a step comes to when the next request is to be chosen. */
  ghost predicate Chosen(y: System, m: Moment, z: System) {
    y.client.Connected? && z.client.Connected? &&
    var s, due := y.client.session, SettingDue(y.client.session.preferences, m.wanted);
    if due.Some? then z.env.ops == [Running(due.value)]
    else if s.activity == Deciding(false) then z.env.ops == [Running(Sync(s.position))]
    else
      match Asked(Observed(y, m), m)
      case Some(command) => z.env.ops == [Running(Apply(command))]
      case None =>
        if s.pollsSincePreferences >= 6 then z.env.ops == [Running(ReadPreferences)]
        else z.env.ops == [] && z.client.session.activity == Waiting(y.env.next)
  }

  lemma ObservedParts(y: System, m: Moment)
    ensures Observed(y, m) == y.(registry := Observed(y, m).registry)
  {
    hide G.Observe, InOrder, G.Save;
  }

  lemma ConcludesChoice(y: System, m: Moment)
    requires Choosing(y.client) && y.env.ops == []
    ensures var z := Concluded(y, m);
      && Chosen(y, m, z) && SameFacts(y.client, z.client) && z.said == y.said && z.polls == y.polls
      && (z.client.Connected? && z.client.session.activity.Waiting? ==> z.client.session.pollsSincePreferences < 6)
  {
    ObservedParts(y, m);
    var seen := Observed(y, m);
    var decided := Decided(seen, m);
    hide Observed, Asked;
    var o := Decide(seen.client, m.now, m.wanted, Asked(seen, m), seen.env.next);
    PerformOne(seen.env, o.actions[0]);
    PerformOne(decided.env, Connect);
    hide Perform;
  }

  /** When nothing is to be chosen a step changes a setting that is due, once idle, and asks for nothing else. */
  lemma ConcludesQuietly(y: System, m: Moment)
    requires !Choosing(y.client) && (y.client.Connected? && y.client.session.activity.Waiting? ==> y.env.ops == [])
    ensures var z := Concluded(y, m);
      && SameFacts(y.client, z.client) && z.said == y.said && z.polls == y.polls
      && (if y.client.Connected? && y.client.session.activity.Waiting?
             && SettingDue(y.client.session.preferences, m.wanted).Some?
          then z.env.ops == [Running(SettingDue(y.client.session.preferences, m.wanted).value)]
               && !z.client.session.activity.Waiting?
          else z.client == y.client && z.env == y.env)
  {
    ObservedParts(y, m);
    var seen := Observed(y, m);
    hide Observed, Asked;
    PerformOne(seen.env, Connect);
    var o := FollowPreferences(seen.client, m.wanted);
    if o.actions != [] { PerformOne(seen.env, o.actions[0]); }
    hide Perform;
  }

  // ---------- Steps of the core ----------

  /** This label is a step of the core, which ends by choosing what to ask for. */
  ghost predicate CoreStep(y: System, l: Label) {
    match l
    case Enables(_) => true
    case Delivers(i, _) => i < |y.env.ops| && y.env.ops[i].Answered?
    case Expires(id, _) => id in y.env.rung
    case Elsewhere(registry, _, _) => registry.Some? ==> G.Inv(registry.value)
    case _ => false
  }

  /** The system once the step's event is handled. */
  ghost function Before(y: System, l: Label): System
    requires CoreStep(y, l)
  {
    match l
    case Enables(m) => Handled(y, Handle(y.client, m.now, Enable, y.env.next))
    case Delivers(i, m) => Handled(Received(y, i), Handle(y.client, m.now, y.env.ops[i].answer, y.env.next))
    case Expires(id, m) => Handled(y.(env := Heard(y.env, id)), TimerExpired(y.client, id))
    case Elsewhere(registry, ids, m) => y.(registry := registry, env := Spend(y.env, ids))
  }

  lemma BeforeKeeps(y: System, l: Label)
    requires Inv(y) && CoreStep(y, l)
    ensures Mid(Before(y, l)) && Step(y, l) == Concluded(Before(y, l), l.m)
    ensures l.Delivers? ==> l.op == 0 && |y.env.ops| == 1
  {
    match l
    case Enables(m) => EnableKeeps(y, m.now);
    case Delivers(i, m) =>
      if y.env.ops[0].answer.Synced? { SyncedKeeps(y, m.now); } else { OtherAnswerKeeps(y, m.now); }
    case Expires(id, m) => ExpiryKeeps(y, id);
    case Elsewhere(registry, ids, m) => SpendKeeps(y, registry, ids);
    hide Mid, Concluded, Handled, Handle, G.Inv, Received;
  }

  lemma MidIsIdle(y: System)
    requires Mid(y)
    ensures Choosing(y.client) || (y.client.Connected? && y.client.session.activity.Waiting?) ==> y.env.ops == []
  {
  }

  lemma AnswerInforms(y: System, now: Clock)
    requires Inv(y) && Informed(y) && |y.env.ops| == 1 && y.env.ops[0].Answered?
    ensures Informed(Handled(Received(y, 0), Handle(y.client, now, y.env.ops[0].answer, y.env.next)))
  {
    hide Replica, UpdateFits, AllFresh, G.Inv, KnownIds, Perform, Applied;
  }

  lemma BeforeInforms(y: System, l: Label)
    requires Inv(y) && Informed(y) && CoreStep(y, l)
    ensures Informed(Before(y, l))
  {
    BeforeKeeps(y, l);
    if l.Delivers? { AnswerInforms(y, l.m.now); }
    hide Inv, Perform, Concluded, Mid, Received;
  }

  lemma ConcludedInforms(y: System, m: Moment)
    requires Mid(y) && Informed(y)
    ensures Informed(Concluded(y, m))
  {
    MidIsIdle(y);
    hide Mid;
    if Choosing(y.client) { ConcludesChoice(y, m); } else { ConcludesQuietly(y, m); }
    hide Concluded, Chosen;
  }

  lemma {:induction false} RunInforms(labels: seq<Label>)
    ensures Informed(Run(labels))
  {
    if labels != [] {
      var y, l := Run(labels[..|labels| - 1]), labels[|labels| - 1];
      RunKeeps(labels[..|labels| - 1]);
      RunInforms(labels[..|labels| - 1]);
      if CoreStep(y, l) {
        BeforeKeeps(y, l);
        BeforeInforms(y, l);
        ConcludedInforms(Before(y, l), l.m);
        hide Concluded, Before, CoreStep, Step, Inv, Mid, Informed;
      } else {
        hide Concluded, Inv, Mid;
      }
    }
  }

  // ---------- Settings ----------

  /**
   * Over every run a session holds the preferences the client last told it, counts the lists received
   * since, and does not wait once there were six.
   */
  lemma SessionIsInformed(labels: seq<Label>)
    ensures Informed(Run(labels))
  {
    RunInforms(labels);
  }

  /** Polling waits only when no setting it knows of differs from what is wanted. */
  lemma IdleMeansSettled(labels: seq<Label>, l: Label)
    requires CoreStep(Run(labels), l)
    ensures var z := Step(Run(labels), l);
      z.client.Connected? && z.client.session.activity.Waiting? ==>
        var p := z.client.session.preferences;
        && (l.m.wanted.listenPort.Some? ==> p.listenPort == l.m.wanted.listenPort)
        && (l.m.wanted.queue.Some? ==> p.queue.None? || p.queue == l.m.wanted.queue)
  {
    RunKeeps(labels);
    var y := Run(labels);
    BeforeKeeps(y, l);
    var b := Before(y, l);
    MidIsIdle(b);
    if Choosing(b.client) { ConcludesChoice(b, l.m); } else { ConcludesQuietly(b, l.m); }
    hide Run, Step, Before, Mid, Inv, Concluded, CoreStep;
  }

  /** A setting is asked for only as wanted and where the client's differs, the queue only once the port is right. */
  lemma SettingsAskedAreWanted(labels: seq<Label>, l: Label)
    requires CoreStep(Run(labels), l)
    ensures var y, z := Run(labels), Step(Run(labels), l);
      z.env.ops != y.env.ops && z.env.ops != [] && z.env.ops[0].Running? ==>
        match z.env.ops[0].op
        case SetListenPort(port) =>
          && l.m.wanted.listenPort == Some(port) && z.client.Connected?
          && z.client.session.preferences.listenPort != Some(port)
        case SetQueue(queue) =>
          && l.m.wanted.queue == Some(queue) && z.client.Connected?
          && z.client.session.preferences.queue.Some? && z.client.session.preferences.queue.value != queue
          && (l.m.wanted.listenPort.Some? ==> z.client.session.preferences.listenPort == l.m.wanted.listenPort)
        case _ => true
  {
    RunKeeps(labels);
    var y := Run(labels);
    BeforeKeeps(y, l);
    BeforeAsksNoSetting(y, l);
    ConcludedAsks(Before(y, l), l.m);
    hide Run, Step, Before, Mid, Inv, Concluded, CoreStep;
  }

  lemma ConcludedAsks(y: System, m: Moment)
    requires Mid(y)
    ensures var z := Concluded(y, m);
      || z.env.ops == y.env.ops || z.env.ops == []
      || (z.env.ops[0].Running? && !z.env.ops[0].op.SetListenPort? && !z.env.ops[0].op.SetQueue?)
      || (z.client.Connected? && z.env.ops[0].Running?
          && SettingDue(z.client.session.preferences, m.wanted) == Some(z.env.ops[0].op))
  {
    MidIsIdle(y);
    hide Mid;
    if Choosing(y.client) { ConcludesChoice(y, m); } else { ConcludesQuietly(y, m); }
    hide Concluded;
  }

  lemma BeforeAsksNoSetting(y: System, l: Label)
    requires Inv(y) && CoreStep(y, l)
    ensures var ops := Before(y, l).env.ops;
      ops == y.env.ops || ops == []
        || (ops[0].Running? && !ops[0].op.SetListenPort? && !ops[0].op.SetQueue?)
  {
    hide Replica, UpdateFits, AllFresh, G.Inv, KnownIds;
    match l
    case Enables(_) => PerformOne(y.env, Connect);
    case Delivers(i, m) =>
      var o := Handle(y.client, m.now, y.env.ops[0].answer, y.env.next);
      assert Taken(y.env, 0).ops == [];
      PerformOne(Taken(y.env, 0), if o.actions == [] then Connect else o.actions[0]);
    case Expires(id, _) => PerformOne(Heard(y.env, id), Connect);
    case Elsewhere(_, _, _) =>
    hide Perform, Merged;
  }

  // ---------- Polls and commands ----------

  /** When the wait for a poll ends, or a command is done, the client is polled, unless a setting is due. */
  lemma PollsWhenDue(labels: seq<Label>, l: Label)
    requires CoreStep(Run(labels), l) && Run(labels).client.Connected?
    requires if l.Delivers? then Run(labels).env.ops[l.op].answer.CommandDone?
      else l.Expires? && Run(labels).client.session.activity == Waiting(l.id)
    ensures var s, z := Run(labels).client.session, Step(Run(labels), l);
      z.env.ops ==
        [Running(match SettingDue(s.preferences, l.m.wanted) case Some(op) => op case None => Sync(s.position))]
  {
    RunKeeps(labels);
    var y := Run(labels);
    hide Run;
    BeforeKeeps(y, l);
    var b := Before(y, l);
    MidIsIdle(b);
    assert b.client == Connected(y.client.session.(activity := Deciding(false)));
    hide Step, Before, Mid, Inv, CoreStep;
    ConcludesChoice(b, l.m);
    hide Concluded;
  }

  /** The command the registry has for this list, if a complete one arrived. */
  function CommandFor(y: System, permits: set<G.MamId>): Option<R.Command> {
    if y.client.Connected? && y.client.session.listed && y.registry.Some?
    then R.Reconcile(G.Intents(y.registry.value), y.registry.value.nextId, y.client.session.torrents, permits)
    else None
  }

  /** It is the last one issued, less than a minute ago. */
  predicate JustIssued(y: System, command: R.Command, now: Time) {
    y.issued != [] && y.issued[|y.issued| - 1].command == command && Since(now, y.issued[|y.issued| - 1].at) < MINUTE
  }

  /** What was last issued is remembered. */
  ghost predicate LastIsKept(y: System) {
    y.lastCommand ==
      if y.issued == [] then None else Some((y.issued[|y.issued| - 1].command, y.issued[|y.issued| - 1].at))
  }

  /** The same command is not issued twice in a row within a minute. */
  ghost predicate RepeatsSpaced(issued: seq<Issued>) {
    forall k :: 0 < k < |issued| && issued[k].command == issued[k - 1].command ==>
      Since(issued[k].at, issued[k - 1].at) >= MINUTE
  }

  lemma DecidedIssues(y: System, m: Moment)
    requires LastIsKept(y) && RepeatsSpaced(y.issued)
    ensures var z := Decided(y, m);
      && LastIsKept(z) && RepeatsSpaced(z.issued) && (!Consults(y.client, m.wanted) ==> z.issued == y.issued)
      && (Consults(y.client, m.wanted) ==>
            var command := CommandFor(y, m.permits);
            var issues := command.Some? && !JustIssued(y, command.value, m.now.monotonic);
            && Asked(y, m) == (if issues then command else None)
            && (if issues then |z.issued| == |y.issued| + 1 && z.issued[|y.issued|].command == command.value
                else z.issued == y.issued))
  {
    hide R.Reconcile, Decide, Perform, G.Intents;
  }

  lemma ConcludedIssues(y: System, m: Moment)
    requires LastIsKept(y) && RepeatsSpaced(y.issued)
    ensures var z := Concluded(y, m); LastIsKept(z) && RepeatsSpaced(z.issued)
  {
    ObservedParts(y, m);
    DecidedIssues(Observed(y, m), m);
    hide Observed, Decided, RepeatsSpaced;
  }

  lemma StepConcludes(y: System, l: Label)
    ensures CoreStep(y, l) ==>
      var b := Before(y, l); Step(y, l) == Concluded(b, l.m) && b.issued == y.issued && b.lastCommand == y.lastCommand
    ensures !CoreStep(y, l) ==> Step(y, l).issued == y.issued && Step(y, l).lastCommand == y.lastCommand
  {
    hide Concluded, Handle, TimerExpired, G.Inv, Perform;
  }

  lemma {:induction false} RunIssues(labels: seq<Label>)
    ensures LastIsKept(Run(labels)) && RepeatsSpaced(Run(labels).issued)
  {
    if labels != [] {
      var y, l := Run(labels[..|labels| - 1]), labels[|labels| - 1];
      RunIssues(labels[..|labels| - 1]);
      StepConcludes(y, l);
      hide Concluded, RepeatsSpaced, CoreStep, Before, Step;
      if CoreStep(y, l) { ConcludedIssues(Before(y, l), l.m); }
    }
  }

  /** Over every run: the same command is issued twice in a row only with a minute or more between. */
  lemma RepeatedCommandsAreSpaced(labels: seq<Label>, k: nat)
    requires 0 < k < |Run(labels).issued| && Run(labels).issued[k].command == Run(labels).issued[k - 1].command
    ensures Since(Run(labels).issued[k].at, Run(labels).issued[k - 1].at) >= MINUTE
  {
    RunIssues(labels);
  }

  /** A list arrived, which took the system from `y` to `z`. */
  ghost predicate AfterList(y: System, m: Moment, z: System) {
    z.client.Connected? &&
    var due, command := SettingDue(z.client.session.preferences, m.wanted), CommandFor(z, m.permits);
    if due.Some? then z.env.ops == [Running(due.value)] && z.issued == y.issued
    else if command.Some? && !JustIssued(y, command.value, m.now.monotonic)
    then
      && z.env.ops == [Running(Apply(command.value))]
      && |z.issued| == |y.issued| + 1 && z.issued[|y.issued|].command == command.value
    else
      && z.issued == y.issued
      && if z.polls >= 6 then z.env.ops == [Running(ReadPreferences)] else z.client.session.activity.Waiting?
  }

  /**
   * When a list arrives and no setting is due, the registry's command for it is issued and applied
   * unless it was just issued; with no command to issue, the preferences are read after six lists, and
   * otherwise polling waits.
   */
  lemma CommandsWhenNeeded(labels: seq<Label>, l: Label)
    requires CoreStep(Run(labels), l) && l.Delivers? && Run(labels).env.ops[l.op].answer.Synced?
    ensures AfterList(Run(labels), l.m, Step(Run(labels), l))
  {
    RunKeeps(labels);
    RunInforms(labels);
    RunIssues(labels);
    var y := Run(labels);
    hide Run;
    BeforeKeeps(y, l);
    BeforeInforms(y, l);
    SyncIsMerged(y, l.m.now);
    var b := Before(y, l);
    assert LastIsKept(b) && b.issued == y.issued && b.client.Connected? && b.client.session.activity == Deciding(true);
    MidIsIdle(b);
    hide Step, Before, Mid, Inv, CoreStep, RepeatsSpaced;
    ConcludesChoice(b, l.m);
    FreshChoice(b, l.m);
    hide Concluded, CommandFor, LastIsKept, Asked, Observed;
  }

  lemma SyncIsMerged(y: System, now: Clock)
    requires Inv(y) && |y.env.ops| == 1 && y.env.ops[0].Answered? && y.env.ops[0].answer.Synced?
    ensures var c := Handle(y.client, now, y.env.ops[0].answer, y.env.next).client;
      c.Connected? && c.session.activity == Deciding(true)
  {
    hide Replica, UpdateFits, AllFresh, G.Inv, KnownIds, Applied;
  }

  lemma FactsStay(y: System, m: Moment)
    requires y.client.Connected?
    ensures var d := Decided(y, m); var z := Followed(d, m);
      z.registry == y.registry && SameList(y.client, z.client) && z.issued == d.issued
  {
    hide Asked, Perform;
  }

  lemma FreshChoice(y: System, m: Moment)
    requires LastIsKept(y) && RepeatsSpaced(y.issued)
    requires y.client.Connected? && y.client.session.activity == Deciding(true)
    ensures var z := Concluded(y, m); var command := CommandFor(z, m.permits);
      var issues := SettingDue(y.client.session.preferences, m.wanted).None? && command.Some?
        && !JustIssued(y, command.value, m.now.monotonic);
      && (SettingDue(y.client.session.preferences, m.wanted).None? ==>
            Asked(Observed(y, m), m) == if issues then command else None)
      && (if issues then |z.issued| == |y.issued| + 1 && z.issued[|y.issued|].command == command.value
          else z.issued == y.issued)
  {
    ObservedParts(y, m);
    DecidedIssues(Observed(y, m), m);
    FactsStay(Observed(y, m), m);
    hide Observed, Decided, Followed, RepeatsSpaced, LastIsKept, Asked;
  }

  // ---------- Connecting ----------

  /** Why the request failed, if this answer says it did. */
  function FailureOf(e: Event): Option<Failure> {
    match e
    case ConnectFailed(reason) => Some(reason)
    case SyncFailed(reason) => Some(reason)
    case PreferencesReadFailed(reason) => Some(reason)
    case ListenPortSetFailed(reason) => Some(reason)
    case QueueSetFailed(reason) => Some(reason)
    case CommandFailed(reason) => Some(reason)
    case _ => None
  }

  /** What an answer other than a list or a done command leads to. */
  ghost predicate AfterAnswer(e: Event, z: System) {
    && (FailureOf(e).Some? ==>
          z.client.Unreachable? && z.client.reason == FailureOf(e).value && z.env.ops == []
            && z.env.timer == Some(z.client.retry))
    && (e.Connects? ==>
          && z.client == Connected(Session(e.version, e.preferences, map[], Syncing, 0, false, 0))
          && z.env.ops == [Running(Sync(0))])
    && (e.ListenPortSet? || e.QueueSet? ==> z.env.ops == [Running(ReadPreferences)])
  }

  /**
   * A failed request ends the session, with its reason, until a timer ends; connecting starts one and
   * polls for the whole list; and a setting that was changed is read back.
   */
  lemma AnswersLeadOn(labels: seq<Label>, l: Label)
    requires CoreStep(Run(labels), l) && l.Delivers?
    ensures AfterAnswer(Run(labels).env.ops[l.op].answer, Step(Run(labels), l))
  {
    RunKeeps(labels);
    var y := Run(labels);
    hide Run;
    BeforeKeeps(y, l);
    BeforeLeadsOn(y, l.m.now);
    var b := Before(y, l);
    hide Step, Mid, Inv, CoreStep, Handled, Received;
    if !Choosing(b.client) && !(b.client.Connected? && b.client.session.activity.Waiting?) {
      ConcludesQuietly(b, l.m);
    }
    hide Concluded, Handle;
  }

  lemma BeforeLeadsOn(y: System, now: Clock)
    requires Inv(y) && |y.env.ops| == 1 && y.env.ops[0].Answered?
    ensures var e := y.env.ops[0].answer;
      var b := Handled(Received(y, 0), Handle(y.client, now, e, y.env.next));
      && AfterAnswer(e, b)
      && (FailureOf(e).Some? || e.Connects? || e.ListenPortSet? || e.QueueSet? ==>
            !Choosing(b.client) && !(b.client.Connected? && b.client.session.activity.Waiting?))
  {
    hide Replica, UpdateFits, AllFresh, G.Inv, KnownIds;
    var o := Handle(y.client, now, y.env.ops[0].answer, y.env.next);
    assert Taken(y.env, 0).ops == [];
    PerformOne(Taken(y.env, 0), if o.actions == [] then Connect else o.actions[0]);
    hide Perform, Merged;
  }

  /** Enabling connects, and so does the end of the wait after a failure. */
  lemma ConnectsWhenDue(labels: seq<Label>, l: Label)
    requires CoreStep(Run(labels), l)
    requires if Run(labels).client.Disabled? then l.Enables?
      else Run(labels).client.Unreachable? && l.Expires? && l.id == Run(labels).client.retry
    ensures Step(Run(labels), l).client == Connecting && Step(Run(labels), l).env.ops == [Running(Connect)]
  {
    RunKeeps(labels);
    var y := Run(labels);
    hide Run;
    BeforeKeeps(y, l);
    PerformOne(if l.Expires? then Heard(y.env, l.id) else y.env, Connect);
    ConcludesQuietly(Before(y, l), l.m);
    hide Step, Mid, Concluded, Perform;
  }

  /** Every wait is of ten seconds. */
  lemma WaitsAreTenSeconds(
      c: Client, now: Clock, e: Event, wanted: Wanted, command: Option<R.Command>, id: nat, a: Action)
    requires a in Handle(c, now, e, id).actions + Decide(c, now, wanted, command, id).actions && a.StartTimer?
    ensures a == StartTimer(id, Deadline(now.monotonic + 10 * SECOND, 10 * SECOND))
  {
    hide Merged;
  }
}
