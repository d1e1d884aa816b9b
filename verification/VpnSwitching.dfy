/**
 * The tunnel over whole lives of the program: the shell runs one request at a time for it, storage
 * keeps the last switch in whole seconds, and the program can stop at any moment and start again.
 */
module VpnSwitching {
  import opened Basics
  import opened Tunnel
  import opened Wake

  function Stored(switch: VpnSwitch): VpnSwitch {
    VpnSwitch(switch.server, WholeSeconds(switch.at))
  }

  /** A check of this life that was answered since it began or a switch was made. */
  datatype Checked = Good(ip: string, at: Time) | Bad(reason: ExitIpFailure, at: Time)

  /**
   * A started switch: what storage held when it started, the life of the program it started in, the
   * server connected then, those configured, and how many checks in a row had failed.
   */
  datatype Started = Started(
    switch: VpnSwitch, stored: Option<VpnSwitch>, life: nat, from: Option<Server>, servers: seq<Server>, failed: nat)

  /**
   * `env` serves tunnel checks and switches, `reading` the one read at startup. `arrived` is the
   * server really connected as far as this life knows, `checks` the answered checks since then,
   * `checkedAt` when the last check began, and `heardAt` and `ring` when the last timer was started
   * and when it rings.
   */
  datatype System = System(
    state: State, env: Env<Action, Event>, reading: seq<Pending<Action, Event>>,
    stored: Option<VpnSwitch>, started: seq<Started>, life: nat,
    arrived: Option<Server>, checks: seq<Checked>, checkedAt: Time, heardAt: Time, ring: Time)

  /** How many checks failed in a row, up to the last. */
  function Trailing(checks: seq<Checked>): (n: nat)
    ensures n <= |checks|
    ensures forall i :: |checks| - n <= i < |checks| ==> checks[i].Bad?
    ensures n < |checks| ==> checks[|checks| - n - 1].Good?
  {
    if checks == [] || checks[|checks| - 1].Good? then 0 else 1 + Trailing(checks[..|checks| - 1])
  }

  datatype Label =
    | Enabled(now: Clock, servers: seq<Server>, current: Option<Server>)
    | OpenStorage
    | Finishes(op: nat, answer: Event)
    | Delivers(op: nat, now: Clock)
    | FinishesRead(read: nat, ok: bool)
    | DeliversRead(read: nat, now: Clock)
    | TimerRings
    | Expires(id: nat, now: Clock)
    | Suspected(now: Clock)
    | SpendIds(ids: nat)
    | Restart

  /** The answers a request can return. */
  predicate AnswerOf(op: Action, e: Event) {
    match op
    case CheckExitIp => e.ExitIpObserved? || e.ExitIpCheckFailed?
    case SaveVpnSwitch(_) => e.SwitchSaved? || e.SwitchSaveFailed?
    case SwitchVpnServer(_) => e.Switched? || e.SwitchFailed?
    case _ => false
  }

  /** The shell carries out what a step asked for; a switch that starts is noted. */
  function Act(y: System, o: Outcome, now: Time): System {
    var z := y.(state := o.state);
    match o.action
    case None => z
    case Some(StartTimer(_, deadline)) => z.(env := Arm(y.env), heardAt := now, ring := deadline.at)
    case Some(ReadLastVpnSwitch) => z.(reading := y.reading + [Running(ReadLastVpnSwitch)])
    case Some(SwitchVpnServer(server)) =>
      z.(env := Launch(y.env, SwitchVpnServer(server)),
         started := match o.state.lastSwitch
                    case Known(Some(switch)) =>
                      y.started + [Started(switch, y.stored, y.life, y.arrived, Servers(o.state), Trailing(y.checks))]
                    case _ => y.started)
    case Some(CheckExitIp) => z.(env := Launch(y.env, CheckExitIp), checkedAt := now)
    case Some(op) => z.(env := Launch(y.env, op))
  }

  function Servers(s: State): seq<Server> {
    if s.watch.Some? then s.watch.value.servers else []
  }

  /** What an answer that is delivered tells of the connection. */
  function Noted(y: System, e: Event, now: Clock): System {
    match e
    case ExitIpObserved(ip) => y.(checks := y.checks + [Good(ip, now.wall)])
    case ExitIpCheckFailed(reason) => y.(checks := y.checks + [Bad(reason, now.wall)])
    case Switched => y.(checks := [])
    case _ => y
  }

  function FinishOp(y: System, i: nat, answer: Event): System
    requires i < |y.env.ops| && y.env.ops[i].Running?
  {
    var op := y.env.ops[i].op;
    y.(env := Finish(y.env, i, answer),
       stored := if op.SaveVpnSwitch? && answer.SwitchSaved? then Some(Stored(op.switch)) else y.stored,
       arrived := if op.SwitchVpnServer? && answer.Switched? then Some(op.server) else y.arrived)
  }

  function Step(y: System, l: Label): System {
    match l
    case Enabled(now, servers, current) =>
      var known := if y.state.watch.None? then y.(arrived := current, checks := []) else y;
      Act(known, Handle(y.state, now, Enable(servers, current), y.env.next), now.monotonic)
    case OpenStorage => if y.state.lastSwitch.Unread? then Act(y, StartReading(y.state), 0) else y
    case Finishes(i, answer) =>
      if i < |y.env.ops| && y.env.ops[i].Running? && AnswerOf(y.env.ops[i].op, answer)
        then FinishOp(y, i, answer) else y
    case Delivers(i, now) =>
      if i < |y.env.ops| && y.env.ops[i].Answered?
      then
        var e := y.env.ops[i].answer;
        Act(Noted(y.(env := Taken(y.env, i)), e, now), Handle(y.state, now, e, y.env.next), now.monotonic)
      else y
    case FinishesRead(i, ok) =>
      if i < |y.reading| && y.reading[i].Running?
      then y.(reading := y.reading[i := Answered(if ok then LastSwitchRead(y.stored) else LastSwitchReadFailed)])
      else y
    case DeliversRead(i, now) =>
      if i < |y.reading| && y.reading[i].Answered?
      then Act(y.(reading := y.reading[..i] + y.reading[i + 1..]),
          Handle(y.state, now, y.reading[i].answer, y.env.next), now.monotonic)
      else y
    case TimerRings => y.(env := Ring(y.env))
    case Expires(id, now) =>
      if id in y.env.rung then Act(y.(env := Heard(y.env, id)), TimerExpired(y.state, now, id), now.monotonic) else y
    case Suspected(now) => Act(y, Suspect(y.state, now), now.monotonic)
    case SpendIds(ids) => y.(env := Spend(y.env, ids))
    case Restart =>
      y.(state := State(Unread, None), env := Idle(), reading := [], life := y.life + 1, arrived := None, checks := [])
  }

  const FIRST: System := System(State(Unread, None), Idle(), [], None, [], 0, None, [], 0, 0, 0)

  function Run(labels: seq<Label>): System {
    if labels == [] then FIRST else Step(Run(labels[..|labels| - 1]), labels[|labels| - 1])
  }

  // ---------- One thing in flight ----------

  /** The one request the tunnel waits for, if it waits for one. */
  function Awaited(w: Watch): Option<Action> {
    match w.check
    case Outstanding => Some(CheckExitIp)
    case Waiting(_) => None
    case Switching =>
      (match w.failover
       case Some(Saving(switch)) => Some(SaveVpnSwitch(switch))
       case Some(SwitchingTo(server)) => Some(SwitchVpnServer(server))
       case None => None)
  }

  predicate IsFor(p: Pending<Action, Event>, op: Action) {
    match p
    case Running(o) => o == op
    case Answered(e) => AnswerOf(op, e)
  }

  /**
   * Exactly one thing will wake an enabled tunnel: the request it waits for, or that request's
   * answer, or its current timer; and a failover is there exactly while the check is `Switching`.
   */
  ghost predicate OneInFlight(y: System) {
    match y.state.watch
    case None => y.env.ops == []
    case Some(w) =>
      && (w.failover.Some? <==> w.check.Switching?)
      && (match Awaited(w)
          case Some(op) => |y.env.ops| == 1 && IsFor(y.env.ops[0], op)
          case None => y.env.ops == [] && w.check.Waiting? && Rings(y.env, w.check.timer))
  }

  /** Reading happens once a life, and ends when its answer arrives. */
  ghost predicate OneRead(y: System) {
    if y.state.lastSwitch.Reading?
    then |y.reading| == 1
        && (y.reading[0].Running? || y.reading[0].answer.LastSwitchRead? || y.reading[0].answer.LastSwitchReadFailed?)
    else y.reading == []
  }

  // ---------- Spacing ----------

  /** At least an hour after this time. */
  predicate HourAfter(last: Option<Time>, at: Time) {
    last.Some? ==> last.value + SWITCH_SPACING <= at
  }

  /** The latest start, as exact as this life knows it. */
  function LatestStart(y: System): Option<Time> {
    if y.started == [] then None
    else
      var last := y.started[|y.started| - 1];
      Some(if last.life == y.life then last.switch.at else WholeSeconds(last.switch.at))
  }

  predicate NotBefore(floor: Option<Time>, switch: Option<VpnSwitch>) {
    floor.Some? ==> switch.Some? && floor.value <= switch.value.at
  }

  /** What storage and the core know of the last switch never falls behind the latest start. */
  ghost predicate Remembers(y: System) {
    && (y.started != [] ==> NotBefore(Some(WholeSeconds(y.started[|y.started| - 1].switch.at)), y.stored))
    && (y.started != [] ==> y.started[|y.started| - 1].life <= y.life)
    && (y.started != [] && y.started[|y.started| - 1].life == y.life ==> y.state.lastSwitch.Known?)
    && (y.state.lastSwitch.Known? ==> NotBefore(LatestStart(y), y.state.lastSwitch.last))
    && (y.reading != [] && y.reading[0].Answered? && y.reading[0].answer.LastSwitchRead? ==>
        NotBefore(LatestStart(y), y.reading[0].answer.stored))
  }

  /** A failover being saved keeps the hour, and once it is saved storage holds it. */
  ghost predicate SavingKeepsSpacing(y: System) {
    y.state.watch.Some? && y.state.watch.value.failover.Some? && y.state.watch.value.failover.value.Saving? ==>
      var switch := y.state.watch.value.failover.value.switch;
      && y.state.lastSwitch.Known? && HourAfter(LatestStart(y), switch.at)
      && (y.env.ops != [] && y.env.ops[0] == Answered(SwitchSaved) ==> y.stored == Some(Stored(switch)))
  }

  /** Consecutive starts: an hour or more apart in one life, more than an hour less a second across lives. */
  predicate Spaced(a: Started, b: Started) {
    && a.life <= b.life
    && (a.life == b.life ==> a.switch.at + SWITCH_SPACING <= b.switch.at)
    && a.switch.at + SWITCH_SPACING - SECOND < b.switch.at
  }

  ghost predicate AllSpaced(started: seq<Started>) {
    && (forall i :: 0 <= i < |started| ==> started[i].stored == Some(Stored(started[i].switch)))
    && (forall i :: 0 < i < |started| ==> Spaced(started[i - 1], started[i]))
  }

  ghost predicate Inv(y: System) {
    KnownIds(y.env) && OneInFlight(y) && OneRead(y) && Remembers(y) && SavingKeepsSpacing(y) && AllSpaced(y.started)
  }

  lemma WholeSecondsClose(at: Time)
    ensures at - SECOND < WholeSeconds(at) && (at >= 0 ==> WholeSeconds(at) <= at)
  {
  }

  lemma WholeSecondsOrder(a: Time, b: Time)
    requires a <= b || WholeSeconds(a) <= b
    ensures WholeSeconds(a) <= WholeSeconds(b)
  {
  }

  lemma FinishKeeps(y: System, i: nat, answer: Event)
    requires Inv(y) && i < |y.env.ops| && y.env.ops[i].Running? && AnswerOf(y.env.ops[i].op, answer)
    ensures Inv(FinishOp(y, i, answer))
  {
    var z := FinishOp(y, i, answer);
    hide AllSpaced;
    assert i == 0 && z.env.ops == [Answered(answer)];
    var op := y.env.ops[0].op;
    if op.SaveVpnSwitch? {
      if y.started != [] { WholeSecondsOrder(y.started[|y.started| - 1].switch.at, op.switch.at); }
    }
    hide WholeSeconds;
  }

  /** Starting a switch: storage holds it, and it comes an hour or more after the last. */
  lemma StartKeeps(y: System, now: Clock)
    requires Inv(y) && |y.env.ops| == 1 && y.env.ops[0] == Answered(SwitchSaved)
    ensures Inv(Step(y, Delivers(0, now)))
  {
    SwitchStartParts(y, now);
    var switch := y.state.watch.value.failover.value.switch;
    var z := Step(y, Delivers(0, now));
    hide Step, Trailing;
    assert AllSpaced(z.started) by {
      if y.started != [] {
        WholeSecondsClose(y.started[|y.started| - 1].switch.at);
        hide WholeSeconds, OneInFlight, OneRead, KnownIds;
        assert Spaced(y.started[|y.started| - 1], z.started[|y.started|]);
      }
    }
    hide AllSpaced, WholeSeconds;
  }

  lemma CheckedKeepsSpacing(y: System, now: Clock)
    requires OneInFlight(y) && Remembers(y) && |y.env.ops| == 1 && y.env.ops[0].Answered?
    requires y.env.ops[0].answer.ExitIpObserved? || y.env.ops[0].answer.ExitIpCheckFailed?
    ensures SavingKeepsSpacing(Step(y, Delivers(0, now)))
  {
    hide WholeSeconds, NextServer, Trailing;
    assert Taken(y.env, 0).ops == [];
  }

  lemma CheckedIsWoken(y: System, now: Clock)
    requires OneInFlight(y) && KnownIds(y.env) && |y.env.ops| == 1 && y.env.ops[0].Answered?
    requires y.env.ops[0].answer.ExitIpObserved? || y.env.ops[0].answer.ExitIpCheckFailed?
    ensures var z := Step(y, Delivers(0, now));
      && OneInFlight(z) && KnownIds(z.env) && z.state.lastSwitch == y.state.lastSwitch
      && z.started == y.started && z.stored == y.stored && z.reading == y.reading && z.life == y.life
  {
    hide NextServer, SwitchAllowance, Trailing;
    assert Taken(y.env, 0).ops == [];
  }

  lemma CheckedKeeps(y: System, now: Clock)
    requires Inv(y) && |y.env.ops| == 1 && y.env.ops[0].Answered?
    requires y.env.ops[0].answer.ExitIpObserved? || y.env.ops[0].answer.ExitIpCheckFailed?
    ensures Inv(Step(y, Delivers(0, now)))
  {
    CheckedIsWoken(y, now);
    CheckedKeepsSpacing(y, now);
    hide Step, AllSpaced, WholeSeconds, OneInFlight, SavingKeepsSpacing, KnownIds;
  }

  lemma SwitchEndKeeps(y: System, now: Clock)
    requires Inv(y) && |y.env.ops| == 1 && y.env.ops[0].Answered?
    requires y.env.ops[0].answer.SwitchSaveFailed? || y.env.ops[0].answer.Switched? || y.env.ops[0].answer.SwitchFailed?
    ensures Inv(Step(y, Delivers(0, now)))
  {
    var z := Step(y, Delivers(0, now));
    hide AllSpaced, WholeSeconds, NextServer, CheckFailed;
    assert z.started == y.started && z.stored == y.stored && z.reading == y.reading && z.life == y.life;
    assert z.state.lastSwitch == y.state.lastSwitch;
    assert Taken(y.env, 0).ops == [];
    assert Remembers(z) by {
      hide OneInFlight, OneRead, SavingKeepsSpacing, KnownIds;
    }
    hide Remembers;
  }

  lemma StepKeeps(y: System, l: Label)
    requires Inv(y)
    ensures Inv(Step(y, l))
  {
    match l
    case Finishes(i, answer) =>
      if i < |y.env.ops| && y.env.ops[i].Running? && AnswerOf(y.env.ops[i].op, answer) { FinishKeeps(y, i, answer); }
    case Delivers(i, now) =>
      if i < |y.env.ops| && y.env.ops[i].Answered? {
        var answer := y.env.ops[i].answer;
        if answer.SwitchSaved? {
          StartKeeps(y, now);
        } else if answer.ExitIpObserved? || answer.ExitIpCheckFailed? {
          CheckedKeeps(y, now);
        } else {
          SwitchEndKeeps(y, now);
        }
      }
    case FinishesRead(_, _) => ReadKeeps(y, l);
    case DeliversRead(_, _) => ReadKeeps(y, l);
    case OpenStorage => ReadKeeps(y, l);
    case Enabled(_, _, _) => ChecksKeep(y, l);
    case Expires(_, _) => ChecksKeep(y, l);
    case Suspected(_) => ChecksKeep(y, l);
    case _ => OtherKeeps(y, l);
  }

  lemma ReadKeeps(y: System, l: Label)
    requires Inv(y) && (l.FinishesRead? || l.DeliversRead? || l.OpenStorage?)
    ensures Inv(Step(y, l))
  {
    hide AllSpaced, NextServer;
    var z := Step(y, l);
    assert z.started == y.started && z.stored == y.stored && z.env == y.env && z.life == y.life;
    assert z.state.watch == y.state.watch;
    assert SavingKeepsSpacing(z) && OneRead(z) by {
      hide Remembers, WholeSeconds, OneInFlight, KnownIds;
    }
    ReadRemembers(y, l);
    hide Remembers, SavingKeepsSpacing, OneRead, KnownIds;
  }

  /** What was read from storage is not behind the latest start. */
  lemma ReadRemembers(y: System, l: Label)
    requires OneRead(y) && Remembers(y) && (l.FinishesRead? || l.DeliversRead? || l.OpenStorage?)
    ensures Remembers(Step(y, l))
  {
    if y.started != [] { WholeSecondsClose(y.started[|y.started| - 1].switch.at); }
    hide WholeSeconds, HandleWatch, Trailing;
  }

  lemma ChecksKeep(y: System, l: Label)
    requires Inv(y) && (l.Enabled? || l.Expires? || l.Suspected?)
    ensures Inv(Step(y, l))
  {
    hide AllSpaced, NextServer, WholeSeconds;
    var z := Step(y, l);
    assert z.started == y.started && z.stored == y.stored && z.reading == y.reading && z.life == y.life;
    assert z.state.lastSwitch == y.state.lastSwitch;
    assert Remembers(z) by {
      hide OneInFlight, OneRead, SavingKeepsSpacing, KnownIds;
    }
    hide Remembers;
  }

  lemma OtherKeeps(y: System, l: Label)
    requires Inv(y) && (l.TimerRings? || l.SpendIds? || l.Restart?)
    ensures Inv(Step(y, l))
  {
    hide AllSpaced, NextServer, WholeSeconds;
  }

  lemma {:induction false} RunKeeps(labels: seq<Label>)
    ensures Inv(Run(labels))
  {
    if labels != [] {
      RunKeeps(labels[..|labels| - 1]);
      StepKeeps(Run(labels[..|labels| - 1]), labels[|labels| - 1]);
    }
  }

  /**
   * Over every run and restart: each switch was durably recorded when it started, and consecutive
   * starts have recorded times at least an hour apart, or more than an hour less one second across
   * a restart, since storage keeps whole seconds.
   */
  lemma SwitchesAreSpaced(labels: seq<Label>, i: nat)
    requires i < |Run(labels).started|
    ensures var started := Run(labels).started;
      && started[i].stored == Some(Stored(started[i].switch))
      && (i > 0 ==> Spaced(started[i - 1], started[i]))
  {
    RunKeeps(labels);
  }

  /** Every answer that arrives is one the tunnel waits for, so nothing it asked for is lost or ignored. */
  lemma AnswersAreAwaited(labels: seq<Label>, i: nat)
    requires i < |Run(labels).env.ops|
    ensures var y := Run(labels);
      && i == 0 && |y.env.ops| == 1 && y.state.watch.Some?
      && Awaited(y.state.watch.value).Some? && IsFor(y.env.ops[i], Awaited(y.state.watch.value).value)
  {
    RunKeeps(labels);
  }

  /**
   * In every reachable state exactly one thing wakes an enabled tunnel, and failover is there exactly
   * while switching.
   */
  lemma TunnelIsAlwaysWoken(labels: seq<Label>)
    ensures OneInFlight(Run(labels)) && OneRead(Run(labels))
  {
    RunKeeps(labels);
  }

  /** The timer whose expiry starts the next check. */
  predicate Current(y: System, id: nat) {
    y.state.watch.Some? && y.state.watch.value.check == Waiting(id)
  }

  /** A timer the tunnel comes to wait for is one it has just scheduled. */
  lemma TimerIsNew(s: State, now: Clock, e: Event, id: nat)
    ensures var o := Handle(s, now, e, id);
      o.state.watch.Some? && o.state.watch.value.check.Waiting? ==>
        || (s.watch.Some? && s.watch.value.check == o.state.watch.value.check)
        || (o.state.watch.value.check == Waiting(id) && o.action.Some? && o.action.value.StartTimer?)
  {
    hide NextServer, SwitchAllowance;
  }

  /** A new timer takes a new identity, so one given before does not become current again in this life. */
  lemma StepKeepsObsolete(y: System, l: Label, id: nat, bound: nat)
    requires !l.Restart? && id < bound <= y.env.next && !Current(y, id)
    ensures bound <= Step(y, l).env.next && !Current(Step(y, l), id)
  {
    if l.Delivers? {
      if l.op < |y.env.ops| && y.env.ops[l.op].Answered? {
        TimerIsNew(y.state, l.now, y.env.ops[l.op].answer, y.env.next);
      }
      hide Handle, Trailing;
    } else {
      hide HandleWatch, Finish, Trailing;
    }
  }

  lemma {:induction false} RunKeepsObsolete(labels: seq<Label>, more: seq<Label>, id: nat)
    requires id < Run(labels).env.next && !Current(Run(labels), id)
    requires forall i :: 0 <= i < |more| ==> !more[i].Restart?
    ensures Run(labels).env.next <= Run(labels + more).env.next && !Current(Run(labels + more), id)
  {
    hide Step, Current;
    if more == [] {
      assert labels + more == labels;
    } else {
      var init, last := more[..|more| - 1], more[|more| - 1];
      RunKeepsObsolete(labels, init, id);
      assert (labels + more)[..|labels + more| - 1] == labels + init;
      StepKeepsObsolete(Run(labels + init), last, id, Run(labels).env.next);
    }
  }

  /**
   * A queued expiry of any timer but the current one stays obsolete for the rest of this life of the
   * program: whatever happens before it is heard, hearing it only takes it off the queue.
   */
  lemma ObsoleteExpiryChangesNothing(labels: seq<Label>, more: seq<Label>, id: nat, now: Clock)
    requires id in Run(labels).env.rung && !Current(Run(labels), id)
    requires forall i :: 0 <= i < |more| ==> !more[i].Restart?
    ensures var z := Run(labels + more);
      !Current(z, id) && Step(z, Expires(id, now)) == (if id in z.env.rung then z.(env := Heard(z.env, id)) else z)
  {
    RunKeeps(labels);
    assert KnownIds(Run(labels).env);
    hide Inv;
    RunKeepsObsolete(labels, more, id);
    hide Run;
  }

  // ---------- What the tunnel knows is so ----------

  /** Whether traffic flows, as the checks since startup or the last switch tell it. */
  ghost function ProtectionOf(checks: seq<Checked>): Protection {
    if checks == [] then Unknown
    else
      var n := Trailing(checks);
      if n == 0 then Available(checks[|checks| - 1].ip, checks[|checks| - 1].at)
      else Unavailable(checks[|checks| - n].at)
  }

  ghost function FailureOf(checks: seq<Checked>): Option<ExitIpFailure> {
    if Trailing(checks) == 0 then None else Some(checks[|checks| - 1].reason)
  }

  /** Its count, its failure, its protection and the time of its last check are those of the checks made. */
  ghost predicate ChecksKnown(y: System) {
    y.state.watch.Some? ==>
      var w := y.state.watch.value;
      && w.failures == Trailing(y.checks) && w.protection == ProtectionOf(y.checks)
      && w.lastFailure == FailureOf(y.checks) && w.lastCheck == y.checkedAt
  }

  /** While waiting the timer rings a quarter of an hour after a good check, and a minute after anything else. */
  ghost predicate WaitsRightly(y: System) {
    y.state.watch.Some? && y.state.watch.value.check.Waiting? ==>
      y.checks != [] && y.ring == y.heardAt + if y.checks[|y.checks| - 1].Good? then 15 * MINUTE else MINUTE
  }

  ghost predicate SwitchedWaits(y: System) {
    y.env.ops != [] && y.env.ops[0] == Answered(Switched)
  }

  /** The current server is the one connected, save while the news of a switch is on its way. */
  ghost predicate ConnectionKnown(y: System) {
    y.state.watch.Some? ==>
      var w := y.state.watch.value;
      if SwitchedWaits(y)
      then w.failover.Some? && w.failover.value.SwitchingTo? && y.arrived == Some(w.failover.value.server)
      else w.current == y.arrived
  }

  /** The server a failover is to, whichever stage it is in. */
  ghost function TargetOf(f: Failover): Server {
    match f
    case Saving(switch) => switch.server
    case SwitchingTo(server) => server
  }

  /** A failover follows three or more failed checks, and goes to the next server in turn. */
  ghost predicate FailoverWarranted(y: System) {
    y.state.watch.Some? && y.state.watch.value.failover.Some? ==>
      var w := y.state.watch.value;
      && Trailing(y.checks) >= 3
      && Some(TargetOf(w.failover.value)) == NextServer(w.servers, w.current)
      && (w.failover.value.SwitchingTo? ==>
            && y.started != [] && y.started[|y.started| - 1].life == y.life
            && y.started[|y.started| - 1].switch.server == w.failover.value.server)
  }

  ghost predicate StartsWarranted(started: seq<Started>) {
    forall i :: 0 <= i < |started| ==>
      started[i].failed >= 3 && Some(started[i].switch.server) == NextServer(started[i].servers, started[i].from)
  }

  ghost predicate Knows(y: System) {
    ChecksKnown(y) && WaitsRightly(y) && ConnectionKnown(y) && FailoverWarranted(y) && StartsWarranted(y.started)
  }

  lemma TrailingGrows(checks: seq<Checked>, last: Checked)
    ensures Trailing(checks + [last]) == if last.Good? then 0 else Trailing(checks) + 1
    ensures (checks + [last])[|checks|] == last
    ensures last.Bad? && Trailing(checks) > 0 ==>
      var all := checks + [last]; all[|all| - Trailing(all)] == checks[|checks| - Trailing(checks)]
  {
    assert (checks + [last])[..|checks|] == checks;
  }

  lemma GoodCheckParts(y: System, now: Clock)
    requires OneInFlight(y) && |y.env.ops| == 1 && y.env.ops[0].Answered? && y.env.ops[0].answer.ExitIpObserved?
    ensures y.state.watch.Some? && y.state.watch.value.failover.None? && !SwitchedWaits(y)
    ensures var z := Step(y, Delivers(0, now)); var ip, w := y.env.ops[0].answer.ip, y.state.watch.value;
      && z.checks == y.checks + [Good(ip, now.wall)] && z.checkedAt == y.checkedAt
      && z.arrived == y.arrived && z.started == y.started
      && z.state.watch == Some(w.(protection := Available(ip, now.wall), failures := 0, lastFailure := None,
           check := Waiting(y.env.next)))
      && z.heardAt == now.monotonic && z.ring == now.monotonic + 15 * MINUTE && z.env.ops == []
  {
    assert Taken(y.env, 0).ops == [];
    hide CheckFailed, KnownIds;
  }

  lemma GoodCheckKnows(y: System, now: Clock)
    requires Inv(y) && Knows(y) && |y.env.ops| == 1 && y.env.ops[0].Answered? && y.env.ops[0].answer.ExitIpObserved?
    ensures Knows(Step(y, Delivers(0, now)))
  {
    GoodCheckParts(y, now);
    TrailingGrows(y.checks, Good(y.env.ops[0].answer.ip, now.wall));
    hide Inv, Step, StartsWarranted, NextServer, Trailing;
  }

  /** Whether the failed check is followed by a failover, or by another check. */
  lemma BadCheckParts(y: System, now: Clock)
    requires OneInFlight(y) && |y.env.ops| == 1 && y.env.ops[0].Answered? && y.env.ops[0].answer.ExitIpCheckFailed?
    ensures y.state.watch.Some? && y.state.watch.value.check.Outstanding? && y.state.watch.value.failover.None?
    ensures var z := Step(y, Delivers(0, now)); var w := y.state.watch.value;
      && z.checks == y.checks + [Bad(y.env.ops[0].answer.reason, now.wall)] && z.checkedAt == y.checkedAt
      && z.arrived == y.arrived && z.started == y.started && z.life == y.life && z.state.watch.Some?
      && var v := z.state.watch.value;
         && v.servers == w.servers && v.current == w.current && v.lastCheck == w.lastCheck
         && v.failures == w.failures + 1
         && v.lastFailure == Some(y.env.ops[0].answer.reason)
         && v.protection == (if w.protection.Unavailable? then w.protection else Unavailable(now.wall))
         && (v.failover == None ==> v.check.Waiting? && z.heardAt == now.monotonic && z.ring == now.monotonic + MINUTE)
         && (v.failover != None ==>
               && v.check == Switching && v.failures >= 3 && v.failover.value.Saving?
               && Some(v.failover.value.switch.server) == NextServer(v.servers, v.current))
         && (v.failover != None <==>
               && w.failures + 1 >= 3 && y.state.lastSwitch.Known? && NextServer(w.servers, w.current).Some?
               && (y.state.lastSwitch.last.Some? ==> y.state.lastSwitch.last.value.at + HOUR <= now.wall))
         && !SwitchedWaits(z)
  {
    hide NextServer;
    assert Taken(y.env, 0).ops == [];
  }

  lemma BadCheckIsKnown(y: System, now: Clock)
    requires OneInFlight(y) && ChecksKnown(y)
    requires |y.env.ops| == 1 && y.env.ops[0].Answered? && y.env.ops[0].answer.ExitIpCheckFailed?
    ensures ChecksKnown(Step(y, Delivers(0, now))) && WaitsRightly(Step(y, Delivers(0, now)))
  {
    BadCheckParts(y, now);
    TrailingGrows(y.checks, Bad(y.env.ops[0].answer.reason, now.wall));
    hide Step, NextServer, Trailing, OneInFlight, SwitchedWaits;
  }

  lemma BadCheckKnows(y: System, now: Clock)
    requires Inv(y) && Knows(y) && |y.env.ops| == 1 && y.env.ops[0].Answered? && y.env.ops[0].answer.ExitIpCheckFailed?
    ensures Knows(Step(y, Delivers(0, now)))
  {
    BadCheckParts(y, now);
    TrailingGrows(y.checks, Bad(y.env.ops[0].answer.reason, now.wall));
    BadCheckIsKnown(y, now);
    hide Step, StartsWarranted, NextServer, Trailing, OneInFlight, WaitsRightly, ProtectionOf, FailureOf;
    hide Remembers, OneRead, SavingKeepsSpacing, AllSpaced, KnownIds;
  }

  lemma SwitchStartParts(y: System, now: Clock)
    requires OneInFlight(y) && |y.env.ops| == 1 && y.env.ops[0] == Answered(SwitchSaved)
    ensures y.state.watch.Some? && y.state.watch.value.check.Switching? && y.state.watch.value.failover.Some?
    ensures y.state.watch.value.failover.value.Saving? && !SwitchedWaits(y)
    ensures var z := Step(y, Delivers(0, now)); var w := y.state.watch.value; var switch := w.failover.value.switch;
      && z.checks == y.checks && z.checkedAt == y.checkedAt && z.arrived == y.arrived && z.life == y.life
      && z.started == y.started
           + [Started(switch, y.stored, y.life, y.arrived, w.servers, Trailing(y.checks))]
      && z.state.watch == Some(w.(failover := Some(SwitchingTo(switch.server))))
      && z.env == y.env.(ops := [Running(SwitchVpnServer(switch.server))])
      && z.stored == y.stored && z.reading == y.reading && z.state.lastSwitch == Known(Some(switch))
  {
    assert Taken(y.env, 0).ops == [];
    hide CheckFailed, KnownIds, Trailing;
  }

  lemma SwitchStartKnows(y: System, now: Clock)
    requires Inv(y) && Knows(y) && |y.env.ops| == 1 && y.env.ops[0] == Answered(SwitchSaved)
    ensures Knows(Step(y, Delivers(0, now)))
  {
    SwitchStartParts(y, now);
    hide Inv, Step, NextServer, Trailing;
  }

  lemma SwitchEndParts(y: System, now: Clock)
    requires OneInFlight(y) && |y.env.ops| == 1 && y.env.ops[0].Answered?
    requires y.env.ops[0].answer.Switched? || y.env.ops[0].answer.SwitchFailed? || y.env.ops[0].answer.SwitchSaveFailed?
    ensures y.state.watch.Some? && y.state.watch.value.failover.Some?
    ensures y.env.ops[0].answer.Switched? ==> y.state.watch.value.failover.value.SwitchingTo?
    ensures var z := Step(y, Delivers(0, now)); var w, switched := y.state.watch.value, y.env.ops[0].answer.Switched?;
      && z.arrived == y.arrived && z.started == y.started && z.checks == (if switched then [] else y.checks)
      && !SwitchedWaits(z) && z.checkedAt == (if switched then now.monotonic else y.checkedAt)
      && z.state.watch == Some(
           if switched
           then Watch(w.servers, Some(w.failover.value.server), Unknown, Outstanding, 0, None, None, now.monotonic)
           else w.(failover := None, check := Waiting(y.env.next)))
      && (!switched ==> z.heardAt == now.monotonic && z.ring == now.monotonic + MINUTE)
  {
    assert Taken(y.env, 0).ops == [];
    hide CheckFailed, KnownIds, Trailing;
  }

  lemma SwitchEndKnows(y: System, now: Clock)
    requires Inv(y) && Knows(y) && |y.env.ops| == 1 && y.env.ops[0].Answered?
    requires y.env.ops[0].answer.Switched? || y.env.ops[0].answer.SwitchFailed? || y.env.ops[0].answer.SwitchSaveFailed?
    ensures Knows(Step(y, Delivers(0, now)))
  {
    SwitchEndParts(y, now);
    assert Trailing([]) == 0;
    assert y.checks != [] && y.checks[|y.checks| - 1].Bad?;
    hide Inv, Step, NextServer, Trailing, StartsWarranted;
  }

  lemma ReadingKnows(y: System, l: Label)
    requires Inv(y) && Knows(y)
    requires l.OpenStorage? || l.FinishesRead? || l.DeliversRead? || l.TimerRings? || l.SpendIds? || l.Restart?
    ensures Knows(Step(y, l))
  {
    hide NextServer, Remembers, SavingKeepsSpacing, AllSpaced, StartsWarranted, HandleWatch, Trailing;
  }

  lemma QuietKnows(y: System, l: Label)
    requires Inv(y) && Knows(y) && (l.Enabled? || l.Expires? || l.Suspected?)
    ensures Knows(Step(y, l))
  {
    hide NextServer, Remembers, SavingKeepsSpacing, AllSpaced, StartsWarranted, HandleWatch, OneRead;
    assert Trailing([]) == 0;
    hide Trailing;
  }

  lemma FinishKnows(y: System, i: nat, answer: Event)
    requires Inv(y) && Knows(y) && i < |y.env.ops| && y.env.ops[i].Running? && AnswerOf(y.env.ops[i].op, answer)
    ensures Knows(FinishOp(y, i, answer))
  {
    hide NextServer, Remembers, SavingKeepsSpacing, AllSpaced, StartsWarranted, Trailing, OneRead;
    assert i == 0 && FinishOp(y, i, answer).env.ops == [Answered(answer)];
  }

  lemma StepKnows(y: System, l: Label)
    requires Inv(y) && Knows(y)
    ensures Knows(Step(y, l))
  {
    match l
    case Finishes(i, answer) =>
      if i < |y.env.ops| && y.env.ops[i].Running? && AnswerOf(y.env.ops[i].op, answer) { FinishKnows(y, i, answer); }
    case Delivers(i, now) =>
      if i < |y.env.ops| && y.env.ops[i].Answered? {
        var answer := y.env.ops[i].answer;
        match answer
        case ExitIpObserved(_) => GoodCheckKnows(y, now);
        case ExitIpCheckFailed(_) => BadCheckKnows(y, now);
        case SwitchSaved => SwitchStartKnows(y, now);
        case _ => SwitchEndKnows(y, now);
      }
    case Enabled(_, _, _) => QuietKnows(y, l);
    case Expires(_, _) => QuietKnows(y, l);
    case Suspected(_) => QuietKnows(y, l);
    case _ => ReadingKnows(y, l);
  }

  lemma {:induction false} RunKnows(labels: seq<Label>)
    ensures Knows(Run(labels))
  {
    if labels != [] {
      RunKeeps(labels[..|labels| - 1]);
      RunKnows(labels[..|labels| - 1]);
      StepKnows(Run(labels[..|labels| - 1]), labels[|labels| - 1]);
    }
  }

  /**
   * Over every run: the current server is the one connected unless the news of a switch is on its way,
   * and the failed checks, protection, last failure and last check are those of the checks answered
   * since startup or the last switch; after a good check the next comes in a quarter of an hour, and
   * after anything else in a minute.
   */
  lemma TunnelKnowsItsConnection(labels: seq<Label>)
    ensures var y := Run(labels); ConnectionKnown(y) && ChecksKnown(y) && WaitsRightly(y)
  {
    RunKnows(labels);
  }

  /** A switch that was made is taken in: the server it was to becomes the current one, and is checked at once. */
  lemma SwitchTakesEffect(labels: seq<Label>, now: Clock)
    requires SwitchedWaits(Run(labels))
    ensures var y, z := Run(labels), Step(Run(labels), Delivers(0, now));
      && y.started != [] && y.started[|y.started| - 1].life == y.life && z.state.watch.Some?
      && z.state.watch.value.current == Some(y.started[|y.started| - 1].switch.server) == z.arrived
      && z.state.watch.value.protection == Unknown && z.state.watch.value.failures == 0
      && z.env.ops == [Running(CheckExitIp)]
  {
    RunKeeps(labels);
    RunKnows(labels);
    var y := Run(labels);
    hide Run, NextServer, Remembers, OneRead, AllSpaced, KnownIds, SavingKeepsSpacing, StartsWarranted, CheckFailed;
    assert Taken(y.env, 0).ops == [];
  }

  /**
   * Over every run each started switch follows three or more failed checks and goes to the next server
   * after the one connected, which is another configured one.
   */
  lemma SwitchesMoveOn(labels: seq<Label>, i: nat)
    requires i < |Run(labels).started|
    ensures var s := Run(labels).started[i];
      && s.failed >= 3 && Some(s.switch.server) == NextServer(s.servers, s.from)
      && s.switch.server in s.servers && Some(s.switch.server) != s.from
  {
    RunKnows(labels);
  }

  /** A suspicion starts a check exactly when the tunnel waits and its last check began 30 seconds ago or more. */
  lemma SuspicionChecksIff(labels: seq<Label>, now: Clock)
    ensures var y, z := Run(labels), Step(Run(labels), Suspected(now));
      z != y <==>
        && y.state.watch.Some? && y.state.watch.value.check.Waiting?
        && Since(now.monotonic, y.checkedAt) >= 30 * SECOND
  {
    RunKnows(labels);
    hide Run;
  }

  /**
   * After a failed check a switch is saved exactly when three or more checks in a row have failed, the
   * last switch is known and an hour old or absent, and another server is configured; otherwise the
   * tunnel waits to check again.
   */
  lemma FailsOverIff(labels: seq<Label>, now: Clock)
    requires Run(labels).env.ops != [] && Run(labels).env.ops[0].Answered?
    requires Run(labels).env.ops[0].answer.ExitIpCheckFailed?
    ensures var y, z := Run(labels), Step(Run(labels), Delivers(0, now));
      && y.state.watch.Some? && z.state.watch.Some?
      && (z.state.watch.value.failover.Some? <==>
            && Trailing(z.checks) >= 3 && y.state.lastSwitch.Known?
            && (y.state.lastSwitch.last.Some? ==> y.state.lastSwitch.last.value.at + HOUR <= now.wall)
            && exists i :: 0 <= i < |y.state.watch.value.servers| && Some(y.state.watch.value.servers[i]) != y.arrived)
      && (z.state.watch.value.failover == None ==> z.state.watch.value.check.Waiting?)
  {
    RunKeeps(labels);
    RunKnows(labels);
    var y := Run(labels);
    hide Run;
    var w := y.state.watch.value;
    NextServerExists(w.servers, w.current);
    TrailingGrows(y.checks, Bad(y.env.ops[0].answer.reason, now.wall));
    BadCheckParts(y, now);
    hide Step, Inv, NextServer, StartsWarranted, Trailing, WaitsRightly, FailoverWarranted;
  }

  /** What storage held when read is what the tunnel knows of the last switch; a failed read leaves it unknown. */
  lemma ReadIsTaken(labels: seq<Label>, now: Clock)
    requires Run(labels).reading != [] && Run(labels).reading[0].Answered?
    ensures var y, z := Run(labels), Step(Run(labels), DeliversRead(0, now));
      z.state.lastSwitch == match y.reading[0].answer case LastSwitchRead(v) => Known(v) case _ => ReadFailed
  {
    RunKeeps(labels);
    hide Run;
  }
}
