/** VPN tunnel checks and failover, as the core decides them. */
module Tunnel {
  import opened Basics
  import opened Timer

  type Server = string

  const CHECK_INTERVAL: Time := 15 * MINUTE
  const RETRY_AFTER: Time := MINUTE
  const FAILURES_BEFORE_SWITCH: nat := 3
  const SWITCH_SPACING: Time := HOUR
  const SUSPICION_SPACING: Time := 30 * SECOND

  datatype ExitIpFailure = Unreachable | Rejected(status: nat) | Malformed
  datatype VpnSwitch = VpnSwitch(server: Server, at: Time)
  datatype Protection = Unknown | Available(exitIp: string, checkedAt: Time) | Unavailable(since: Time)
  datatype Check = Outstanding | Waiting(timer: nat) | Switching
  datatype LastSwitch = Unread | Reading | Known(last: Option<VpnSwitch>) | ReadFailed
  datatype Failover = Saving(switch: VpnSwitch) | SwitchingTo(server: Server)
  datatype Allowance = Now | After(at: Time) | NotKnown | NoAlternative

  datatype Watch = Watch(
    servers: seq<Server>, current: Option<Server>, protection: Protection, check: Check,
    failures: nat, lastFailure: Option<ExitIpFailure>, failover: Option<Failover>, lastCheck: Time)

  datatype State = State(lastSwitch: LastSwitch, watch: Option<Watch>)

  datatype Event =
    | Enable(servers: seq<Server>, current: Option<Server>)
    | ExitIpObserved(ip: string)
    | ExitIpCheckFailed(reason: ExitIpFailure)
    | LastSwitchRead(stored: Option<VpnSwitch>)
    | LastSwitchReadFailed
    | SwitchSaved
    | SwitchSaveFailed
    | Switched
    | SwitchFailed

  datatype Action =
    | CheckExitIp
    | SaveVpnSwitch(switch: VpnSwitch)
    | SwitchVpnServer(server: Server)
    | ReadLastVpnSwitch
    | StartTimer(id: nat, deadline: Deadline)

  /** A step's outcome; every step asks for at most one thing. */
  datatype Outcome = Outcome(state: State, action: Option<Action>)

  // ---------- The next server ----------

  /** Where the search starts: after the current server, or at the first. */
  function Position(servers: seq<Server>, current: Option<Server>): (p: nat)
    ensures p <= |servers|
    ensures p < |servers| ==> Some(servers[p]) == current
    ensures forall i :: 0 <= i < p ==> Some(servers[i]) != current
  {
    if servers == [] then 0
    else if Some(servers[0]) == current then 0
    else 1 + Position(servers[1..], current)
  }

  function SearchStart(servers: seq<Server>, current: Option<Server>): nat {
    var p := Position(servers, current);
    if p < |servers| then p + 1 else 0
  }

  function Cyclic(servers: seq<Server>, i: nat): Server
    requires servers != []
  {
    servers[i % |servers|]
  }

  /** The first server other than the current one among `left` more, in cyclic order from `i`. */
  function Search(servers: seq<Server>, current: Option<Server>, i: nat, left: nat): (found: Option<Server>)
    ensures found.Some? ==> found.value in servers && found != current
    decreases left
  {
    if left == 0 || servers == [] then None
    else if Some(Cyclic(servers, i)) != current then Some(Cyclic(servers, i))
    else Search(servers, current, i + 1, left - 1)
  }

  function NextServer(servers: seq<Server>, current: Option<Server>): (found: Option<Server>)
    ensures found.Some? ==> found.value in servers && found != current
  {
    Search(servers, current, SearchStart(servers, current), |servers|)
  }

  // ---------- Steps ----------

  function SwitchAllowance(s: State, now: Time): Allowance {
    if s.watch.None? || NextServer(s.watch.value.servers, s.watch.value.current).None? then NoAlternative
    else
      match s.lastSwitch
      case Known(None) => Now
      case Known(Some(last)) => if last.at + SWITCH_SPACING <= now then Now else After(last.at + SWITCH_SPACING)
      case _ => NotKnown
  }

  function CheckNow(s: State, w: Watch, now: Clock): Outcome {
    Outcome(s.(watch := Some(w.(check := Outstanding, lastCheck := now.monotonic))), Some(CheckExitIp))
  }

  function Wait(s: State, w: Watch, now: Clock, id: nat, after: Time): Outcome {
    Outcome(s.(watch := Some(w.(check := Waiting(id)))), Some(StartTimer(id, Deadline(now.monotonic + after, after))))
  }

  function FailOver(s: State, w: Watch, now: Clock, server: Server): Outcome {
    var switch := VpnSwitch(server, now.wall);
    Outcome(s.(watch := Some(w.(check := Switching, failover := Some(Saving(switch))))), Some(SaveVpnSwitch(switch)))
  }

  function CheckFailed(s: State, w: Watch, now: Clock, reason: ExitIpFailure, id: nat): Outcome {
    var failed := w.(
      protection := if w.protection.Unavailable? then w.protection else Unavailable(now.wall),
      failures := w.failures + 1, lastFailure := Some(reason));
    var server := NextServer(w.servers, w.current);
    if failed.failures >= FAILURES_BEFORE_SWITCH && SwitchAllowance(s.(watch := Some(w)), now.wall).Now? && server.Some?
    then FailOver(s, failed, now, server.value)
    else Wait(s, failed, now, id, RETRY_AFTER)
  }

  function HandleWatch(s: State, w: Watch, now: Clock, e: Event, id: nat): Outcome {
    match e
    case ExitIpObserved(ip) =>
      if w.check.Outstanding?
      then Wait(s, w.(protection := Available(ip, now.wall), failures := 0, lastFailure := None), now, id,
          CHECK_INTERVAL)
      else Outcome(s, None)
    case ExitIpCheckFailed(reason) =>
        if w.check.Outstanding? then CheckFailed(s, w, now, reason, id) else Outcome(s, None)
    case SwitchSaved =>
      (match w.failover
       case Some(Saving(switch)) =>
         Outcome(State(Known(Some(switch)), Some(w.(failover := Some(SwitchingTo(switch.server))))),
           Some(SwitchVpnServer(switch.server)))
       case _ => Outcome(s, None))
    case Switched =>
      (match w.failover
       case Some(SwitchingTo(server)) =>
         CheckNow(s,
           w.(current := Some(server), protection := Unknown, failures := 0, lastFailure := None, failover := None),
           now)
       case _ => Outcome(s, None))
    case SwitchSaveFailed =>
        if w.failover.Some? then Wait(s, w.(failover := None), now, id, RETRY_AFTER) else Outcome(s, None)
    case SwitchFailed =>
        if w.failover.Some? then Wait(s, w.(failover := None), now, id, RETRY_AFTER) else Outcome(s, None)
    case _ => Outcome(s, None)
  }

  /** One event; `id` is the identity a new timer takes. */
  function Handle(s: State, now: Clock, e: Event, id: nat): Outcome {
    match e
    case LastSwitchRead(last) => Outcome(if s.lastSwitch.Reading? then s.(lastSwitch := Known(last)) else s, None)
    case LastSwitchReadFailed => Outcome(if s.lastSwitch.Reading? then s.(lastSwitch := ReadFailed) else s, None)
    case Enable(servers, current) =>
      if s.watch.Some? then Outcome(s, None)
      else Outcome(s.(watch := Some(Watch(servers, current, Unknown, Outstanding, 0, None, None, now.monotonic))),
          Some(CheckExitIp))
    case _ => if s.watch.Some? then HandleWatch(s, s.watch.value, now, e, id) else Outcome(s, None)
  }

  function TimerExpired(s: State, now: Clock, id: nat): Outcome {
    if s.watch.Some? && s.watch.value.check == Waiting(id) then CheckNow(s, s.watch.value, now) else Outcome(s, None)
  }

  function Suspect(s: State, now: Clock): Outcome {
    if s.watch.Some? && s.watch.value.check.Waiting?
      && Since(now.monotonic, s.watch.value.lastCheck) >= SUSPICION_SPACING
    then CheckNow(s, s.watch.value, now)
    else Outcome(s, None)
  }

  function StartReading(s: State): Outcome {
    Outcome(s.(lastSwitch := Reading), Some(ReadLastVpnSwitch))
  }

  /** A failover is there exactly while the check waits for it. */
  predicate Coherent(s: State) {
    s.watch.Some? ==> (s.watch.value.failover.Some? <==> s.watch.value.check.Switching?)
  }

  /** A switch is only saved an hour or more after the last known one, and to another server. */
  predicate KeepsTheHour(s: State, action: Option<Action>) {
    action.Some? && action.value.SaveVpnSwitch? ==>
      && s.watch.Some? && s.lastSwitch.Known? && Some(action.value.switch.server) != s.watch.value.current
      && (s.lastSwitch.last.Some? ==> s.lastSwitch.last.value.at + SWITCH_SPACING <= action.value.switch.at)
  }

  lemma HandleKeeps(s: State, now: Clock, e: Event, id: nat)
    requires Coherent(s)
    ensures Coherent(Handle(s, now, e, id).state) && KeepsTheHour(s, Handle(s, now, e, id).action)
  {
    hide NextServer;
  }

  /** The allowance says why a switch may not start: no other server, no knowledge of the last, or until when. */
  lemma AllowanceIs(s: State, now: Time)
    ensures var another := s.watch.Some? && exists i ::
        0 <= i < |s.watch.value.servers| && Some(s.watch.value.servers[i]) != s.watch.value.current;
      match SwitchAllowance(s, now)
      case NoAlternative => !another
      case NotKnown => another && !s.lastSwitch.Known?
      case Now =>
        another && s.lastSwitch.Known? && (s.lastSwitch.last.Some? ==> s.lastSwitch.last.value.at + HOUR <= now)
      case After(time) =>
        another && s.lastSwitch.Known? && s.lastSwitch.last.Some? && now < time == s.lastSwitch.last.value.at + HOUR
  {
    if s.watch.Some? { NextServerExists(s.watch.value.servers, s.watch.value.current); }
    hide NextServer;
  }

  /** Every timer started stands for the wait it is given. */
  lemma TimersStandForTheirWait(s: State, now: Clock, e: Event, id: nat)
    ensures var a := Handle(s, now, e, id).action;
      a.Some? && a.value.StartTimer? ==>
        && a.value.id == id && a.value.deadline.at == now.monotonic + a.value.deadline.after
        && a.value.deadline.after in {MINUTE, 15 * MINUTE}
  {
    hide NextServer, SwitchAllowance;
  }

  // ---------- What the search finds ----------

  /** The search finds the first server that differs, and nothing only if none does. */
  lemma {:induction false} SearchFinds(servers: seq<Server>, current: Option<Server>, i: nat, left: nat, m: nat)
    requires servers != [] && i <= m < i + left && Some(Cyclic(servers, m)) != current
    requires forall j :: i <= j < m ==> Some(Cyclic(servers, j)) == current
    ensures Search(servers, current, i, left) == Some(Cyclic(servers, m))
    decreases left
  {
    if i < m { SearchFinds(servers, current, i + 1, left - 1, m); }
  }

  lemma {:induction false} SearchMisses(servers: seq<Server>, current: Option<Server>, i: nat, left: nat, m: nat)
    requires servers != [] && Search(servers, current, i, left) == None && i <= m < i + left
    ensures Some(Cyclic(servers, m)) == current
    decreases left
  {
    if i < m { SearchMisses(servers, current, i + 1, left - 1, m); }
  }

  /** Every index comes up within one turn of the cycle. */
  lemma WithinOneTurn(n: nat, start: nat, i: nat) returns (k: nat)
    requires i < n && start <= n
    ensures k < n && (start + k) % n == i
  {
    if start <= i {
      k := i - start;
      assert start + k == i;
    } else {
      k := n - start + i;
      assert start + k == i + n * 1;
      assert (i + n) % n == i by { ModPlus(i, n); }
    }
  }

  lemma ModPlus(i: nat, n: nat)
    requires i < n
    ensures (i + n) % n == i
  {
    assert i + n == 1 * n + i;
  }

  /** There is no next server exactly when no configured server differs from the current one. */
  lemma NextServerExists(servers: seq<Server>, current: Option<Server>)
    ensures NextServer(servers, current).None? <==> forall i :: 0 <= i < |servers| ==> Some(servers[i]) == current
  {
    if NextServer(servers, current).None? {
      var start := SearchStart(servers, current);
      forall i | 0 <= i < |servers| ensures Some(servers[i]) == current {
        var k := WithinOneTurn(|servers|, start, i);
        SearchMisses(servers, current, start, |servers|, start + k);
      }
    }
  }

  lemma CyclicNext(servers: seq<Server>, i: nat)
    requires i < |servers|
    ensures Cyclic(servers, i + 1) == servers[if i + 1 < |servers| then i + 1 else 0]
  {
    if i + 1 == |servers| { ModPlus(0, |servers|); }
  }

  /**
   * Failover takes distinct servers in turn: from the one at `i` to the one after it, and from the last
   * to the first.
   */
  lemma NextServerFollows(servers: seq<Server>, i: nat)
    requires i < |servers| && |servers| >= 2
    requires forall a, b :: 0 <= a < b < |servers| ==> servers[a] != servers[b]
    ensures NextServer(servers, Some(servers[i])) == Some(servers[if i + 1 < |servers| then i + 1 else 0])
  {
    var current := Some(servers[i]);
    assert Position(servers, current) == i;
    CyclicNext(servers, i);
    hide Cyclic;
    SearchFinds(servers, current, i + 1, |servers|, i + 1);
  }
}
