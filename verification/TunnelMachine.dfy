/** The tunnel component: tunnel checks and failover, changed in place. */
module TunnelMachine {
  import opened Basics
  import opened Timer
  import opened Tunnel

  class TunnelChecks {
    var lastSwitch: LastSwitch
    var watch: Option<Watch>

    ghost function Now(): State
      reads this
    {
      State(lastSwitch, watch)
    }

    constructor ()
      ensures Now() == State(Unread, None)
    {
      lastSwitch, watch := Unread, None;
    }

    method BeginReading() returns (action: Action)
      modifies this`lastSwitch
      ensures Outcome(Now(), Some(action)) == StartReading(old(Now()))
    {
      lastSwitch := Reading;
      action := ReadLastVpnSwitch;
    }

    /** When the next automatic switch may start: an hour after the last, and never while that is unknown. */
    method MaySwitch(now: Time) returns (allowance: Allowance)
      ensures allowance == SwitchAllowance(Now(), now)
      ensures allowance.Now? <==>
        && watch.Some? && (exists s :: s in watch.value.servers && Some(s) != watch.value.current)
        && lastSwitch.Known? && (lastSwitch.last.Some? ==> lastSwitch.last.value.at + HOUR <= now)
    {
      if watch.Some? {
        NextServerExists(watch.value.servers, watch.value.current);
        assert forall i :: 0 <= i < |watch.value.servers| ==> watch.value.servers[i] in watch.value.servers;
        hide NextServer;
        allowance := SwitchAllowance(State(lastSwitch, watch), now);
      } else {
        allowance := NoAlternative;
      }
    }

    method CheckAgain(now: Clock) returns (action: Action)
      requires watch.Some?
      modifies this`watch
      ensures Outcome(Now(), Some(action)) == CheckNow(old(Now()), old(watch).value, now)
    {
      watch := Some(watch.value.(check := Outstanding, lastCheck := now.monotonic));
      action := CheckExitIp;
    }

    method WaitFor(now: Clock, timers: Timers, after: Time) returns (action: Action)
      requires watch.Some?
      modifies this`watch, timers
      ensures Outcome(Now(), Some(action)) == Wait(old(Now()), old(watch).value, now, old(timers.next), after)
      ensures timers.next == old(timers.next) + 1
    {
      var id, deadline := timers.Schedule(now.monotonic, after);
      watch := Some(watch.value.(check := Waiting(id)));
      action := StartTimer(id, deadline);
    }

    method BeginFailover(now: Clock, server: Server) returns (action: Action)
      requires watch.Some?
      modifies this`watch
      ensures Outcome(Now(), Some(action)) == FailOver(old(Now()), old(watch).value, now, server)
    {
      var switch := VpnSwitch(server, now.wall);
      watch := Some(watch.value.(check := Switching, failover := Some(Saving(switch))));
      action := SaveVpnSwitch(switch);
    }

    method HandleEvent(now: Clock, e: Event, timers: Timers) returns (action: Option<Action>)
      modifies this, timers
      ensures Outcome(Now(), action) == Handle(old(Now()), now, e, old(timers.next))
      ensures timers.next == old(timers.next) + if action.Some? && action.value.StartTimer? then 1 else 0
      ensures Coherent(old(Now())) ==> Coherent(Now()) && KeepsTheHour(old(Now()), action)
    {
      if Coherent(Now()) { HandleKeeps(Now(), now, e, timers.next); }
      hide Coherent, KeepsTheHour;
      action := None;
      match e {
        case LastSwitchRead(last) =>
          if lastSwitch == Reading { lastSwitch := Known(last); }
        case LastSwitchReadFailed =>
          if lastSwitch == Reading { lastSwitch := ReadFailed; }
        case Enable(servers, current) =>
          if watch.None? {
            watch := Some(Watch(servers, current, Unknown, Outstanding, 0, None, None, now.monotonic));
            action := Some(CheckExitIp);
          }
        case _ =>
          if watch.Some? { action := HandleEnabled(now, e, timers); }
      }
    }

    method HandleEnabled(now: Clock, e: Event, timers: Timers) returns (action: Option<Action>)
      requires watch.Some?
      modifies this, timers
      ensures Outcome(Now(), action) == HandleWatch(old(Now()), old(watch).value, now, e, old(timers.next))
      ensures timers.next == old(timers.next) + if action.Some? && action.value.StartTimer? then 1 else 0
    {
      action := None;
      var w := watch.value;
      match e {
        case ExitIpObserved(ip) =>
          if w.check == Outstanding {
            watch := Some(w.(protection := Available(ip, now.wall), failures := 0, lastFailure := None));
            var a := WaitFor(now, timers, CHECK_INTERVAL);
            action := Some(a);
          }
        case ExitIpCheckFailed(reason) =>
          if w.check == Outstanding {
            var allowance := MaySwitch(now.wall);
            var server := NextServer(w.servers, w.current);
            hide NextServer;
            watch := Some(w.(
              protection := if w.protection.Unavailable? then w.protection else Unavailable(now.wall),
              failures := w.failures + 1, lastFailure := Some(reason)));
            var a: Action;
            if w.failures + 1 >= FAILURES_BEFORE_SWITCH && allowance == Allowance.Now && server.Some? {
              a := BeginFailover(now, server.value);
            } else {
              a := WaitFor(now, timers, RETRY_AFTER);
            }
            action := Some(a);
          }
        case SwitchSaved =>
          if w.failover.Some? && w.failover.value.Saving? {
            var switch := w.failover.value.switch;
            lastSwitch := Known(Some(switch));
            watch := Some(w.(failover := Some(SwitchingTo(switch.server))));
            action := Some(SwitchVpnServer(switch.server));
          }
        case Switched =>
          if w.failover.Some? && w.failover.value.SwitchingTo? {
            watch := Some(w.(current := Some(w.failover.value.server), protection := Unknown, failures := 0,
                             lastFailure := None, failover := None));
            var a := CheckAgain(now);
            action := Some(a);
          }
        case SwitchSaveFailed => action := AbandonFailover(now, timers);
        case SwitchFailed => action := AbandonFailover(now, timers);
        case _ =>
      }
    }

    /** Either failure ends the failover and waits for the next check. */
    method AbandonFailover(now: Clock, timers: Timers) returns (action: Option<Action>)
      requires watch.Some?
      modifies this`watch, timers
      ensures Outcome(Now(), action) == HandleWatch(old(Now()), old(watch).value, now, SwitchFailed, old(timers.next))
      ensures Outcome(Now(), action) ==
        HandleWatch(old(Now()), old(watch).value, now, SwitchSaveFailed, old(timers.next))
      ensures timers.next == old(timers.next) + if action.Some? then 1 else 0
      ensures action.Some? ==> action.value.StartTimer?
    {
      action := None;
      if watch.value.failover.Some? {
        watch := Some(watch.value.(failover := None));
        var a := WaitFor(now, timers, RETRY_AFTER);
        action := Some(a);
      }
    }

    method TimerRang(now: Clock, id: nat) returns (action: Option<Action>)
      modifies this`watch
      ensures Outcome(Now(), action) == TimerExpired(old(Now()), now, id)
      ensures Coherent(old(Now())) ==> Coherent(Now())
    {
      action := None;
      if watch.Some? && watch.value.check == Waiting(id) {
        var a := CheckAgain(now);
        action := Some(a);
      }
    }

    method SuspectFailure(now: Clock) returns (action: Option<Action>)
      modifies this`watch
      ensures Outcome(Now(), action) == Suspect(old(Now()), now)
      ensures Coherent(old(Now())) ==> Coherent(Now())
    {
      action := None;
      if watch.Some? && watch.value.check.Waiting? && Since(now.monotonic, watch.value.lastCheck) >= SUSPICION_SPACING {
        var a := CheckAgain(now);
        action := Some(a);
      }
    }
  }
}
