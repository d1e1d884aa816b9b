/** The forwarded-port lease: requested, renewed and forgotten, with one request or timer at a time. */
module PortLease {
  import opened Basics
  import opened Timer
  import opened Wake

  const LEASE_LIFETIME: Time := MINUTE
  const RETRY_AFTER: Time := 5 * SECOND

  datatype MappingFailure = NoResponse | Refused(code: nat) | Malformed
  datatype Lease = Lease(tcp: nat, udp: nat, renewedAt: Time, expires: Time)
  datatype Request = Outstanding | Waiting(timer: nat)

  datatype State =
    | Disabled
    | Enabled(lease: Option<Lease>, request: Request, failures: nat, lastFailure: Option<MappingFailure>)

  datatype Event =
    | Enable
    | Mapped(tcp: nat, udp: nat, lifetime: nat)
    | MappingFailed(reason: MappingFailure)

  datatype Action = RequestPortMapping(lifetime: Time) | StartTimer(id: nat, deadline: Deadline)
  datatype Outcome = Outcome(state: State, action: Option<Action>)

  function ForwardedPort(s: State): Option<nat> {
    if s.Enabled? && s.lease.Some? then Some(s.lease.value.tcp) else None
  }

  /** One event; `id` is the identity a new timer takes. A lease of no lifetime is a malformed answer. */
  function Handle(s: State, now: Clock, e: Event, id: nat): Outcome {
    match e
    case Enable =>
      if s.Disabled?
        then Outcome(Enabled(None, Outstanding, 0, None), Some(RequestPortMapping(LEASE_LIFETIME)))
        else Outcome(s, None)
    case Mapped(tcp, udp, lifetime) =>
      if !(s.Enabled? && s.request.Outstanding?) then Outcome(s, None)
      else if lifetime == 0 then Failed(s, now, Malformed, id)
      else
        Outcome(Enabled(Some(Lease(tcp, udp, now.wall, now.monotonic + lifetime)), Waiting(id), 0, None),
                Some(StartTimer(id, Deadline(now.monotonic + lifetime * 3 / 4, lifetime * 3 / 4))))
    case MappingFailed(reason) =>
      if !(s.Enabled? && s.request.Outstanding?) then Outcome(s, None) else Failed(s, now, reason, id)
  }

  function Failed(s: State, now: Clock, reason: MappingFailure, id: nat): Outcome
    requires s.Enabled?
  {
    Outcome(Enabled(s.lease, Waiting(id), s.failures + 1, Some(reason)),
            Some(StartTimer(id, Deadline(now.monotonic + RETRY_AFTER, RETRY_AFTER))))
  }

  function TimerExpired(s: State, id: nat): Outcome {
    if s.Enabled? && s.request == Waiting(id)
    then Outcome(s.(request := Outstanding), Some(RequestPortMapping(LEASE_LIFETIME)))
    else Outcome(s, None)
  }

  /** The gateway changed: forget the lease and ask again, unless a request is already on its way. */
  function Renew(s: State): Outcome {
    if s.Disabled? then Outcome(s, None)
    else if s.request.Waiting?
    then Outcome(s.(lease := None, request := Outstanding), Some(RequestPortMapping(LEASE_LIFETIME)))
    else Outcome(s.(lease := None), None)
  }

  function Expire(s: State, now: Time): State {
    if s.Enabled? && s.lease.Some? && s.lease.value.expires <= now then s.(lease := None) else s
  }

  // ---------- The component ----------

  class PortForwarding {
    var enabled: bool
    var lease: Option<Lease>
    var request: Request
    var failures: nat
    var lastFailure: Option<MappingFailure>

    ghost function Now(): State
      reads this
    {
      if enabled then Enabled(lease, request, failures, lastFailure) else Disabled
    }

    constructor ()
      ensures Now() == Disabled
    {
      enabled, lease, request, failures, lastFailure := false, None, Outstanding, 0, None;
    }

    method HandleEvent(now: Clock, e: Event, timers: Timers) returns (action: Option<Action>)
      modifies this, timers
      ensures Outcome(Now(), action) == Handle(old(Now()), now, e, old(timers.next))
      ensures timers.next == old(timers.next) + if action.Some? && action.value.StartTimer? then 1 else 0
    {
      action := None;
      if !enabled && e.Enable? {
        enabled, lease, request, failures, lastFailure := true, None, Outstanding, 0, None;
        action := Some(RequestPortMapping(LEASE_LIFETIME));
      } else if enabled && request == Outstanding && e.Mapped? && e.lifetime != 0 {
        lease := Some(Lease(e.tcp, e.udp, now.wall, now.monotonic + e.lifetime));
        failures, lastFailure := 0, None;
        var id, deadline := timers.Schedule(now.monotonic, e.lifetime * 3 / 4);
        request := Waiting(id);
        action := Some(StartTimer(id, deadline));
      } else if enabled && request == Outstanding && (e.Mapped? || e.MappingFailed?) {
        failures := failures + 1;
        lastFailure := Some(if e.MappingFailed? then e.reason else Malformed);
        var id, deadline := timers.Schedule(now.monotonic, RETRY_AFTER);
        request := Waiting(id);
        action := Some(StartTimer(id, deadline));
      }
    }

    method TimerRang(id: nat) returns (action: Option<Action>)
      modifies this`request
      ensures Outcome(Now(), action) == TimerExpired(old(Now()), id)
    {
      action := None;
      if enabled && request == Waiting(id) {
        request := Outstanding;
        action := Some(RequestPortMapping(LEASE_LIFETIME));
      }
    }

    method RenewNow() returns (action: Option<Action>)
      modifies this`lease, this`request
      ensures Outcome(Now(), action) == Renew(old(Now()))
    {
      action := None;
      if enabled {
        lease := None;
        if request.Waiting? {
          request := Outstanding;
          action := Some(RequestPortMapping(LEASE_LIFETIME));
        }
      }
    }

    method ForgetExpired(now: Time)
      modifies this`lease
      ensures Now() == Expire(old(Now()), now)
    {
      if enabled && lease.Some? && lease.value.expires <= now {
        lease := None;
      }
    }
  }

  /** Every timer started stands for the wait it is given. */
  lemma TimersStandForTheirWait(s: State, now: Clock, e: Event, id: nat)
    ensures var a := Handle(s, now, e, id).action;
      a.Some? && a.value.StartTimer? ==>
        a.value.id == id && a.value.deadline.at == now.monotonic + a.value.deadline.after
  {
  }

  // ---------- Runs ----------

  /** What came of a request, and when. */
  datatype Result = Granted(tcp: nat, udp: nat, lifetime: nat, at: Clock) | Denied(reason: MappingFailure, at: Clock)

  /**
   * `results` is what came of each request, oldest first; `grant` the latest granted, until it ends or
   * a renewal is asked for; `ring` is when the live timer rings, and `now` the monotonic time of the
   * latest step.
   */
  datatype System = System(
    state: State, env: Env<Action, Event>, results: seq<Result>, grant: Option<Result>, ring: Time, now: Time)

  /** How many requests in a row were denied, up to the last. */
  function DeniedSince(results: seq<Result>): (n: nat)
    ensures n <= |results| && (forall i :: |results| - n <= i < |results| ==> results[i].Denied?)
    ensures n < |results| ==> results[|results| - n - 1].Granted?
  {
    if results == [] || results[|results| - 1].Granted? then 0 else 1 + DeniedSince(results[..|results| - 1])
  }

  datatype Label =
    | Enables(now: Clock)
    | Finishes(op: nat, answer: Event)
    | Delivers(op: nat, now: Clock)
    | TimerRings
    | Expires(id: nat, now: Clock)
    | Renews(now: Clock)
    | Elsewhere(now: Clock, ids: nat)

  /** A grant lasts its lifetime. */
  function Lasting(grant: Option<Result>, now: Time): Option<Result> {
    if grant.Some? && grant.value.Granted? && now < grant.value.at.monotonic + grant.value.lifetime then grant else None
  }

  /** The shell runs the request or starts the timer; every step then forgets an expired lease. */
  function Act(y: System, o: Outcome, now: Clock): System {
    var z := y.(state := Expire(o.state, now.monotonic), now := now.monotonic,
      grant := Lasting(y.grant, now.monotonic));
    match o.action
    case None => z
    case Some(StartTimer(_, deadline)) => z.(env := Arm(y.env), ring := deadline.at)
    case Some(op) => z.(env := Launch(y.env, op))
  }

  /** The gateway's answer is noted; an answer without a lifetime grants nothing. */
  function Noted(y: System, now: Clock, e: Event): System {
    match e
    case Mapped(tcp, udp, lifetime) =>
      if lifetime == 0 then y.(results := y.results + [Denied(Malformed, now)])
      else
        var granted := Granted(tcp, udp, lifetime, now);
        y.(results := y.results + [granted], grant := Some(granted))
    case MappingFailed(reason) => y.(results := y.results + [Denied(reason, now)])
    case Enable => y
  }

  function Step(y: System, l: Label): System {
    match l
    case Enables(now) => Act(y, Handle(y.state, now, Enable, y.env.next), now)
    case Finishes(i, answer) =>
      if i < |y.env.ops| && y.env.ops[i].Running? && !answer.Enable? then y.(env := Finish(y.env, i, answer)) else y
    case Delivers(i, now) =>
      if i < |y.env.ops| && y.env.ops[i].Answered?
      then
        var e := y.env.ops[i].answer;
        Act(Noted(y.(env := Taken(y.env, i)), now, e), Handle(y.state, now, e, y.env.next), now)
      else y
    case TimerRings => y.(env := Ring(y.env))
    case Expires(id, now) =>
      if id in y.env.rung then Act(y.(env := Heard(y.env, id)), TimerExpired(y.state, id), now) else y
    case Renews(now) => Act(y.(grant := None), Renew(y.state), now)
    case Elsewhere(now, ids) => Act(y.(env := Spend(y.env, ids)), Outcome(y.state, None), now)
  }

  const START: System := System(Disabled, Idle(), [], None, 0, 0)

  function Run(labels: seq<Label>): System {
    if labels == [] then START else Step(Run(labels[..|labels| - 1]), labels[|labels| - 1])
  }

  /** Exactly one thing will wake an enabled lease: its request, that request's answer, or its current timer. */
  ghost predicate OneInFlight(y: System) {
    match y.state
    case Disabled => y.env.ops == []
    case Enabled(_, Outstanding, _, _) =>
      |y.env.ops| == 1
        && (if y.env.ops[0].Running? then y.env.ops[0].op == RequestPortMapping(MINUTE)
            else !y.env.ops[0].answer.Enable?)
    case Enabled(_, Waiting(id), _, _) => y.env.ops == [] && Rings(y.env, id)
  }

  /** The lease is the gateway's latest grant, while that lasts and no renewal was asked for; else there is none. */
  ghost predicate LeaseIsGrant(y: System) {
    && (y.grant.Some? ==>
          && y.grant.value.Granted? && y.grant.value.lifetime > 0
          && y.now < y.grant.value.at.monotonic + y.grant.value.lifetime)
    && (y.state.Disabled? ==> y.grant.None? && y.results == [])
    && (y.state.Enabled? ==>
          y.state.lease ==
            match y.grant
            case Some(Granted(tcp, udp, lifetime, at)) => Some(Lease(tcp, udp, at.wall, at.monotonic + lifetime))
            case _ => None)
  }

  /** Its failures are the requests denied since one was granted, and the last of them is the last denial. */
  ghost predicate FailuresAreDenials(y: System) {
    y.state.Enabled? ==>
      && y.state.failures == DeniedSince(y.results)
      && y.state.lastFailure ==
           if DeniedSince(y.results) == 0 then None else Some(y.results[|y.results| - 1].reason)
  }

  /** While waiting it asks again three quarters into a lease, or five seconds after a denial. */
  ghost predicate WaitsRightly(y: System) {
    y.state.Enabled? && y.state.request.Waiting? ==>
      && y.results != []
      && y.ring == match y.results[|y.results| - 1]
           case Granted(_, _, lifetime, at) => at.monotonic + lifetime * 3 / 4
           case Denied(_, at) => at.monotonic + 5 * SECOND
  }

  /** The grant that stands is the last one there was. */
  ghost predicate GrantIsLatest(y: System) {
    y.grant.Some? ==>
      DeniedSince(y.results) < |y.results| && y.grant.value == y.results[|y.results| - DeniedSince(y.results) - 1]
  }

  /** While a lease stands and nothing failed since, it is renewed before it ends. */
  ghost predicate RenewedInTime(y: System) {
    y.state.Enabled? && y.state.lease.Some? && y.state.request.Waiting? && y.state.failures == 0 ==>
      y.ring < y.state.lease.value.expires
  }

  ghost predicate Inv(y: System) {
    KnownIds(y.env) && OneInFlight(y) && LeaseIsGrant(y) && FailuresAreDenials(y) && WaitsRightly(y)
      && GrantIsLatest(y)
  }

  lemma DeniedGrows(results: seq<Result>, last: Result)
    ensures DeniedSince(results + [last]) == if last.Granted? then 0 else DeniedSince(results) + 1
    ensures (results + [last])[|results|] == last
  {
    assert (results + [last])[..|results|] == results;
  }

  /** What delivering an answer comes to: a lease and its renewal, or a denial and a retry. */
  lemma DeliverParts(y: System, now: Clock)
    requires OneInFlight(y) && |y.env.ops| == 1 && y.env.ops[0].Answered?
    ensures y.state.Enabled? && !y.env.ops[0].answer.Enable?
    ensures var z, e, s := Step(y, Delivers(0, now)), y.env.ops[0].answer, y.state;
      var granted := e.Mapped? && e.lifetime > 0;
      && z.env == Arm(y.env).(ops := []) && z.now == now.monotonic
      && (granted ==>
            && z.results == y.results + [Granted(e.tcp, e.udp, e.lifetime, now)]
            && z.grant == Some(Granted(e.tcp, e.udp, e.lifetime, now))
            && z.ring == now.monotonic + e.lifetime * 3 / 4
            && z.state == Enabled(Some(Lease(e.tcp, e.udp, now.wall, now.monotonic + e.lifetime)), Waiting(y.env.next),
                 0, None))
      && (!granted ==>
            var reason := if e.Mapped? then Malformed else e.reason;
            && z.results == y.results + [Denied(reason, now)]
            && z.grant == Lasting(y.grant, now.monotonic) && z.ring == now.monotonic + 5 * SECOND
            && z.state == Expire(Enabled(s.lease, Waiting(y.env.next), s.failures + 1, Some(reason)), now.monotonic))
  {
    assert Taken(y.env, 0).ops == [];
  }

  /** A system whose latest request was just granted. */
  lemma GrantedKeeps(y: System, z: System, granted: Result)
    requires y.state.Enabled? && granted.Granted? && granted.lifetime > 0 && z.results == y.results + [granted]
    requires z.grant == Some(granted) && z.now == granted.at.monotonic
    requires z.ring == z.now + granted.lifetime * 3 / 4
    requires z.state ==
      Enabled(Some(Lease(granted.tcp, granted.udp, granted.at.wall, z.now + granted.lifetime)), Waiting(y.env.next),
              0, None)
    ensures LeaseIsGrant(z) && FailuresAreDenials(z) && WaitsRightly(z) && GrantIsLatest(z)
  {
    DeniedGrows(y.results, granted);
    hide DeniedSince;
  }

  /** A system whose latest request was just denied. */
  lemma DeniedKeeps(y: System, z: System, denied: Result)
    requires LeaseIsGrant(y) && FailuresAreDenials(y) && GrantIsLatest(y)
    requires y.state.Enabled? && denied.Denied? && z.results == y.results + [denied]
    requires z.now == denied.at.monotonic && z.ring == z.now + 5 * SECOND && z.grant == Lasting(y.grant, z.now)
    requires z.state ==
      Expire(Enabled(y.state.lease, Waiting(y.env.next), y.state.failures + 1, Some(denied.reason)), z.now)
    ensures LeaseIsGrant(z) && FailuresAreDenials(z) && WaitsRightly(z) && GrantIsLatest(z)
  {
    DeniedGrows(y.results, denied);
    hide DeniedSince;
  }

  lemma DeliverKeeps(y: System, now: Clock)
    requires Inv(y) && |y.env.ops| == 1 && y.env.ops[0].Answered?
    ensures Inv(Step(y, Delivers(0, now)))
  {
    DeliverParts(y, now);
    var z := Step(y, Delivers(0, now));
    hide Step;
    var e := y.env.ops[0].answer;
    if e.Mapped? && e.lifetime > 0 {
      GrantedKeeps(y, z, Granted(e.tcp, e.udp, e.lifetime, now));
    } else {
      DeniedKeeps(y, z, Denied(if e.Mapped? then Malformed else e.reason, now));
    }
    hide LeaseIsGrant, FailuresAreDenials, WaitsRightly, GrantIsLatest;
  }

  lemma QuietIsWoken(y: System, l: Label)
    requires KnownIds(y.env) && OneInFlight(y) && !l.Delivers?
    ensures var z := Step(y, l); z.results == y.results && KnownIds(z.env) && OneInFlight(z)
  {
    hide DeniedSince;
  }

  lemma QuietKeepsLease(y: System, l: Label)
    requires LeaseIsGrant(y) && FailuresAreDenials(y) && GrantIsLatest(y) && !l.Delivers?
    ensures var z := Step(y, l); LeaseIsGrant(z) && FailuresAreDenials(z) && GrantIsLatest(z)
  {
    hide DeniedSince;
    var z := Step(y, l);
    assert LeaseIsGrant(z) by {
      hide FailuresAreDenials, GrantIsLatest;
    }
    hide LeaseIsGrant;
  }

  /** Any other step brings no answer, so it changes the lease only by asking anew or by its end. */
  lemma QuietKeeps(y: System, l: Label)
    requires Inv(y) && !l.Delivers?
    ensures Inv(Step(y, l))
  {
    QuietIsWoken(y, l);
    QuietKeepsLease(y, l);
    hide KnownIds, OneInFlight, LeaseIsGrant, FailuresAreDenials, GrantIsLatest, DeniedSince;
  }

  lemma StepKeeps(y: System, l: Label)
    requires Inv(y)
    ensures Inv(Step(y, l))
  {
    if !l.Delivers? {
      QuietKeeps(y, l);
    } else if l.op < |y.env.ops| && y.env.ops[l.op].Answered? {
      assert l.op == 0 && |y.env.ops| == 1;
      DeliverKeeps(y, l.now);
      hide Inv;
    }
  }

  lemma {:induction false} RunKeeps(labels: seq<Label>)
    ensures Inv(Run(labels))
  {
    if labels != [] {
      RunKeeps(labels[..|labels| - 1]);
      StepKeeps(Run(labels[..|labels| - 1]), labels[|labels| - 1]);
    }
  }

  /**
   * In every reachable state exactly one thing wakes an enabled lease; the lease is what the gateway
   * granted last, for as long as that lasts and no renewal is asked for; failures are counted since
   * the last grant; and the next request comes three quarters into a lease, and so in time, or five
   * seconds after a denial.
   */
  lemma LeaseIsSound(labels: seq<Label>)
    ensures var y := Run(labels);
      && OneInFlight(y) && LeaseIsGrant(y) && GrantIsLatest(y) && FailuresAreDenials(y) && WaitsRightly(y)
      && RenewedInTime(y)
  {
    RunKeeps(labels);
    hide Run;
  }

  /** A port is forwarded exactly while a grant stands, and it is the granted one. */
  lemma ForwardedIffGranted(labels: seq<Label>)
    ensures var y := Run(labels);
      && (ForwardedPort(y.state).Some? <==> y.grant.Some?)
      && (y.grant.Some? ==> y.grant.value.Granted? && ForwardedPort(y.state) == Some(y.grant.value.tcp))
  {
    RunKeeps(labels);
  }

  /** Enabling asks for a port at once; a renewal forgets the lease and has a request on its way. */
  lemma AsksAtOnce(labels: seq<Label>, now: Clock)
    ensures var y, z := Run(labels), Step(Run(labels), Enables(now));
      z.state.Enabled? && (y.state.Disabled? ==> z.env.ops == [Running(RequestPortMapping(MINUTE))])
    ensures var y, z := Run(labels), Step(Run(labels), Renews(now));
      y.state.Enabled? ==>
        && z.state.Enabled? && z.state.lease.None? && z.state.request.Outstanding?
        && z.env.ops == if y.env.ops == [] then [Running(RequestPortMapping(MINUTE))] else y.env.ops
  {
    RunKeeps(labels);
    hide Run;
  }

  /** The timer whose expiry asks for the next lease. */
  predicate Current(y: System, id: nat) {
    y.state.Enabled? && y.state.request == Waiting(id)
  }

  lemma StepKeepsObsolete(y: System, l: Label, id: nat, bound: nat)
    requires id < bound <= y.env.next && !Current(y, id)
    ensures bound <= Step(y, l).env.next && !Current(Step(y, l), id)
  {
  }

  lemma {:induction false} RunKeepsObsolete(labels: seq<Label>, more: seq<Label>, id: nat)
    requires id < Run(labels).env.next && !Current(Run(labels), id)
    ensures Run(labels).env.next <= Run(labels + more).env.next && !Current(Run(labels + more), id)
  {
    hide Step, Current;
    if more == [] {
      assert labels + more == labels;
    } else {
      var init, last := more[..|more| - 1], more[|more| - 1];
      RunKeepsObsolete(labels, init, id);
      assert (labels + more)[..|labels + more| - 1] == labels + init;
      StepKeepsObsolete(Run(labels + init), last, id, Run(labels).env.next);
    }
  }

  /**
   * A queued expiry of any timer but the current one stays obsolete: whatever happens before it is
   * heard, hearing it is a step in which only time passed.
   */
  lemma ObsoleteExpiryChangesNothing(labels: seq<Label>, more: seq<Label>, id: nat, now: Clock)
    requires id in Run(labels).env.rung && !Current(Run(labels), id)
    ensures var z := Run(labels + more);
      !Current(z, id)
        && (id in z.env.rung ==> Step(z, Expires(id, now)) == Step(z.(env := Heard(z.env, id)), Elsewhere(now, 0)))
  {
    RunKeeps(labels);
    assert KnownIds(Run(labels).env);
    hide Inv;
    RunKeepsObsolete(labels, more, id);
    hide Run;
  }
}
