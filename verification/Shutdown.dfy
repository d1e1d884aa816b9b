/**
 * The event ingress and the runner's drain: concurrent producers with queue permits, a closing
 * flag, shell workers, timers, and a runner that stops once everything accepted is handled.
 */
module Shutdown {
  const QUEUE_CAPACITY: nat := 64

  /**
   * A queued input; a worker may fail outright instead of answering. Timers and gap reports enter the
   * queue without asking whether it is closing.
   */
  datatype Input = Event(id: nat) | Unasked | Completed(worker: nat, ok: bool) | Stop

  /**
   * Where the runner is in its loop; reading the flag, the count and the queue are separate moments. A
   * failed worker breaks it off.
   */
  datatype Place = Top | SawClosing | SawEmpty | Receiving | Handling | Stopped | Broken

  /**
   * `senders` hold a permit and an event; `asking` and `asked` count shutdown callers that hold a
   * permit before and after they set the flag. `accepted`, `handled` and `received` are the
   * history: events acknowledged, events handled, workers dispatched, and workers whose result was received;
   * `acceptedBefore` is how many events were accepted when closing was set.
   */
  datatype System = System(
    queue: seq<Input>, closing: bool, senders: map<nat, nat>, asking: nat, asked: nat,
    workers: set<nat>, active: nat, place: Place,
    accepted: seq<nat>, handled: seq<nat>, dispatched: set<nat>, received: set<nat>, acceptedBefore: nat)

  datatype Label =
    | Reserve(producer: nat, event: nat)
    | SendChecked(p: nat)
    | ReserveShutdown
    | SetClosing
    | SendShutdown
    | EnterUnasked
    | FinishWork(worker: nat, ok: bool)
    | ReadFlag
    | ReadEmpty
    | CloseQueue
    | Receive
    | Dispatch(w: nat)
    | EndHandling

  predicate Room(y: System) {
    |y.queue| + |y.senders| + y.asking + y.asked < QUEUE_CAPACITY && !y.place.Stopped? && !y.place.Broken?
  }

  function Closing(y: System): System {
    y.(closing := true, acceptedBefore := if y.closing then y.acceptedBefore else |y.accepted|)
  }

  /** The runner takes the first input. */
  function Received(y: System): System
    requires y.queue != []
  {
    var z := y.(queue := y.queue[1..], place := Handling);
    match y.queue[0]
    case Event(id) => z.(handled := y.handled + [id])
    case Unasked => z
    case Completed(w, ok) =>
      z.(active := if y.active > 0 then y.active - 1 else 0, received := y.received + {w},
        place := if ok then Handling else Broken)
    case Stop => Closing(z).(place := Top)
  }

  /** One atomic step of some task; a step that is not enabled changes nothing. */
  function Step(y: System, l: Label): System {
    match l
    case Reserve(p, e) =>
      if Room(y) && p !in y.senders then y.(senders := y.senders[p := e]) else y
    case SendChecked(p) =>
      // The flag is read and the event sent under one lock; a closing ingress gives the permit back.
      if p !in y.senders then y
      else
        var z := y.(senders := y.senders - {p});
        if y.closing then z else z.(queue := y.queue + [Event(y.senders[p])], accepted := y.accepted + [y.senders[p]])
    case ReserveShutdown => if Room(y) then y.(asking := y.asking + 1) else y
    case SetClosing => if y.asking > 0 then Closing(y.(asking := y.asking - 1, asked := y.asked + 1)) else y
    case SendShutdown => if y.asked > 0 then y.(asked := y.asked - 1, queue := y.queue + [Stop]) else y
    case EnterUnasked => if Room(y) then y.(queue := y.queue + [Unasked]) else y
    case FinishWork(w, ok) =>
      if Room(y) && w in y.workers then y.(workers := y.workers - {w}, queue := y.queue + [Completed(w, ok)]) else y
    case ReadFlag => if y.place.Top? then y.(place := if y.closing then SawClosing else Receiving) else y
    case ReadEmpty =>
      if y.place.SawClosing? then y.(place := if y.active == 0 && y.queue == [] then SawEmpty else Receiving) else y
    case CloseQueue => if y.place.SawEmpty? then y.(place := Stopped) else y
    case Receive => if y.place.Receiving? && y.queue != [] then Received(y) else y
    case Dispatch(w) =>
      if y.place.Handling? && w !in y.dispatched
      then y.(workers := y.workers + {w}, dispatched := y.dispatched + {w}, active := y.active + 1)
      else y
    case EndHandling => if y.place.Handling? then y.(place := Top) else y
  }

  const START: System := System([], false, map[], 0, 0, {}, 0, Top, [], [], {}, {}, 0)

  function Run(labels: seq<Label>): System {
    if labels == [] then START else Step(Run(labels[..|labels| - 1]), labels[|labels| - 1])
  }

  // ---------- The invariant ----------

  /** The accepted events still queued, in order. */
  function EventsIn(queue: seq<Input>): seq<nat> {
    if queue == [] then []
    else if queue[0].Event? then [queue[0].id] + EventsIn(queue[1..])
    else EventsIn(queue[1..])
  }

  /** The workers whose completion is queued. */
  function CompletedIn(queue: seq<Input>): set<nat> {
    set i | 0 <= i < |queue| && queue[i].Completed? :: queue[i].worker
  }

  ghost predicate OncePerWorker(queue: seq<Input>) {
    forall i, j :: 0 <= i < j < |queue| && queue[i].Completed? && queue[j].Completed? ==>
      queue[i].worker != queue[j].worker
  }

  /** Every dispatched worker is running, has its completion queued, or was received; `active` counts the first two. */
  ghost predicate Balance(running: set<nat>, queued: set<nat>, received: set<nat>, dispatched: set<nat>, active: nat) {
    && running !! queued && running !! received && queued !! received
    && running + queued + received == dispatched
    && active == |dispatched - received|
  }

  ghost predicate WorkInv(y: System) {
    OncePerWorker(y.queue) && Balance(y.workers, CompletedIn(y.queue), y.received, y.dispatched, y.active)
  }

  ghost predicate EventInv(y: System) {
    && y.accepted == y.handled + EventsIn(y.queue)
    && (y.closing ==> y.acceptedBefore == |y.accepted|)
  }

  ghost predicate RoomInv(y: System) {
    |y.queue| + |y.senders| + y.asking + y.asked <= QUEUE_CAPACITY
  }

  /** Someone has yet to put an input into the queue: a worker its result, or a shutdown caller its request. */
  predicate Owed(y: System) {
    y.workers != {} || y.asked > 0
  }

  /** The runner believes only what is so, and a blocked runner is always woken. */
  ghost predicate PlaceInv(y: System) {
    && (y.asked > 0 || Stop in y.queue ==> y.closing)
    && (y.place.SawClosing? || y.place.SawEmpty? || y.place.Stopped? ==> y.closing)
    && (y.place.SawEmpty? || y.place.Stopped? ==> y.active == 0 && EventsIn(y.queue) == [])
    && (y.place.Receiving? && y.closing && y.queue == [] ==> Owed(y))
  }

  ghost predicate Inv(y: System) {
    WorkInv(y) && EventInv(y) && RoomInv(y) && PlaceInv(y)
  }

  lemma {:induction false} EventsAppend(a: seq<Input>, b: seq<Input>)
    ensures EventsIn(a + b) == EventsIn(a) + EventsIn(b)
  {
    if a == [] {
      assert a + b == b;
    } else {
      EventsAppend(a[1..], b);
      assert (a + b)[1..] == a[1..] + b;
    }
  }

  lemma CompletedAppend(queue: seq<Input>, input: Input)
    ensures CompletedIn(queue + [input]) == CompletedIn(queue) + (if input.Completed? then {input.worker} else {})
    ensures OncePerWorker(queue) && (input.Completed? ==> input.worker !in CompletedIn(queue)) ==>
      OncePerWorker(queue + [input])
  {
    var all := queue + [input];
    assert forall i :: 0 <= i < |queue| ==> all[i] == queue[i];
    assert all[|queue|] == input;
  }

  lemma CompletedPop(queue: seq<Input>)
    requires queue != [] && OncePerWorker(queue)
    ensures OncePerWorker(queue[1..])
    ensures CompletedIn(queue) == CompletedIn(queue[1..]) + (if queue[0].Completed? then {queue[0].worker} else {})
    ensures queue[0].Completed? ==> queue[0].worker !in CompletedIn(queue[1..])
  {
    var rest := queue[1..];
    assert forall i :: 0 <= i < |rest| ==> rest[i] == queue[i + 1];
    forall w | w in CompletedIn(queue)
      ensures w in CompletedIn(rest) || (queue[0].Completed? && w == queue[0].worker)
    {
      var i :| 0 <= i < |queue| && queue[i].Completed? && queue[i].worker == w;
      if i > 0 { assert rest[i - 1].worker == w; }
    }
  }

  lemma BalanceDispatch(
      running: set<nat>, queued: set<nat>, received: set<nat>, dispatched: set<nat>, active: nat, w: nat)
    requires Balance(running, queued, received, dispatched, active) && w !in dispatched
    ensures Balance(running + {w}, queued, received, dispatched + {w}, active + 1)
  {
    assert w !in received;
    assert (dispatched + {w}) - received == (dispatched - received) + {w};
  }

  lemma BalanceReceive(
      running: set<nat>, queued: set<nat>, received: set<nat>, dispatched: set<nat>, active: nat, w: nat)
    requires Balance(running, queued + {w}, received, dispatched, active) && w !in queued
    ensures active > 0 && Balance(running, queued, received + {w}, dispatched, active - 1)
  {
    assert w in queued + {w};
    assert w !in running && w !in received && w in dispatched;
    assert dispatched - received == (dispatched - (received + {w})) + {w};
    assert running + queued + (received + {w}) == running + (queued + {w}) + received;
  }

  lemma BalanceFinish(
      running: set<nat>, queued: set<nat>, received: set<nat>, dispatched: set<nat>, active: nat, w: nat)
    requires Balance(running, queued, received, dispatched, active) && w in running
    ensures active > 0 && w !in queued && Balance(running - {w}, queued + {w}, received, dispatched, active)
  {
    assert w in dispatched - received;
    assert (running - {w}) + (queued + {w}) == running + queued;
  }

  /** An input that is not a completion changes nothing about outstanding work. */
  lemma QuietAppend(queue: seq<Input>, input: Input)
    requires OncePerWorker(queue) && !input.Completed?
    ensures OncePerWorker(queue + [input]) && CompletedIn(queue + [input]) == CompletedIn(queue)
  {
    CompletedAppend(queue, input);
  }

  lemma FinishKeepsWork(y: System, w: nat, ok: bool)
    requires WorkInv(y) && w in y.workers
    ensures WorkInv(y.(workers := y.workers - {w}, queue := y.queue + [Completed(w, ok)]))
  {
    hide Balance;
    BalanceFinish(y.workers, CompletedIn(y.queue), y.received, y.dispatched, y.active, w);
    CompletedAppend(y.queue, Completed(w, ok));
    hide CompletedIn, OncePerWorker;
  }

  /** Work is as it was when only an input that is not a completion joined the queue. */
  lemma SameWorkKept(y: System, z: System, added: seq<Input>)
    requires WorkInv(y) && z.queue == y.queue + added && |added| <= 1 && (added != [] ==> !added[0].Completed?)
    requires z.workers == y.workers && z.dispatched == y.dispatched && z.received == y.received && z.active == y.active
    ensures WorkInv(z)
  {
    hide Balance;
    if added == [] {
      assert z.queue == y.queue;
    } else {
      QuietAppend(y.queue, added[0]);
      assert z.queue == y.queue + [added[0]];
    }
    hide CompletedIn, OncePerWorker;
  }

  /** What a step other than the runner's and the workers' puts into the queue. */
  function Added(y: System, l: Label): seq<Input> {
    match l
    case SendChecked(p) => if p in y.senders && !y.closing then [Event(y.senders[p])] else []
    case SendShutdown => if y.asked > 0 then [Stop] else []
    case EnterUnasked => if Room(y) then [Unasked] else []
    case _ => []
  }

  lemma QuietStep(y: System, l: Label)
    requires !l.FinishWork? && !l.Receive? && !l.Dispatch?
    ensures var z := Step(y, l);
      && z.queue == y.queue + Added(y, l) && z.workers == y.workers && z.dispatched == y.dispatched
      && z.received == y.received && z.active == y.active
  {
    hide Received;
    assert y.queue + [] == y.queue;
  }

  lemma DispatchKeepsWork(y: System, w: nat)
    requires WorkInv(y)
    ensures WorkInv(Step(y, Dispatch(w)))
  {
    hide Balance, CompletedIn, OncePerWorker;
    if w !in y.dispatched { BalanceDispatch(y.workers, CompletedIn(y.queue), y.received, y.dispatched, y.active, w); }
  }

  lemma WorkKept(y: System, l: Label)
    requires WorkInv(y)
    ensures WorkInv(Step(y, l))
  {
    hide WorkInv, Received;
    match l
    case FinishWork(w, ok) => if w in y.workers { FinishKeepsWork(y, w, ok); }
    case Receive => if y.queue != [] { ReceiveKeepsWork(y); }
    case Dispatch(w) => DispatchKeepsWork(y, w);
    case _ =>
      QuietStep(y, l);
      SameWorkKept(y, Step(y, l), Added(y, l));
  }

  lemma ReceivedWork(y: System)
    requires y.queue != []
    ensures var z := Received(y);
      && z.queue == y.queue[1..] && z.workers == y.workers && z.dispatched == y.dispatched
      && z.received == y.received + (if y.queue[0].Completed? then {y.queue[0].worker} else {})
      && z.active == if y.queue[0].Completed? && y.active > 0 then y.active - 1 else y.active
  {
  }

  lemma ReceiveKeepsWork(y: System)
    requires WorkInv(y) && y.queue != []
    ensures WorkInv(Received(y))
  {
    ReceivedWork(y);
    CompletedPop(y.queue);
    hide Balance, CompletedIn, OncePerWorker, Received;
    var z, rest := Received(y), y.queue[1..];
    if y.queue[0].Completed? {
      BalanceReceive(y.workers, CompletedIn(rest), y.received, y.dispatched, y.active, y.queue[0].worker);
    } else {
      assert CompletedIn(rest) == CompletedIn(y.queue) && z.received == y.received;
    }
  }

  lemma ReceiveKeepsEvents(y: System)
    requires EventInv(y) && y.queue != []
    ensures EventInv(Received(y))
  {
    assert EventsIn(y.queue) == (if y.queue[0].Event? then [y.queue[0].id] else []) + EventsIn(y.queue[1..]);
    hide EventsIn;
  }

  lemma EventsAppendOne(queue: seq<Input>, last: Input)
    ensures EventsIn(queue + [last]) == EventsIn(queue) + (if last.Event? then [last.id] else [])
  {
    EventsAppend(queue, [last]);
    assert EventsIn([last]) == if last.Event? then [last.id] else [];
  }

  lemma EventKept(y: System, l: Label)
    requires EventInv(y)
    ensures EventInv(Step(y, l))
  {
    hide EventsIn;
    match l
    case Receive => if y.queue != [] { ReceiveKeepsEvents(y); }
    case SendChecked(p) => if p in y.senders { EventsAppendOne(y.queue, Event(y.senders[p])); }
    case SendShutdown => EventsAppendOne(y.queue, Stop);
    case EnterUnasked => EventsAppendOne(y.queue, Unasked);
    case FinishWork(w, ok) => EventsAppendOne(y.queue, Completed(w, ok));
    case _ =>
  }

  lemma RoomKept(y: System, l: Label)
    requires RoomInv(y)
    ensures RoomInv(Step(y, l))
  {
    if l.SendChecked? && l.p in y.senders {
      assert y.senders.Keys == (y.senders - {l.p}).Keys + {l.p};
      assert |y.senders| == |y.senders.Keys| && |y.senders - {l.p}| == |(y.senders - {l.p}).Keys|;
    }
    if l.Reserve? && l.producer !in y.senders {
      assert y.senders[l.producer := l.event].Keys == y.senders.Keys + {l.producer};
    }
  }

  /** Nothing queued and work outstanding: some worker is still running. */
  lemma EmptyQueueWork(y: System)
    requires WorkInv(y) && y.queue == []
    ensures y.active > 0 <==> y.workers != {}
  {
    assert CompletedIn(y.queue) == {};
    assert y.workers == y.dispatched - y.received;
  }

  lemma PlaceKept(y: System, l: Label)
    requires WorkInv(y) && PlaceInv(y)
    ensures PlaceInv(Step(y, l))
  {
    hide Balance;
    if l.FinishWork? || l.SendChecked? || l.SendShutdown? || l.EnterUnasked? {
      AppendKeepsPlace(y, l);
    } else if l.ReadEmpty? {
      if y.queue == [] { EmptyQueueWork(y); }
      assert y.queue == [] ==> EventsIn(y.queue) == [];
      hide WorkInv, EventsIn;
    } else {
      hide WorkInv, EventsIn;
      if l.Receive? && y.queue != [] {
        assert Stop in y.queue[1..] ==> Stop in y.queue;
      }
    }
  }

  lemma StopAppend(queue: seq<Input>, last: Input)
    ensures Stop in queue + [last] <==> Stop in queue || last.Stop?
  {
  }

  lemma AppendKeepsPlace(y: System, l: Label)
    requires WorkInv(y) && PlaceInv(y)
    requires l.FinishWork? || l.SendChecked? || l.SendShutdown? || l.EnterUnasked?
    ensures PlaceInv(Step(y, l))
  {
    hide Balance;
    var z := Step(y, l);
    if z.queue != y.queue {
      var last := z.queue[|y.queue|];
      assert z.queue == y.queue + [last];
      EventsAppend(y.queue, [last]);
      assert !last.Event? ==> EventsIn([last]) == [];
      if l.FinishWork? {
        BalanceFinish(y.workers, CompletedIn(y.queue), y.received, y.dispatched, y.active, l.worker);
      }
      hide EventsIn, WorkInv;
      StopAppend(y.queue, last);
    } else {
      hide EventsIn, WorkInv;
    }
  }

  lemma {:induction false} RunKeeps(labels: seq<Label>)
    ensures Inv(Run(labels))
  {
    if labels == [] {
      assert CompletedIn([]) == {};
    } else {
      var y := Run(labels[..|labels| - 1]);
      RunKeeps(labels[..|labels| - 1]);
      WorkKept(y, labels[|labels| - 1]);
      EventKept(y, labels[|labels| - 1]);
      RoomKept(y, labels[|labels| - 1]);
      PlaceKept(y, labels[|labels| - 1]);
    }
  }

  /**
   * Over every interleaving: no event is accepted after closing is set, events are handled in the
   * order accepted, and the worker count is the work dispatched whose completion is not received.
   */
  lemma IngressIsSound(labels: seq<Label>)
    ensures var y := Run(labels);
      && (y.closing ==> |y.accepted| == y.acceptedBefore)
      && y.handled <= y.accepted
      && y.received <= y.dispatched && y.active == |y.dispatched - y.received|
      && |y.queue| <= 64
  {
    RunKeeps(labels);
    var y := Run(labels);
    assert y.accepted[..|y.handled|] == y.handled;
  }

  /** Until the runner ends there is room for an input exactly while fewer than 64 are queued or have a place. */
  lemma RoomIff(y: System)
    ensures Room(y) <==>
      |y.queue| + |y.senders| + y.asking + y.asked < 64 && y.place != Stopped && y.place != Broken
  {
  }

  /** While it handles an input the runner can dispatch any new worker, which then runs and is counted. */
  lemma WorkIsCounted(y: System, w: nat)
    requires y.place.Handling? && w !in y.dispatched
    ensures var z := Step(y, Dispatch(w)); w in z.workers && w in z.dispatched && z.active == y.active + 1
  {
  }

  /** The runner breaks off exactly when it receives a worker's failure, and stays so. */
  lemma BreaksOffIff(y: System, l: Label)
    ensures Step(y, l).place.Broken? <==>
      || y.place.Broken?
      || (l.Receive? && y.place.Receiving? && y.queue != [] && y.queue[0].Completed? && !y.queue[0].ok)
  {
  }

  /** The runner stops only when every accepted event and every worker's result has been handled. */
  lemma StopIsClean(labels: seq<Label>)
    requires Run(labels).place.Stopped?
    ensures var y := Run(labels);
      y.closing && y.handled == y.accepted && y.workers == {} && y.received == y.dispatched
  {
    RunKeeps(labels);
    var y := Run(labels);
    assert y.dispatched - y.received == {};
    assert y.handled + [] == y.handled;
  }

  /**
   * A closing runner never waits for good: while it waits on an empty queue, a worker or a shutdown
   * caller has yet to send.
   */
  lemma NeverStuck(labels: seq<Label>)
    requires Run(labels).place.Receiving? && Run(labels).closing && Run(labels).queue == []
    ensures Owed(Run(labels))
  {
    RunKeeps(labels);
  }

  // ---------- The shell's receiving end ----------

  datatype Answer = Ended | Waits | Got(input: Input) | Failed(worker: nat)

  /** How many completions are queued. */
  function Completions(queue: seq<Input>): nat {
    if queue == [] then 0 else (if queue[0].Completed? then 1 else 0) + Completions(queue[1..])
  }

  /** How many shutdown requests stand ahead of the first other input. */
  function Leading(queue: seq<Input>): (k: nat)
    ensures k <= |queue|
    ensures forall i :: 0 <= i < k ==> queue[i].Stop?
    ensures k < |queue| ==> !queue[k].Stop?
  {
    if queue != [] && queue[0].Stop? then 1 + Leading(queue[1..]) else 0
  }

  class Shell {
    var queue: seq<Input>
    var closing: bool
    var active: nat

    /**
     * Take inputs until one is an event. Shutdown requests ahead of it are consumed, and closing is
     * set by them; `Waits` is where the runner awaits the next input. It ends only once closing,
     * with no worker outstanding and the queue drained.
     */
    method NextEvent() returns (answer: Answer)
      requires active >= Completions(queue)
      modifies this
      ensures active >= Completions(queue)
      ensures closing <==> old(closing) || Leading(old(queue)) > 0
      ensures Leading(old(queue)) == |old(queue)| ==>
        queue == [] && active == old(active) && answer == if closing && active == 0 then Ended else Waits
      ensures Leading(old(queue)) < |old(queue)| ==>
        var rest := old(queue)[Leading(old(queue))..];
        && answer == (if rest[0].Completed? && !rest[0].ok then Failed(rest[0].worker) else Got(rest[0]))
        && queue == rest[1..] && active == old(active) - (if rest[0].Completed? then 1 else 0)
    {
      while true
        invariant old(queue)[Leading(old(queue))..] == queue[Leading(queue)..]
        invariant closing || Leading(queue) > 0 <==> old(closing) || Leading(old(queue)) > 0
        invariant active == old(active) && active >= Completions(queue)
        decreases |queue|
      {
        if closing && active == 0 && queue == [] {
          return Ended;
        }
        if queue == [] {
          return Waits;
        }
        var input := queue[0];
        assert input.Stop? ==> queue[Leading(queue)..] == queue[1..][Leading(queue[1..])..];
        queue := queue[1..];
        match input
        case Event(_) => return Got(input);
        case Unasked => return Got(input);
        case Completed(worker, ok) =>
          active := active - 1;
          if !ok { return Failed(worker); }
          return Got(input);
        case Stop =>
          closing := true;
      }
    }
  }
}
