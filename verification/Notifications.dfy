/** The notifications component: its state changes in place, step by step as the core runs. */
module Notifications {
  import opened Basics
  import opened Notices
  import opened Timer
  import opened Alarms
  import opened NoticeLog
  import opened Outbox

  datatype NotificationEvent =
    | SendTest
    | Delivered
    | DeliveryFailed
    | LogWasRead(last: Option<nat>)
    | LogReadFailed
    | Saved
    | SaveFailed

  datatype TimerName = ForGrace | ForRetry
  datatype StartTimer = StartTimer(name: TimerName, id: nat, deadline: Deadline)

  /** What an event means to the outbox; a failed delivery would be retried by timer `retry`. */
  function MailEvent(e: NotificationEvent, retry: nat): Outbox.Event {
    match e
    case Delivered => Result(true, retry)
    case DeliveryFailed => Result(false, retry)
    case _ => Nothing
  }

  /** What an event means to the log. */
  function LogEvent(e: NotificationEvent): NoticeLog.Event {
    match e
    case LogWasRead(last) => Read(last)
    case LogReadFailed => Lost
    case _ => Other
  }

  function AllDated(at: Time, notices: seq<Notice>): (dated: seq<Dated>)
    ensures |dated| == |notices| && forall i :: 0 <= i < |notices| ==> dated[i] == Dated(at, notices[i])
  {
    if notices == [] then []
    else AllDated(at, notices[..|notices| - 1]) + [Dated(at, notices[|notices| - 1])]
  }

  /** What a step is about: a notification event, an expired timer, a startup that failed, or something else. */
  datatype Input = Notified(event: NotificationEvent) | Expiry(timer: nat) | StartupFailed | Elsewhere

  function InputToMail(input: Input, retry: nat): Outbox.Event {
    match input
    case Notified(e) => MailEvent(e, retry)
    case Expiry(id) => Outbox.Expired(id)
    case _ => Nothing
  }

  function InputToLog(input: Input): NoticeLog.Event {
    match input
    case Notified(e) => LogEvent(e)
    case StartupFailed => Lost
    case _ => Other
  }

  /** What an input leaves of the grace timer, before the step schedules. */
  function Heard(timer: Option<Alarms.GraceTimer>, input: Input): Option<Alarms.GraceTimer> {
    if input.Expiry? && timer.Some? && timer.value.id == input.timer then None else timer
  }

  lemma {:induction false} EnqueueAllAppend<P>(m: Mail<P>, a: seq<P>, b: seq<P>)
    ensures EnqueueAll(EnqueueAll(m, a), b) == EnqueueAll(m, a + b)
  {
    if b == [] {
      assert a + b == a;
    } else {
      EnqueueAllAppend(m, a, b[..|b| - 1]);
      assert (a + b)[..|a + b| - 1] == a + b[..|b| - 1];
    }
  }

  class Notifier {
    var conditions: Conditions
    var log: Log
    var outbox: seq<Push>
    var delivery: Delivery<Push>
    var dropped: nat
    var failures: nat
    var graceTimer: Option<Alarms.GraceTimer>

    ghost function Box(): Mail<Push>
      reads this
    {
      Outbox.Mail(outbox, delivery, dropped, failures)
    }

    constructor ()
      ensures conditions == map[] && log == Waiting([]) && graceTimer == None
      ensures Box() == Outbox.Mail([], Idle, 0, 0)
    {
      conditions, log, graceTimer := map[], Waiting([]), None;
      outbox, delivery, dropped, failures := [], Idle, 0, 0;
    }

    method EnqueuePush(push: Push)
      modifies this`outbox, this`dropped
      ensures Box() == Enqueue(old(Box()), push)
    {
      if |outbox| >= OUTBOX_LIMIT {
        outbox := outbox[1..];
        dropped := dropped + 1;
      }
      outbox := outbox + [push];
    }

    /** Give a notice its place in the log, and queue it for pushing if urgent. */
    method RecordNotice(d: Dated) returns (save: Option<Save>)
      modifies this`log, this`outbox, this`dropped
      ensures var r := Record(old(log), d);
        && log == r.log && Box() == EnqueueAll(old(Box()), r.pushes)
        && r.saves == match save case None => [] case Some(s) => [s]
    {
      var entry: Option<nat>;
      match log {
        case Waiting(notices) =>
          log := Waiting(notices + [d]);
          return None;
        case Ready(next) =>
          entry := Some(next);
          log := Ready(next + 1);
        case Unavailable =>
          entry := None;
      }
      if d.notice.urgent {
        ghost var pushes := [Push(entry, d.notice)];
        assert EnqueueAll(Box(), pushes[..0]) == Box();
        EnqueuePush(Push(entry, d.notice));
      }
      save := match entry case None => None case Some(id) => Some(Save(id, d, ForgetThrough(id)));
    }

    /** Record these notices in order. */
    method RecordNotices(notices: seq<Dated>) returns (saves: seq<Save>)
      modifies this`log, this`outbox, this`dropped
      ensures var r := RecordAll(old(log), notices);
        log == r.log && Box() == EnqueueAll(old(Box()), r.pushes) && saves == r.saves
    {
      saves := [];
      for i := 0 to |notices|
        invariant delivery == old(delivery) && failures == old(failures)
        invariant var r := RecordAll(old(log), notices[..i]);
          log == r.log && Box() == EnqueueAll(old(Box()), r.pushes) && saves == r.saves
      {
        ghost var before, was := RecordAll(old(log), notices[..i]), log;
        var save := RecordNotice(notices[i]);
        EnqueueAllAppend(old(Box()), before.pushes, Record(was, notices[i]).pushes);
        assert notices[..i + 1][..i] == notices[..i];
        match save {
          case None =>
          case Some(s) => saves := saves + [s];
        }
      }
      assert notices[..|notices|] == notices;
    }

    method LogUnavailable()
      modifies this`log, this`outbox, this`dropped
      ensures var r := LogLost(old(log));
        log == r.log && Box() == EnqueueAll(old(Box()), r.pushes) && r.saves == []
    {
      var was := log;
      log := Unavailable;
      if was.Waiting? {
        UnavailablePushes(0, was.notices);
        var _ := RecordNotices(was.notices);
      }
    }

    /** One notification event; a failed delivery is retried after a wait that grows with the failures. */
    method HandleEvent(
        now: Clock, e: NotificationEvent, timers: Timers) returns (saves: seq<Save>, start: Option<StartTimer>)
      modifies this`log, this`outbox, this`dropped, this`delivery, this`failures, timers
      ensures var r := NoticeLog.Handle(old(log), LogEvent(e));
        && log == r.log && saves == r.saves
        && Box() == EnqueueAll(Outbox.Handle(old(Box()), MailEvent(e, old(timers.next))), r.pushes)
      ensures start ==
        if e.DeliveryFailed? && old(delivery).Sending?
        then Some(StartTimer(ForRetry, old(timers.next),
            Deadline(now.monotonic + RetryAfter(failures), RetryAfter(failures))))
        else None
      ensures timers.next == old(timers.next) + if start.Some? then 1 else 0
    {
      saves, start := [], None;
      if e.LogWasRead? {
        if !log.Waiting? {
          return;
        }
        var waiting := log.notices;
        log := Ready(match e.last case None => 1 case Some(id) => id + 1);
        saves := RecordNotices(waiting);
        return;
      }
      if e.LogReadFailed? {
        LogUnavailable();
        return;
      }
      if !delivery.Sending? {
        return;
      }
      if e.Delivered? {
        delivery := Idle;
        failures := 0;
      } else if e.DeliveryFailed? {
        failures := failures + 1;
        var id, deadline := timers.Schedule(now.monotonic, RetryAfter(failures));
        delivery := Retrying(delivery.push, id);
        start := Some(StartTimer(ForRetry, id, deadline));
      }
    }

    /** An expiry of a timer that is neither the grace timer nor the retry in wait changes nothing. */
    method TimerExpired(id: nat)
      modifies this`graceTimer, this`outbox, this`delivery
      ensures graceTimer == if old(graceTimer).Some? && old(graceTimer).value.id == id then None else old(graceTimer)
      ensures Box() == RetryDue(old(Box()), id)
    {
      if graceTimer.Some? && graceTimer.value.id == id {
        graceTimer := None;
      }
      if delivery.Retrying? && delivery.timer == id {
        outbox := [delivery.push] + outbox;
        delivery := Idle;
      }
    }

    method TrackCondition(now: Time, a: Assessment) returns (told: Option<Notice>)
      modifies this`conditions
      ensures conditions == TrackOne(old(conditions), now, a)
      ensures told == Told(PhaseOf(old(conditions), a.condition), Grace(a.condition), now, a.status)
    {
      told := None;
      var c := a.condition;
      if c !in conditions {
        if a.status.Active? {
          if Grace(c) == 0 {
            conditions := conditions[c := Raised];
            told := Some(a.status.notice);
          } else {
            conditions := conditions[c := Pending(now)];
          }
        }
      } else {
        var phase := conditions[c];
        if phase.Pending? && a.status.Active? && Since(now, phase.since) >= Grace(c) {
          conditions := conditions[c := Raised];
          told := Some(a.status.notice);
        } else if phase.Pending? && a.status.Clear? {
          conditions := conditions - {c};
        } else if phase.Raised? && a.status.Clear? {
          conditions := conditions - {c};
          told := a.status.cleared;
        }
      }
    }

    /** The earliest end of grace among pending conditions. */
    method EarliestDue() returns (due: Option<Time>)
      ensures due == Earliest(conditions)
    {
      due := None;
      var left := conditions.Keys;
      while left != {}
        invariant left <= conditions.Keys
        invariant IsEarliest(conditions, conditions.Keys - left, due)
        decreases |left|
      {
        var c :| c in left;
        EarliestWith(conditions, conditions.Keys - left, due, c);
        assert conditions.Keys - (left - {c}) == (conditions.Keys - left) + {c};
        due := Earlier(due, Due(conditions, c));
        left := left - {c};
      }
      assert conditions.Keys - {} == conditions.Keys;
      EarliestUnique(conditions, conditions.Keys, due, Earliest(conditions));
    }

    /** Wake the core when the earliest pending condition's grace ends, or at once if it has. */
    method ScheduleGrace(now: Time, timers: Timers) returns (start: Option<StartTimer>)
      modifies this`graceTimer, timers
      ensures var w := Watch(old(conditions), old(graceTimer), old(timers.next));
        && Watch(conditions, graceTimer, timers.next) == Schedule(w)
        && start.Some? == Schedules(w)
        && (start.Some? ==>
            start.value.name.ForGrace? && start.value.id == Starts(w, now).id
            && start.value.deadline.at == Starts(w, now).at)
    {
      start := None;
      var due := EarliestDue();
      if due.None? {
        return;
      }
      if graceTimer.Some? && graceTimer.value.due == due.value {
        return;
      }
      var id, deadline := timers.Schedule(now, Since(due.value, now));
      graceTimer := Some(Alarms.GraceTimer(id, due.value));
      start := Some(StartTimer(ForGrace, id, deadline));
    }

    /** Push the oldest waiting notice once settings name a topic; without one, pushes are discarded. */
    method SendNext(topic: Topic) returns (sent: Option<Push>)
      modifies this`outbox, this`delivery
      ensures Box() == Send(old(Box()), topic) && sent == Sends(old(Box()), topic)
    {
      sent := None;
      if topic.NotRead? {
        return;
      }
      if topic.Absent? {
        outbox := [];
        if delivery.Retrying? {
          delivery := Idle;
        }
        return;
      }
      if !delivery.Idle? || outbox == [] {
        return;
      }
      var push := outbox[0];
      outbox := outbox[1..];
      delivery := Sending(push);
      sent := Some(push);
    }

    /** Track lasting conditions, queue notices, and start the next delivery. */
    method AfterStep(now: Clock, seen: seq<Assessment>, happened: seq<Notice>, topic: Topic, timers: Timers)
      returns (saves: seq<Save>, start: Option<StartTimer>, sent: Option<Push>)
      modifies this, timers
      ensures var w := Watch(Track(old(conditions), now.monotonic, seen), old(graceTimer), old(timers.next));
        && Watch(conditions, graceTimer, timers.next) == Schedule(w) && start.Some? == Schedules(w)
        && (start.Some? ==>
            start.value.id == Starts(w, now.monotonic).id && start.value.deadline.at == Starts(w, now.monotonic).at)
      ensures var notices := AllDated(now.wall, Tells(old(conditions), now.monotonic, seen) + happened);
        var r := RecordAll(old(log), notices);
        && log == r.log && saves == r.saves
        && Box() == Send(EnqueueAll(old(Box()), r.pushes), topic)
        && sent == Sends(EnqueueAll(old(Box()), r.pushes), topic)
    {
      var notices := [];
      for i := 0 to |seen|
        invariant conditions == Track(old(conditions), now.monotonic, seen[..i])
        invariant notices == Tells(old(conditions), now.monotonic, seen[..i])
        invariant log == old(log) && graceTimer == old(graceTimer) && Box() == old(Box())
          && timers.next == old(timers.next)
      {
        assert seen[..i + 1][..i] == seen[..i];
        var told := TrackCondition(now.monotonic, seen[i]);
        match told {
          case None =>
          case Some(n) => notices := notices + [n];
        }
      }
      assert seen[..|seen|] == seen;
      saves := RecordNotices(AllDated(now.wall, notices + happened));
      start := ScheduleGrace(now.monotonic, timers);
      sent := SendNext(topic);
    }

    method HandleInput(now: Clock, input: Input, timers: Timers) returns (saves: seq<Save>, retry: Option<StartTimer>)
      modifies this, timers
      ensures var r := NoticeLog.Handle(old(log), InputToLog(input));
        && log == r.log && saves == r.saves
        && Box() == EnqueueAll(Outbox.Handle(old(Box()), InputToMail(input, old(timers.next))), r.pushes)
      ensures conditions == old(conditions) && graceTimer == Heard(old(graceTimer), input)
      ensures retry.Some? == (input == Notified(DeliveryFailed) && old(delivery).Sending?)
      ensures retry.Some? ==>
        retry.value.deadline == Deadline(now.monotonic + RetryAfter(failures), RetryAfter(failures))
          && retry.value.name.ForRetry? && retry.value.id == old(timers.next)
      ensures timers.next == old(timers.next) + if retry.Some? then 1 else 0
    {
      saves, retry := [], None;
      match input {
        case Elsewhere =>
        case Notified(e) =>
          saves, retry := HandleEvent(now, e, timers);
        case Expiry(id) =>
          TimerExpired(id);
        case StartupFailed =>
          LogUnavailable();
      }
    }

    /**
     * A whole step of the core as notifications see it. It is one step of each part: of the outbox
     * with exactly the pushes recorded, of the log with exactly the notices decided, and of the
     * watch. The timers started are the retry of a failed delivery and the grace timer scheduled.
     */
    method WholeStep(
        now: Clock, input: Input, seen: seq<Assessment>, happened: seq<Notice>, topic: Topic, timers: Timers)
      returns (saves: seq<Save>, sent: Option<Push>, retry: Option<StartTimer>, grace: Option<StartTimer>)
      modifies this, timers
      ensures var decided := AllDated(now.wall, Tells(old(conditions), now.monotonic, seen) + happened);
        var first := NoticeLog.Handle(old(log), InputToLog(input));
        var r := RecordAll(first.log, decided);
        && log == r.log && saves == first.saves + r.saves
        && Box() == Outbox.Step(old(Box()), InputToMail(input, old(timers.next)), first.pushes + r.pushes, topic)
        && (sent.Some? ==> delivery == Sending(sent.value))
      ensures retry.Some? == (input == Notified(DeliveryFailed) && old(delivery).Sending?)
      ensures retry.Some? ==>
        retry.value.deadline == Deadline(now.monotonic + RetryAfter(failures), RetryAfter(failures))
          && retry.value.name.ForRetry? && retry.value.id == old(timers.next)
      ensures var w := Watch(Track(old(conditions), now.monotonic, seen), Heard(old(graceTimer), input),
                             old(timers.next) + if retry.Some? then 1 else 0);
        && Watch(conditions, graceTimer, timers.next) == Schedule(w) && grace.Some? == Schedules(w)
        && (grace.Some? ==>
            grace.value.id == Starts(w, now.monotonic).id && grace.value.deadline.at == Starts(w, now.monotonic).at)
    {
      var first, again := HandleInput(now, input, timers);
      ghost var handled := Outbox.Handle(old(Box()), InputToMail(input, old(timers.next)));
      ghost var pushes := NoticeLog.Handle(old(log), InputToLog(input)).pushes;
      hide RecordAll, Track, Tells, Outbox.Handle, NoticeLog.Handle, EnqueueAll, AllDated, Earliest, Heard;
      ghost var was := log;
      var later, started, out := AfterStep(now, seen, happened, topic, timers);
      saves, sent, retry, grace := first + later, out, again, started;
      ghost var decided := AllDated(now.wall, Tells(old(conditions), now.monotonic, seen) + happened);
      EnqueueAllAppend(handled, pushes, RecordAll(was, decided).pushes);
      FailuresStay(EnqueueAll(handled, pushes), RecordAll(was, decided).pushes, topic);
    }
  }
}
