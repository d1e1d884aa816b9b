/** The core's view of qBittorrent: one request outstanding, chosen anew after each answer. */
module Polling {
  import opened Basics
  import opened Timer
  import opened Torrents
  import opened Replication
  import R = Reconciliation

  const POLL_INTERVAL: Time := 10 * SECOND
  const POLLS_PER_PREFERENCES_READ: nat := 6

  datatype Failure = Unreached | Rejected(status: nat) | Malformed

  /** How qBittorrent queues torrents; no limit is `None`. */
  datatype Queue = Queue(
      queueing: bool, maxDownloading: Option<nat>, maxActive: Option<nat>, maxSeeding: Option<nat>, idleCounted: bool)

  datatype Preferences = Preferences(listenPort: Option<nat>, networkInterface: Option<string>, queue: Option<Queue>)

  /** The settings the core wants, where it knows them. */
  datatype Wanted = Wanted(listenPort: Option<nat>, queue: Option<Queue>)

  datatype Activity =
    | Waiting(timer: nat)
    | Syncing
    | ReadingPreferences
    | SettingListenPort(port: nat)
    | SettingQueue
    | Commanding
    | Deciding(afterSync: bool)

  datatype Session = Session(
    version: string, preferences: Preferences, torrents: Listing, activity: Activity,
    position: nat, listed: bool, pollsSincePreferences: nat)

  datatype Client = Disabled | Connecting | Unreachable(reason: Failure, retry: nat) | Connected(session: Session)

  datatype Event =
    | Enable
    | Connects(version: string, preferences: Preferences)
    | ConnectFailed(reason: Failure)
    | Synced(update: SyncUpdate)
    | SyncFailed(reason: Failure)
    | PreferencesRead(preferences: Preferences)
    | PreferencesReadFailed(reason: Failure)
    | ListenPortSet
    | ListenPortSetFailed(reason: Failure)
    | QueueSet
    | QueueSetFailed(reason: Failure)
    | CommandDone
    | CommandFailed(reason: Failure)

  datatype Action =
    | Connect
    | Sync(position: nat)
    | ReadPreferences
    | SetListenPort(port: nat)
    | SetQueue(queue: Queue)
    | Apply(command: R.Command)
    | StartTimer(id: nat, deadline: Deadline)

  datatype Outcome = Outcome(client: Client, actions: seq<Action>)

  function Merged(s: Session, u: SyncUpdate): Session {
    s.(torrents := Applied(s.torrents, u), listed := s.listed || u.full, position := u.position)
  }

  function Wait(s: Session, now: Clock, id: nat): Outcome {
    Outcome(Connected(s.(activity := Waiting(id))),
      [StartTimer(id, Deadline(now.monotonic + POLL_INTERVAL, POLL_INTERVAL))])
  }

  function Retry(reason: Failure, now: Clock, id: nat): Outcome {
    Outcome(Unreachable(reason, id), [StartTimer(id, Deadline(now.monotonic + POLL_INTERVAL, POLL_INTERVAL))])
  }

  function HandleConnected(s: Session, now: Clock, e: Event, id: nat): Outcome {
    var same := Outcome(Connected(s), []);
    match e
    case Synced(update) =>
      if !s.activity.Syncing? then same
      else Outcome(Connected(Merged(s, update).(pollsSincePreferences := s.pollsSincePreferences + 1,
          activity := Deciding(true))), [])
    case CommandDone => if s.activity.Commanding? then Outcome(Connected(s.(activity := Deciding(false))), []) else same
    case PreferencesRead(preferences) =>
      if s.activity.ReadingPreferences?
        then Wait(s.(preferences := preferences, pollsSincePreferences := 0), now, id) else same
    case ListenPortSet =>
      if s.activity.SettingListenPort?
        then Outcome(Connected(s.(activity := ReadingPreferences)), [ReadPreferences]) else same
    case QueueSet =>
      if s.activity.SettingQueue?
        then Outcome(Connected(s.(activity := ReadingPreferences)), [ReadPreferences]) else same
    case SyncFailed(reason) => Retry(reason, now, id)
    case PreferencesReadFailed(reason) => Retry(reason, now, id)
    case ListenPortSetFailed(reason) => Retry(reason, now, id)
    case QueueSetFailed(reason) => Retry(reason, now, id)
    case CommandFailed(reason) => Retry(reason, now, id)
    case _ => same
  }

  /** One event; `id` is the identity a new timer takes. */
  function Handle(c: Client, now: Clock, e: Event, id: nat): Outcome {
    match c
    case Disabled => if e.Enable? then Outcome(Connecting, [Connect]) else Outcome(c, [])
    case Connecting =>
      (match e
       case Connects(version, preferences) =>
         Outcome(Connected(Session(version, preferences, map[], Syncing, 0, false, 0)), [Sync(0)])
       case ConnectFailed(reason) => Retry(reason, now, id)
       case _ => Outcome(c, []))
    case Unreachable(_, _) => Outcome(c, [])
    case Connected(s) => HandleConnected(s, now, e, id)
  }

  function TimerExpired(c: Client, id: nat): Outcome {
    match c
    case Unreachable(_, retry) => if retry == id then Outcome(Connecting, [Connect]) else Outcome(c, [])
    case Connected(s) =>
      if s.activity == Waiting(id) then Outcome(Connected(s.(activity := Deciding(false))), []) else Outcome(c, [])
    case _ => Outcome(c, [])
  }

  /** Change the first setting that differs from what is wanted: the listen port, then a reported queue. */
  function SetPreferences(s: Session, wanted: Wanted): Option<Outcome> {
    if wanted.listenPort.Some? && s.preferences.listenPort != wanted.listenPort
    then Some(Outcome(Connected(s.(activity := SettingListenPort(wanted.listenPort.value))),
        [SetListenPort(wanted.listenPort.value)]))
    else if wanted.queue.Some? && s.preferences.queue.Some? && s.preferences.queue != wanted.queue
    then Some(Outcome(Connected(s.(activity := SettingQueue)), [SetQueue(wanted.queue.value)]))
    else None
  }

  /** Whether the choice of the next request comes to asking the registry for a command. */
  predicate Consults(c: Client, wanted: Wanted) {
    c.Connected? && c.session.activity == Deciding(true) && SetPreferences(c.session, wanted).None?
  }

  /** Choose the next request; `command` is what the registry answers if it is asked. */
  function Decide(c: Client, now: Clock, wanted: Wanted, command: Option<R.Command>, id: nat): Outcome {
    if !(c.Connected? && c.session.activity.Deciding?) then Outcome(c, [])
    else
      var s := c.session;
      var preferences := SetPreferences(s, wanted);
      if preferences.Some? then preferences.value
      else if !s.activity.afterSync then Outcome(Connected(s.(activity := Syncing)), [Sync(s.position)])
      else if command.Some? then Outcome(Connected(s.(activity := Commanding)), [Apply(command.value)])
      else if s.pollsSincePreferences >= POLLS_PER_PREFERENCES_READ
      then Outcome(Connected(s.(activity := ReadingPreferences)), [ReadPreferences])
      else Wait(s, now, id)
  }

  function FollowPreferences(c: Client, wanted: Wanted): Outcome {
    if c.Connected? && c.session.activity.Waiting?
    then
      var preferences := SetPreferences(c.session, wanted);
      if preferences.Some? then preferences.value else Outcome(c, [])
    else Outcome(c, [])
  }

  // ---------- The component ----------

  class Qbittorrent {
    var client: Client

    constructor ()
      ensures client == Disabled
    {
      client := Disabled;
    }

    /** Merge an update: a full one replaces the list, changes are field by field, then removals. */
    method ApplyUpdate(s: Session, u: SyncUpdate) returns (merged: Session)
      ensures merged == Merged(s, u)
    {
      var torrents, listed := s.torrents, s.listed;
      if u.full {
        torrents, listed := map[], true;
      }
      var start := torrents;
      for i := 0 to |u.torrents|
        invariant torrents == Merge(start, u.torrents[..i])
      {
        var (hash, changes) := u.torrents[i];
        assert u.torrents[..i + 1][..i] == u.torrents[..i];
        torrents := torrents[hash := ApplyFields(Known(torrents, hash), changes)];
      }
      assert u.torrents[..|u.torrents|] == u.torrents;
      var all := torrents;
      for i := 0 to |u.removed|
        invariant torrents == Without(all, u.removed[..i])
      {
        assert u.removed[..i + 1][..i] == u.removed[..i];
        torrents := torrents - {u.removed[i]};
      }
      assert u.removed[..|u.removed|] == u.removed;
      merged := s.(torrents := torrents, listed := listed, position := u.position);
    }

    method HandleEvent(now: Clock, e: Event, timers: Timers) returns (actions: seq<Action>)
      modifies this, timers
      ensures Outcome(client, actions) == Handle(old(client), now, e, old(timers.next))
      ensures timers.next == old(timers.next) + if |actions| > 0 && actions[0].StartTimer? then 1 else 0
    {
      actions := [];
      var failure := match e
        case ConnectFailed(reason) => if client.Connecting? then Some(reason) else None
        case SyncFailed(reason) => Some(reason)
        case PreferencesReadFailed(reason) => Some(reason)
        case ListenPortSetFailed(reason) => Some(reason)
        case QueueSetFailed(reason) => Some(reason)
        case CommandFailed(reason) => Some(reason)
        case _ => None;
      if failure.Some? && (client.Connected? || (client.Connecting? && e.ConnectFailed?)) {
        var id, deadline := timers.Schedule(now.monotonic, POLL_INTERVAL);
        client := Unreachable(failure.value, id);
        return [StartTimer(id, deadline)];
      }
      if client.Disabled? && e.Enable? {
        client := Connecting;
        return [Connect];
      }
      if client.Connecting? && e.Connects? {
        client := Connected(Session(e.version, e.preferences, map[], Syncing, 0, false, 0));
        return [Sync(0)];
      }
      if client.Connected? {
        var s := client.session;
        if e.Synced? && s.activity.Syncing? {
          var merged := ApplyUpdate(s, e.update);
          client := Connected(merged.(pollsSincePreferences := s.pollsSincePreferences + 1,
            activity := Deciding(true)));
        } else if e.CommandDone? && s.activity.Commanding? {
          client := Connected(s.(activity := Deciding(false)));
        } else if e.PreferencesRead? && s.activity.ReadingPreferences? {
          var id, deadline := timers.Schedule(now.monotonic, POLL_INTERVAL);
          client := Connected(s.(preferences := e.preferences, pollsSincePreferences := 0, activity := Waiting(id)));
          actions := [StartTimer(id, deadline)];
        } else if (e.ListenPortSet? && s.activity.SettingListenPort?) || (e.QueueSet? && s.activity.SettingQueue?) {
          client := Connected(s.(activity := ReadingPreferences));
          actions := [ReadPreferences];
        }
      }
    }

    method TimerRang(id: nat) returns (actions: seq<Action>)
      modifies this
      ensures Outcome(client, actions) == TimerExpired(old(client), id)
    {
      actions := [];
      if client.Unreachable? && client.retry == id {
        client := Connecting;
        actions := [Connect];
      } else if client.Connected? && client.session.activity == Waiting(id) {
        client := Connected(client.session.(activity := Deciding(false)));
      }
    }

    method ChangePreferences(wanted: Wanted) returns (actions: Option<seq<Action>>)
      requires client.Connected?
      modifies this
      ensures match SetPreferences(old(client).session, wanted)
        case None => actions == None && client == old(client)
        case Some(o) => Outcome(client, if actions.Some? then actions.value else []) == o && actions.Some?
    {
      var s := client.session;
      if wanted.listenPort.Some? && s.preferences.listenPort != wanted.listenPort {
        client := Connected(s.(activity := SettingListenPort(wanted.listenPort.value)));
        return Some([SetListenPort(wanted.listenPort.value)]);
      }
      if wanted.queue.Some? && s.preferences.queue.Some? && s.preferences.queue != wanted.queue {
        client := Connected(s.(activity := SettingQueue));
        return Some([SetQueue(wanted.queue.value)]);
      }
      actions := None;
    }

    method ChooseNext(
        now: Clock, timers: Timers, wanted: Wanted, command: Option<R.Command>) returns (actions: seq<Action>)
      modifies this, timers
      ensures Outcome(client, actions) == Decide(old(client), now, wanted, command, old(timers.next))
      ensures !(client.Connected? && client.session.activity.Deciding?)
      ensures timers.next == old(timers.next) + if |actions| > 0 && actions[0].StartTimer? then 1 else 0
    {
      actions := [];
      if !client.Connected? || !client.session.activity.Deciding? {
        return;
      }
      var s := client.session;
      var changed := ChangePreferences(wanted);
      if changed.Some? {
        return changed.value;
      }
      if !s.activity.afterSync {
        client := Connected(s.(activity := Syncing));
        return [Sync(s.position)];
      }
      if command.Some? {
        client := Connected(s.(activity := Commanding));
        return [Apply(command.value)];
      }
      if s.pollsSincePreferences >= POLLS_PER_PREFERENCES_READ {
        client := Connected(s.(activity := ReadingPreferences));
        return [ReadPreferences];
      }
      var id, deadline := timers.Schedule(now.monotonic, POLL_INTERVAL);
      client := Connected(s.(activity := Waiting(id)));
      actions := [StartTimer(id, deadline)];
    }

    method Follow(wanted: Wanted) returns (actions: seq<Action>)
      modifies this
      ensures Outcome(client, actions) == FollowPreferences(old(client), wanted)
    {
      actions := [];
      if client.Connected? && client.session.activity.Waiting? {
        var changed := ChangePreferences(wanted);
        if changed.Some? { actions := changed.value; }
      }
    }
  }
}
