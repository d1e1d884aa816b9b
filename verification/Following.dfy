/**
 * qBittorrent followed over whole runs: the core's steps in their fixed order (handle, observe,
 * decide, follow preferences), the shell's requests and timer, the torrent registry, and a client
 * that answers each sync with a whole list or with the changes since a position it named.
 */
module Following {
  import opened Basics
  import opened Torrents
  import opened Replication
  import opened Polling
  import opened Wake
  import G = Registry
  import RegistryStore
  import R = Reconciliation

  type Records = G.Records

  /** A command as it was issued: with the registry, the session and the client's list of that moment. */
  datatype Issued = Issued(
    command: R.Command, permits: set<G.MamId>, registry: Records, session: Session, actual: Option<Listing>, at: Time)

  /**
   * `lists` keeps the client's list at each position it named in this session, and `coming` the one
   * behind an answer on its way; `issued` is every registry command; `said` holds the preferences the
   * client last told, and `polls` counts the lists received since.
   */
  datatype System = System(
    client: Client, env: Env<Action, Event>, registry: Option<Records>, lastCommand: Option<(R.Command, Time)>,
    lists: map<nat, Listing>, coming: Listing, issued: seq<Issued>, said: Option<Preferences>, polls: nat)

  /** What a core step is given besides its event; `order` is the order in which the session's torrents are visited. */
  datatype Moment = Moment(now: Clock, wanted: Wanted, permits: set<G.MamId>, order: seq<(Hash, Torrent)>)

  datatype Label =
    | Enables(m: Moment)
    | Finishes(op: nat, answer: Event, list: Listing)
    | Delivers(op: nat, m: Moment)
    | TimerRings
    | Expires(id: nat, m: Moment)
    | Elsewhere(registry: Option<Records>, ids: nat, m: Moment)

  // ---------- A step of the core ----------

  function Perform(env: Env<Action, Event>, actions: seq<Action>): Env<Action, Event> {
    if actions == [] then env
    else
      var before := Perform(env, actions[..|actions| - 1]);
      if actions[|actions| - 1].StartTimer? then Arm(before) else Launch(before, actions[|actions| - 1])
  }

  /** Every torrent of a list, in some order. */
  ghost function Enumerated(list: Listing): (all: seq<(Hash, Torrent)>)
    ensures G.Hashes(all) == list.Keys
    decreases |list|
  {
    if list == map[] then []
    else
      var h :| h in list;
      var rest := list - {h};
      assert list.Keys == rest.Keys + {h};
      assert |rest| < |list| by {
        assert |list.Keys| == |list| && |rest.Keys| == |rest|;
      }
      var all := [(h, list[h])] + Enumerated(rest);
      HashesCons((h, list[h]), Enumerated(rest));
      all
  }

  lemma HashesCons(first: (Hash, Torrent), rest: seq<(Hash, Torrent)>)
    ensures G.Hashes([first] + rest) == {first.0} + G.Hashes(rest)
  {
    var all := [first] + rest;
    forall h | h in G.Hashes(rest) ensures h in G.Hashes(all) {
      var i :| 0 <= i < |rest| && rest[i].0 == h;
      assert all[i + 1].0 == h;
    }
    assert all[0] == first;
  }

  /** This sequence holds each torrent of the list once. */
  ghost predicate Visits(order: seq<(Hash, Torrent)>, list: Listing) {
    && |order| == |list|
    && (forall i :: 0 <= i < |order| ==> order[i].0 in list && order[i].1 == list[order[i].0])
    && (forall h :: h in list ==> (h, list[h]) in order)
  }

  /** The torrents in the order given, if it is one. */
  ghost function InOrder(order: seq<(Hash, Torrent)>, list: Listing): (all: seq<(Hash, Torrent)>)
    ensures G.Hashes(all) == list.Keys
  {
    if Visits(order, list) then VisitsAll(order, list); order else Enumerated(list)
  }

  lemma VisitsAll(order: seq<(Hash, Torrent)>, list: Listing)
    requires Visits(order, list)
    ensures G.Hashes(order) == list.Keys
  {
    forall h | h in list ensures h in G.Hashes(order) {
      var i :| 0 <= i < |order| && order[i] == (h, list[h]);
      assert order[i].0 == h;
    }
  }

  /** A fresh, complete list is recorded in the registry before anything is decided. */
  ghost function Observed(y: System, m: Moment): System {
    if y.client.Connected? && y.client.session.activity == Deciding(true) && y.client.session.listed && y.registry.Some?
    then
      var seen := G.Observe(y.registry.value, m.now, InOrder(m.order, y.client.session.torrents));
      y.(registry := Some(G.Save(seen, m.now.monotonic).0))
    else y
  }

  /** The registry's command, if it is asked, has one, and did not give the same one moments ago. */
  function Asked(y: System, m: Moment): Option<R.Command> {
    if Consults(y.client, m.wanted) && y.client.session.listed && y.registry.Some?
    then
      var reg := y.registry.value;
      var command := R.Reconcile(G.Intents(reg), reg.nextId, y.client.session.torrents, m.permits);
      if command.Some? && y.lastCommand.Some? && y.lastCommand.value.0 == command.value
         && Since(m.now.monotonic, y.lastCommand.value.1) < R.COMMAND_REPEAT_AFTER
      then None else command
    else None
  }

  function ListAt(lists: map<nat, Listing>, position: nat): Option<Listing> {
    if position in lists then Some(lists[position]) else None
  }

  function Decided(y: System, m: Moment): System {
    var command := Asked(y, m);
    var o := Decide(y.client, m.now, m.wanted, command, y.env.next);
    y.(client := o.client, env := Perform(y.env, o.actions),
       lastCommand := if command.Some? then Some((command.value, m.now.monotonic)) else y.lastCommand,
       issued := if command.None? || !y.client.Connected? || y.registry.None? then y.issued
                 else y.issued + [Issued(command.value, m.permits, y.registry.value, y.client.session,
                                         ListAt(y.lists, y.client.session.position), m.now.monotonic)])
  }

  function Followed(y: System, m: Moment): System {
    var o := FollowPreferences(y.client, m.wanted);
    y.(client := o.client, env := Perform(y.env, o.actions))
  }

  function Handled(y: System, o: Outcome): System {
    y.(client := o.client, env := Perform(y.env, o.actions))
  }

  /** The rest of a step once its event is handled. */
  ghost function Concluded(y: System, m: Moment): System {
    Followed(Decided(Observed(y, m), m), m)
  }

  // ---------- Runs ----------

  predicate AnswerOf(op: Action, e: Event) {
    match op
    case Connect => e.Connects? || e.ConnectFailed?
    case Sync(_) => e.Synced? || e.SyncFailed?
    case ReadPreferences => e.PreferencesRead? || e.PreferencesReadFailed?
    case SetListenPort(_) => e.ListenPortSet? || e.ListenPortSetFailed?
    case SetQueue(_) => e.QueueSet? || e.QueueSetFailed?
    case Apply(_) => e.CommandDone? || e.CommandFailed?
    case StartTimer(_, _) => false
  }

  /**
   * A sync is answered from the client's list now: whole, or as changes since the position asked
   * for. Positions may be named again, and changes since one never named may say anything.
   */
  ghost predicate CanAnswer(lists: map<nat, Listing>, op: Action, e: Event, list: Listing) {
    && AnswerOf(op, e)
    && (op.Sync? && e.Synced? ==>
          && (e.update.full ==> Describes(map[], list, e.update.torrents, e.update.removed))
          && (!e.update.full && op.position in lists ==>
                Describes(lists[op.position], list, e.update.torrents, e.update.removed)))
  }

  /** The answer is taken off the queue; a new session's client numbers its positions afresh. */
  function Received(y: System, i: nat): System
    requires i < |y.env.ops| && y.env.ops[i].Answered?
  {
    var e := y.env.ops[i].answer;
    y.(env := Taken(y.env, i),
       lists := if e.Connects? then map[] else if e.Synced? then y.lists[e.update.position := y.coming] else y.lists,
       said := if e.Connects? || e.PreferencesRead? then Some(e.preferences) else y.said,
       polls := if e.Connects? || e.PreferencesRead? then 0 else if e.Synced? then y.polls + 1 else y.polls)
  }

  ghost function Step(y: System, l: Label): System {
    match l
    case Enables(m) => Concluded(Handled(y, Handle(y.client, m.now, Enable, y.env.next)), m)
    case Finishes(i, answer, list) =>
      if i < |y.env.ops| && y.env.ops[i].Running? && CanAnswer(y.lists, y.env.ops[i].op, answer, list)
      then y.(env := Finish(y.env, i, answer), coming := if answer.Synced? then list else y.coming)
      else y
    case Delivers(i, m) =>
      if i < |y.env.ops| && y.env.ops[i].Answered?
      then Concluded(Handled(Received(y, i), Handle(y.client, m.now, y.env.ops[i].answer, y.env.next)), m)
      else y
    case TimerRings => y.(env := Ring(y.env))
    case Expires(id, m) =>
      if id in y.env.rung then Concluded(Handled(y.(env := Heard(y.env, id)), TimerExpired(y.client, id)), m) else y
    case Elsewhere(registry, ids, m) =>
      if registry.Some? && !G.Inv(registry.value) then y
      else Concluded(y.(registry := registry, env := Spend(y.env, ids)), m)
  }

  const START: System := System(Disabled, Idle(), None, None, map[], map[], [], None, 0)

  ghost function Run(labels: seq<Label>): System {
    if labels == [] then START else Step(Run(labels[..|labels| - 1]), labels[|labels| - 1])
  }

  // ---------- One thing in flight ----------

  /** The request a session's activity stands for. */
  predicate Stands(s: Session, op: Action) {
    match s.activity
    case Syncing => op == Sync(s.position)
    case ReadingPreferences => op.ReadPreferences?
    case SettingListenPort(port) => op == SetListenPort(port)
    case SettingQueue => op.SetQueue?
    case Commanding => op.Apply?
    case _ => false
  }

  predicate Answers(s: Session, e: Event) {
    match s.activity
    case Syncing => e.Synced? || e.SyncFailed?
    case ReadingPreferences => e.PreferencesRead? || e.PreferencesReadFailed?
    case SettingListenPort(_) => e.ListenPortSet? || e.ListenPortSetFailed?
    case SettingQueue => e.QueueSet? || e.QueueSetFailed?
    case Commanding => e.CommandDone? || e.CommandFailed?
    case _ => false
  }

  /** Exactly one thing wakes polling; within a step nothing does while the next request is being chosen. */
  ghost predicate Woken(c: Client, env: Env<Action, Event>) {
    match c
    case Disabled => env.ops == []
    case Connecting =>
        |env.ops| == 1
        && (if env.ops[0].Running? then env.ops[0].op == Connect else AnswerOf(Connect, env.ops[0].answer))
    case Unreachable(_, retry) => env.ops == [] && Rings(env, retry)
    case Connected(s) =>
      if s.activity.Waiting? then env.ops == [] && Rings(env, s.activity.timer)
      else if s.activity.Deciding? then env.ops == []
      else |env.ops| == 1 && (if env.ops[0].Running? then Stands(s, env.ops[0].op) else Answers(s, env.ops[0].answer))
  }

  predicate Choosing(c: Client) {
    c.Connected? && c.session.activity.Deciding?
  }

  ghost predicate OneInFlight(y: System) {
    Woken(y.client, y.env) && !Choosing(y.client)
  }

  // ---------- Replication ----------

  /** Once listed, the session's torrents are the client's list at the session's position. */
  ghost predicate Replica(y: System) {
    y.client.Connected? && y.client.session.listed ==>
      y.client.session.position in y.lists && y.client.session.torrents == y.lists[y.client.session.position]
  }

  /** An update on its way takes the session to the client's list at the position it names. */
  ghost predicate UpdateFits(y: System) {
    y.client.Connected? && y.client.session.activity.Syncing? && y.env.ops != [] && y.env.ops[0].Answered?
      && y.env.ops[0].answer.Synced? ==>
      var u := y.env.ops[0].answer.update;
      u.full || y.client.session.listed ==> Applied(y.client.session.torrents, u) == y.coming
  }

  // ---------- Fresh facts ----------

  /**
   * A command rests on fresh facts: the step merged an update into a complete list, that list is the
   * client's own, every torrent in it has its registry row, and the command is the change reconciliation finds.
   */
  ghost predicate RestsOnFreshFacts(i: Issued) {
    && i.session.activity == Deciding(true) && i.session.listed
    && i.actual == Some(i.session.torrents)
    && (forall h :: h in i.session.torrents ==>
          h in i.registry.byHash && i.registry.byHash[h] in i.registry.entries
          && i.registry.entries[i.registry.byHash[h]].record.identity.HashOf() == Some(h))
    && R.Reconcile(G.Intents(i.registry), i.registry.nextId, i.session.torrents, i.permits) == Some(i.command)
  }

  ghost predicate AllFresh(issued: seq<Issued>) {
    forall k :: 0 <= k < |issued| ==> RestsOnFreshFacts(issued[k])
  }

  ghost predicate Inv(y: System) {
    && KnownIds(y.env) && OneInFlight(y) && Replica(y) && UpdateFits(y)
    && (y.registry.Some? ==> G.Inv(y.registry.value)) && AllFresh(y.issued)
  }

  /** What holds within a step, after its event: the same, save that a request may be being chosen. */
  ghost predicate Mid(y: System) {
    && KnownIds(y.env) && Woken(y.client, y.env) && Replica(y) && UpdateFits(y)
    && (y.registry.Some? ==> G.Inv(y.registry.value)) && AllFresh(y.issued)
  }

  /** Before a decision on a fresh, complete list, every torrent in it has a row. */
  ghost predicate RowsKnown(y: System) {
    y.client.Connected? && y.client.session.activity == Deciding(true) && y.client.session.listed
      && y.registry.Some? ==>
      y.client.session.torrents.Keys <= y.registry.value.byHash.Keys
  }

  lemma RegistryObserves(s: Records, now: Clock, all: seq<(Hash, Torrent)>, list: Listing)
    requires G.Inv(s) && G.Hashes(all) == list.Keys
    ensures var t := G.Save(G.Observe(s, now, all), now.monotonic).0;
      G.Inv(t) && list.Keys <= t.byHash.Keys
  {
    G.ObserveKeeps(s, now, all);
    var seen := G.Observe(s, now, all);
    hide G.Inv, G.Observe, G.Hashes;
    RegistryStore.SaveSends(seen, now.monotonic);
    SaveKeepsIndex(seen, now.monotonic);
    hide G.Save, G.Intents;
  }

  lemma ObservedKeeps(y: System, m: Moment)
    requires Mid(y)
    ensures Mid(Observed(y, m)) && RowsKnown(Observed(y, m)) && Observed(y, m).client == y.client
  {
    hide AllFresh, G.Inv, G.Observe, InOrder, G.Save;
    if y.client.Connected? && y.client.session.activity == Deciding(true) && y.client.session.listed && y.registry.Some?
    {
      var list := y.client.session.torrents;
      RegistryObserves(y.registry.value, m.now, InOrder(m.order, list), list);
    }
  }

  lemma SaveKeepsIndex(s: Records, now: Time)
    ensures G.Save(s, now).0.byHash == s.byHash
  {
  }

  lemma PerformOne(env: Env<Action, Event>, a: Action)
    ensures Perform(env, []) == env
    ensures Perform(env, [a]) == if a.StartTimer? then Arm(env) else Launch(env, a)
  {
    assert [a][..0] == [];
  }

  lemma SetPreferencesWakes(s: Session, env: Env<Action, Event>, wanted: Wanted)
    requires KnownIds(env) && env.ops == [] && SetPreferences(s, wanted).Some?
    ensures var o := SetPreferences(s, wanted).value;
      KnownIds(Perform(env, o.actions)) && Woken(o.client, Perform(env, o.actions)) && !Choosing(o.client)
  {
    PerformOne(env, SetPreferences(s, wanted).value.actions[0]);
    hide Perform;
  }

  /** Choosing the next request always ends, with exactly that request in flight or a timer started. */
  lemma DecideWakes(c: Client, env: Env<Action, Event>, m: Moment, command: Option<R.Command>)
    requires KnownIds(env) && Woken(c, env)
    ensures var o := Decide(c, m.now, m.wanted, command, env.next);
      KnownIds(Perform(env, o.actions)) && Woken(o.client, Perform(env, o.actions)) && !Choosing(o.client)
  {
    var o := Decide(c, m.now, m.wanted, command, env.next);
    if !Choosing(c) {
      PerformOne(env, Connect);
      hide Perform;
    } else if SetPreferences(c.session, m.wanted).Some? {
      SetPreferencesWakes(c.session, env, m.wanted);
    } else {
      PerformOne(env, o.actions[0]);
      hide Perform, SetPreferences;
    }
  }

  lemma FollowWakes(c: Client, env: Env<Action, Event>, m: Moment)
    requires KnownIds(env) && Woken(c, env) && !Choosing(c)
    ensures var o := FollowPreferences(c, m.wanted);
      KnownIds(Perform(env, o.actions)) && Woken(o.client, Perform(env, o.actions)) && !Choosing(o.client)
  {
    var o := FollowPreferences(c, m.wanted);
    if o.actions == [] { PerformOne(env, Connect); } else { PerformOne(env, o.actions[0]); }
    hide Perform;
  }

  /** Deciding and following preferences change neither the list nor its position. */
  predicate SameList(a: Client, b: Client) {
    a.Connected? && b.Connected? && a.session.torrents == b.session.torrents
    && a.session.position == b.session.position && a.session.listed == b.session.listed
  }

  lemma IssuedIsFresh(y: System, m: Moment)
    requires Mid(y) && RowsKnown(y)
    ensures AllFresh(Decided(y, m).issued)
  {
    var command := Asked(y, m);
    if command.Some? {
      var reg := y.registry.value;
      var session := y.client.session;
      var i := Issued(command.value, m.permits, reg, session, ListAt(y.lists, session.position), m.now.monotonic);
      assert RestsOnFreshFacts(i) by {
        hide AllFresh, UpdateFits, Woken, KnownIds;
        forall h | h in session.torrents
          ensures h in reg.byHash && reg.byHash[h] in reg.entries
                  && reg.entries[reg.byHash[h]].record.identity.HashOf() == Some(h)
        {
          RowOfHash(reg, h);
        }
      }
      hide RestsOnFreshFacts;
    }
  }

  lemma RowOfHash(reg: Records, h: Hash)
    requires G.Inv(reg) && h in reg.byHash
    ensures reg.byHash[h] in reg.entries && reg.entries[reg.byHash[h]].record.identity.HashOf() == Some(h)
  {
    assert reg.byHash[h] in G.Intents(reg);
  }

  lemma DecidedKeeps(y: System, m: Moment)
    requires Mid(y) && RowsKnown(y)
    ensures Mid(Decided(y, m)) && !Choosing(Decided(y, m).client)
  {
    var z := Decided(y, m);
    IssuedIsFresh(y, m);
    DecideWakes(y.client, y.env, m, Asked(y, m));
    hide AllFresh, KnownIds, RowsKnown, Asked;
    if Choosing(y.client) {
      var o := Decide(y.client, m.now, m.wanted, Asked(y, m), y.env.next);
      PerformOne(y.env, o.actions[0]);
      assert SameList(y.client, z.client);
      assert z.env.ops == [] || z.env.ops[0].Running?;
      hide Woken, Perform, Decide;
    } else {
      PerformOne(y.env, Connect);
      hide Woken, Perform;
    }
  }

  lemma FollowedKeeps(y: System, m: Moment)
    requires Mid(y) && !Choosing(y.client)
    ensures Inv(Followed(y, m))
  {
    var z := Followed(y, m);
    FollowWakes(y.client, y.env, m);
    hide AllFresh, KnownIds;
    var o := FollowPreferences(y.client, m.wanted);
    if o.actions == [] {
      PerformOne(y.env, Connect);
    } else {
      PerformOne(y.env, o.actions[0]);
      assert SameList(y.client, z.client);
    }
    hide Perform;
  }

  lemma ConcludedKeeps(y: System, m: Moment)
    requires Mid(y)
    ensures Inv(Concluded(y, m))
  {
    ObservedKeeps(y, m);
    DecidedKeeps(Observed(y, m), m);
    FollowedKeeps(Decided(Observed(y, m), m), m);
  }

  // ---------- Events ----------

  /** An answer the client's state waits for. */
  lemma AnswerWakes(c: Client, env: Env<Action, Event>, now: Clock)
    requires KnownIds(env) && Woken(c, env) && |env.ops| == 1 && env.ops[0].Answered?
    ensures var o := Handle(c, now, env.ops[0].answer, env.next);
      KnownIds(Perform(Taken(env, 0), o.actions)) && Woken(o.client, Perform(Taken(env, 0), o.actions))
  {
    var o := Handle(c, now, env.ops[0].answer, env.next);
    var taken := Taken(env, 0);
    assert taken.ops == [];
    if o.actions == [] { PerformOne(taken, Connect); } else { PerformOne(taken, o.actions[0]); }
    hide Perform, Merged;
  }

  /** Merging the update that was on its way leaves the client's list at the position it names. */
  lemma SyncedKeeps(y: System, now: Clock)
    requires Inv(y) && |y.env.ops| == 1 && y.env.ops[0].Answered? && y.env.ops[0].answer.Synced?
    ensures Mid(Handled(Received(y, 0), Handle(y.client, now, y.env.ops[0].answer, y.env.next)))
  {
    AnswerWakes(y.client, y.env, now);
    hide AllFresh, KnownIds, G.Inv, Perform;
    assert y.client.Connected? && y.client.session.activity.Syncing? by {
      hide Replica, UpdateFits;
    }
    hide Woken, Applied;
  }

  /** Any other answer keeps the list, or starts a session that has none yet. */
  lemma OtherAnswerList(c: Client, now: Clock, e: Event, id: nat)
    requires !e.Synced? && !e.Enable?
    ensures var o := Handle(c, now, e, id);
      && |o.actions| <= 1
      && (o.client.Connected? ==> SameList(c, o.client) || !o.client.session.listed)
  {
    hide Merged;
  }

  lemma OtherAnswerKeeps(y: System, now: Clock)
    requires Inv(y) && |y.env.ops| == 1 && y.env.ops[0].Answered? && !y.env.ops[0].answer.Synced?
    ensures Mid(Handled(Received(y, 0), Handle(y.client, now, y.env.ops[0].answer, y.env.next)))
  {
    AnswerWakes(y.client, y.env, now);
    var e, taken := y.env.ops[0].answer, Taken(y.env, 0);
    assert taken.ops == [] && !e.Enable?;
    var o := Handle(y.client, now, e, y.env.next);
    OtherAnswerList(y.client, now, e, y.env.next);
    if o.actions == [] {
      PerformOne(taken, Connect);
    } else {
      PerformOne(taken, o.actions[0]);
      assert o.actions == [o.actions[0]];
    }
    hide Handle, Woken, KnownIds, AllFresh, G.Inv, Perform, Applied;
  }

  lemma ExpiryKeeps(y: System, id: nat)
    requires Inv(y) && id in y.env.rung
    ensures Mid(Handled(y.(env := Heard(y.env, id)), TimerExpired(y.client, id)))
  {
    hide AllFresh, G.Inv;
    var heard := Heard(y.env, id);
    var o := TimerExpired(y.client, id);
    PerformOne(heard, Connect);
    hide Perform, Applied;
  }

  lemma EnableKeeps(y: System, now: Clock)
    requires Inv(y)
    ensures Mid(Handled(y, Handle(y.client, now, Enable, y.env.next)))
  {
    hide AllFresh, G.Inv;
    PerformOne(y.env, Connect);
    hide Perform, Applied;
  }

  lemma FinishKeeps(y: System, i: nat, answer: Event, list: Listing)
    requires Inv(y) && i < |y.env.ops| && y.env.ops[i].Running? && CanAnswer(y.lists, y.env.ops[i].op, answer, list)
    ensures Inv(Step(y, Finishes(i, answer, list)))
  {
    var z := Step(y, Finishes(i, answer, list));
    hide AllFresh, G.Inv;
    assert i == 0 && z.env.ops == [Answered(answer)];
    if answer.Synced? {
      var s := y.client.session;
      assert s.activity.Syncing? && y.env.ops[0].op == Sync(s.position);
      var u := answer.update;
      if u.full {
        UpdateRefinesListing(map[], list, u.torrents, u.removed);
      } else if s.listed {
        UpdateRefinesListing(s.torrents, list, u.torrents, u.removed);
      }
      hide Describes, Merge, Without;
    }
  }

  lemma StepKeeps(y: System, l: Label)
    requires Inv(y)
    ensures Inv(Step(y, l))
  {
    match l
    case Enables(m) =>
      EnableKeeps(y, m.now);
      ConcludedKeeps(Handled(y, Handle(y.client, m.now, Enable, y.env.next)), m);
    case Finishes(i, answer, list) =>
      if i < |y.env.ops| && y.env.ops[i].Running? && CanAnswer(y.lists, y.env.ops[i].op, answer, list) {
        FinishKeeps(y, i, answer, list);
      }
    case Delivers(i, m) =>
      if i < |y.env.ops| && y.env.ops[i].Answered? {
        if y.env.ops[0].answer.Synced? { SyncedKeeps(y, m.now); } else { OtherAnswerKeeps(y, m.now); }
        ConcludedKeeps(Handled(Received(y, i), Handle(y.client, m.now, y.env.ops[i].answer, y.env.next)), m);
      }
    case TimerRings => RingKeeps(y);
    case Expires(id, m) =>
      if id in y.env.rung {
        ExpiryKeeps(y, id);
        ConcludedKeeps(Handled(y.(env := Heard(y.env, id)), TimerExpired(y.client, id)), m);
      }
    case Elsewhere(registry, ids, m) =>
      if !(registry.Some? && !G.Inv(registry.value)) {
        SpendKeeps(y, registry, ids);
        ConcludedKeeps(y.(registry := registry, env := Spend(y.env, ids)), m);
      }
  }

  lemma RingKeeps(y: System)
    requires Inv(y)
    ensures Inv(y.(env := Ring(y.env)))
  {
    hide AllFresh, G.Inv, Applied;
  }

  lemma SpendKeeps(y: System, registry: Option<Records>, ids: nat)
    requires Inv(y) && (registry.Some? ==> G.Inv(registry.value))
    ensures Mid(y.(registry := registry, env := Spend(y.env, ids)))
  {
    hide AllFresh, G.Inv, Applied;
  }

  lemma {:induction false} RunKeeps(labels: seq<Label>)
    ensures Inv(Run(labels))
  {
    if labels != [] {
      hide Step, Inv;
      RunKeeps(labels[..|labels| - 1]);
      StepKeeps(Run(labels[..|labels| - 1]), labels[|labels| - 1]);
    }
  }

  // ---------- Main results ----------

  /** In every reachable state exactly one thing wakes polling, its answer fits, and no choice is left open. */
  lemma PollingIsAlwaysWoken(labels: seq<Label>)
    ensures OneInFlight(Run(labels))
  {
    RunKeeps(labels);
  }

  /** Once the whole list has arrived, the session's torrents are the client's list at the stored position. */
  lemma SessionMirrorsClient(labels: seq<Label>)
    ensures Replica(Run(labels))
  {
    RunKeeps(labels);
  }

  /** Every command ever issued rested on fresh facts. */
  lemma CommandsRestOnFreshFacts(labels: seq<Label>, k: nat)
    requires k < |Run(labels).issued|
    ensures RestsOnFreshFacts(Run(labels).issued[k])
  {
    RunKeeps(labels);
  }

  lemma NoCommandUnlessFresh(y: System, m: Moment)
    requires !(y.client.Connected? && y.client.session.activity == Deciding(true))
    ensures Concluded(y, m).issued == y.issued
  {
  }

  lemma DecidingFreshMeansMerged(c: Client, now: Clock, e: Event, id: nat)
    requires !Choosing(c) && Handle(c, now, e, id).client.Connected?
      && Handle(c, now, e, id).client.session.activity == Deciding(true)
    ensures e.Synced? && c.Connected?
    ensures var s := Handle(c, now, e, id).client.session;
      s.torrents == Applied(c.session.torrents, e.update) && s.position == e.update.position
  {
  }

  lemma OneCommandAStep(y: System, m: Moment)
    ensures Concluded(y, m).issued == y.issued
      || (y.client.Connected? && |Concluded(y, m).issued| == |y.issued| + 1
          && Concluded(y, m).issued[|y.issued|].session == y.client.session)
  {
  }

  lemma OnlyAnswersIssueCommands(y: System, l: Label)
    requires !Choosing(y.client) && !l.Delivers?
    ensures Step(y, l).issued == y.issued
  {
    hide Concluded;
    match l
    case Enables(m) => NoCommandUnlessFresh(Handled(y, Handle(y.client, m.now, Enable, y.env.next)), m);
    case Finishes(_, _, _) =>
    case TimerRings =>
    case Expires(id, m) => NoCommandUnlessFresh(Handled(y.(env := Heard(y.env, id)), TimerExpired(y.client, id)), m);
    case Elsewhere(registry, ids, m) => NoCommandUnlessFresh(y.(registry := registry, env := Spend(y.env, ids)), m);
  }

  /** From `y` to `z` one command was issued, on the list that merging the answer this step delivered gives. */
  ghost predicate MergedForCommand(y: System, l: Label, z: System) {
    && l.Delivers? && l.op < |y.env.ops| && y.env.ops[l.op].Answered? && y.env.ops[l.op].answer.Synced?
    && y.client.Connected? && |z.issued| == |y.issued| + 1
    && z.issued[|y.issued|].session.torrents == Applied(y.client.session.torrents, y.env.ops[l.op].answer.update)
    && z.issued[|y.issued|].session.position == y.env.ops[l.op].answer.update.position
  }

  /** A step that issues a command is the one that merges an update: the command's list is that merge. */
  lemma CommandsFollowASync(labels: seq<Label>, l: Label)
    ensures Step(Run(labels), l).issued == Run(labels).issued || MergedForCommand(Run(labels), l, Step(Run(labels), l))
  {
    var y := Run(labels);
    RunKeeps(labels);
    assert !Choosing(y.client);
    hide Inv, Run, Concluded;
    if !l.Delivers? {
      OnlyAnswersIssueCommands(y, l);
    } else if l.op < |y.env.ops| && y.env.ops[l.op].Answered? {
      var i, m := l.op, l.m;
      var o := Handle(y.client, m.now, y.env.ops[i].answer, y.env.next);
      var handled := Handled(Received(y, i), o);
      OneCommandAStep(handled, m);
      if !(o.client.Connected? && o.client.session.activity == Deciding(true)) {
        NoCommandUnlessFresh(handled, m);
      } else {
        DecidingFreshMeansMerged(y.client, m.now, y.env.ops[i].answer, y.env.next);
        hide Handle, Applied;
      }
    }
  }

  /** The timer whose expiry polls or reconnects. */
  predicate Current(c: Client, id: nat) {
    (c.Unreachable? && c.retry == id) || (c.Connected? && c.session.activity == Waiting(id))
  }

  lemma HandleKeepsObsolete(c: Client, now: Clock, e: Event, id: nat, next: nat)
    requires id < next && !Current(c, id)
    ensures !Current(Handle(c, now, e, next).client, id)
  {
    hide Merged;
  }

  lemma PerformGrows(env: Env<Action, Event>, actions: seq<Action>)
    ensures env.next <= Perform(env, actions).next
  {
  }

  lemma DecideKeepsObsolete(c: Client, m: Moment, command: Option<R.Command>, id: nat, next: nat)
    requires id < next && !Current(c, id)
    ensures !Current(Decide(c, m.now, m.wanted, command, next).client, id)
  {
  }

  lemma FollowKeepsObsolete(c: Client, wanted: Wanted, id: nat)
    requires !Current(c, id)
    ensures !Current(FollowPreferences(c, wanted).client, id)
  {
  }

  lemma ConcludedKeepsObsolete(y: System, m: Moment, id: nat)
    requires id < y.env.next && !Current(y.client, id)
    ensures y.env.next <= Concluded(y, m).env.next && !Current(Concluded(y, m).client, id)
  {
    var seen := Observed(y, m);
    assert seen.client == y.client && seen.env == y.env;
    hide Observed, Asked, Perform, Decide, FollowPreferences, Current;
    var o := Decide(seen.client, m.now, m.wanted, Asked(seen, m), seen.env.next);
    DecideKeepsObsolete(seen.client, m, Asked(seen, m), id, seen.env.next);
    PerformGrows(seen.env, o.actions);
    var decided := Decided(seen, m);
    FollowKeepsObsolete(decided.client, m.wanted, id);
    PerformGrows(decided.env, FollowPreferences(decided.client, m.wanted).actions);
  }

  lemma StepKeepsObsolete(y: System, l: Label, id: nat, bound: nat)
    requires id < bound <= y.env.next && !Current(y.client, id)
    ensures bound <= Step(y, l).env.next && !Current(Step(y, l).client, id)
  {
    hide Concluded;
    match l
    case Enables(m) =>
      var o := Handle(y.client, m.now, Enable, y.env.next);
      HandleKeepsObsolete(y.client, m.now, Enable, id, y.env.next);
      PerformGrows(y.env, o.actions);
      ConcludedKeepsObsolete(Handled(y, o), m, id);
    case Delivers(i, m) =>
      if i < |y.env.ops| && y.env.ops[i].Answered? {
        var o := Handle(y.client, m.now, y.env.ops[i].answer, y.env.next);
        HandleKeepsObsolete(y.client, m.now, y.env.ops[i].answer, id, y.env.next);
        PerformGrows(Received(y, i).env, o.actions);
        ConcludedKeepsObsolete(Handled(Received(y, i), o), m, id);
      }
    case Expires(other, m) =>
      if other in y.env.rung {
        var o := TimerExpired(y.client, other);
        PerformGrows(Heard(y.env, other), o.actions);
        ConcludedKeepsObsolete(Handled(y.(env := Heard(y.env, other)), o), m, id);
      }
    case Elsewhere(registry, ids, m) =>
      if !(registry.Some? && !G.Inv(registry.value)) {
        ConcludedKeepsObsolete(y.(registry := registry, env := Spend(y.env, ids)), m, id);
      }
    case _ =>
  }

  lemma {:induction false} RunKeepsObsolete(labels: seq<Label>, more: seq<Label>, id: nat)
    requires id < Run(labels).env.next && !Current(Run(labels).client, id)
    ensures Run(labels).env.next <= Run(labels + more).env.next && !Current(Run(labels + more).client, id)
  {
    hide Step, Current;
    if more == [] {
      assert labels + more == labels;
    } else {
      var init, last := more[..|more| - 1], more[|more| - 1];
      RunKeepsObsolete(labels, init, id);
      assert (labels + more)[..|labels + more| - 1] == labels + init;
      StepKeepsObsolete(Run(labels + init), last, id, Run(labels).env.next);
    }
  }

  lemma ObsoleteIsQuiet(z: System, id: nat, m: Moment)
    requires id in z.env.rung && !Current(z.client, id) && (z.registry.Some? ==> G.Inv(z.registry.value))
    ensures Step(z, Expires(id, m)) == Step(z.(env := Heard(z.env, id)), Elsewhere(z.registry, 0, m))
  {
    assert Handled(z.(env := Heard(z.env, id)), TimerExpired(z.client, id)) == z.(env := Spend(Heard(z.env, id), 0));
    hide Concluded, G.Inv;
  }

  /**
   * A queued expiry of any timer but the current one stays obsolete: whatever happens before it is
   * heard, hearing it is a step in which nothing happened to polling.
   */
  lemma ObsoleteExpiryChangesNothing(labels: seq<Label>, more: seq<Label>, id: nat, m: Moment)
    requires id in Run(labels).env.rung && !Current(Run(labels).client, id)
    ensures var z := Run(labels + more);
      && !Current(z.client, id)
      && (id in z.env.rung ==>
          Step(z, Expires(id, m)) == Step(z.(env := Heard(z.env, id)), Elsewhere(z.registry, 0, m)))
  {
    RunKeeps(labels);
    RunKeeps(labels + more);
    var z := Run(labels + more);
    assert KnownIds(Run(labels).env) && (z.registry.Some? ==> G.Inv(z.registry.value));
    hide Inv, G.Inv, Step, Current;
    RunKeepsObsolete(labels, more, id);
    hide Run;
    if id in z.env.rung { ObsoleteIsQuiet(z, id, m); }
  }
}
