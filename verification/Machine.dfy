/** The part of the core's step that joins its components: observe, decide, and follow preferences. */
module Machine {
  import opened Basics
  import opened Timer
  import opened Torrents
  import opened Polling
  import opened TorrentRegistry
  import G = Registry
  import R = Reconciliation
  import F = Following
  import Wake

  /** The torrents of a list, each once. */
  method Enumerate(list: Listing) returns (all: seq<(Hash, Torrent)>)
    ensures |all| == |list|
    ensures forall i :: 0 <= i < |all| ==> all[i].0 in list && all[i].1 == list[all[i].0]
    ensures forall h :: h in list ==> (h, list[h]) in all
  {
    all := [];
    var left := list.Keys;
    while left != {}
      invariant left <= list.Keys && |all| + |left| == |list|
      invariant forall i :: 0 <= i < |all| ==> all[i].0 in list && all[i].1 == list[all[i].0]
      invariant forall h :: h in list && h !in left ==> (h, list[h]) in all
      decreases |left|
    {
      var h :| h in left;
      all := all + [(h, list[h])];
      left := left - {h};
    }
  }

  class Core {
    const qbittorrent: Qbittorrent
    const records: TorrentRecords
    const timers: Timers
    /** Whether the registry has been read. */
    var loaded: bool

    /** A core whose registry was read from these rows. */
    constructor (rows: seq<G.Record>)
      ensures fresh(qbittorrent) && fresh(records) && fresh(timers)
      ensures qbittorrent.client == Disabled && records.View() == G.Load(rows) && loaded
    {
      qbittorrent := new Qbittorrent();
      records := new TorrentRecords(rows);
      timers := new Timers();
      loaded := true;
    }

    ghost predicate Fresh()
      reads qbittorrent
    {
      && qbittorrent.client.Connected? && qbittorrent.client.session.activity == Deciding(true)
      && qbittorrent.client.session.listed
    }

    /** The core's part of this state of a run is what these objects hold. */
    ghost predicate Shows(y: F.System)
      reads this, qbittorrent, records, timers
    {
      && y.client == qbittorrent.client
      && y.registry == (if loaded then Some(records.View()) else None)
      && y.lastCommand == records.lastCommand
      && y.env.next == timers.next
    }

    /** Before a decision on a fresh, complete list, its torrents are recorded; otherwise nothing is. */
    method ObserveSession(now: Clock, wanted: Wanted, permits: set<G.MamId>, ghost y: F.System)
      returns (listing: seq<(Hash, Torrent)>, batch: Option<seq<G.Record>>)
      requires Shows(y)
      modifies records
      ensures Shows(F.Observed(y, F.Moment(now, wanted, permits, listing)))
      ensures !(Fresh() && loaded) ==> batch == None && records.View() == old(records.View())
      ensures Fresh() && loaded ==>
        && (records.View(), batch) == G.Save(G.Observe(old(records.View()), now, listing), now.monotonic)
        && F.Visits(listing, qbittorrent.client.session.torrents)
      ensures records.lastCommand == old(records.lastCommand)
    {
      hide G.Observe, G.Save, F.Enumerated;
      listing, batch := [], None;
      if loaded && qbittorrent.client.Connected? && qbittorrent.client.session.activity == Deciding(true)
         && qbittorrent.client.session.listed
      {
        listing := Enumerate(qbittorrent.client.session.torrents);
        assert F.InOrder(listing, qbittorrent.client.session.torrents) == listing;
        hide F.InOrder, F.Visits;
        batch := records.ObserveTorrents(now, listing);
      }
    }

    /** The registry's command, if this choice comes to asking for one. */
    method AskRegistry(m: F.Moment, ghost y: F.System) returns (command: Option<R.Command>)
      requires Shows(y)
      modifies records`lastCommand
      ensures command == F.Asked(y, m)
      ensures records.lastCommand == if command.Some?
        then Some((command.value, m.now.monotonic)) else old(records.lastCommand)
    {
      command := None;
      if loaded && Consults(qbittorrent.client, m.wanted) && qbittorrent.client.session.listed {
        command := records.NextCommand(m.now.monotonic, qbittorrent.client.session.torrents, m.permits);
      }
      hide R.Reconcile;
    }

    /** Choose and follow: a command is asked of the registry only on a fresh, complete list. */
    method DecideQbittorrent(m: F.Moment, ghost y: F.System) returns (actions: seq<Action>)
      requires Shows(y)
      modifies qbittorrent, timers, records`lastCommand
      ensures var z := F.Followed(F.Decided(y, m), m); Shows(z) && z.env == F.Perform(y.env, actions)
      ensures !(qbittorrent.client.Connected? && qbittorrent.client.session.activity.Deciding?)
      ensures records.View() == old(records.View())
      ensures forall a :: a in actions && a.Apply? ==> F.Asked(y, m) == Some(a.command)
    {
      hide F.Asked, R.Reconcile;
      var command := AskRegistry(m, y);
      DecidedParts(y, m);
      ShortDecisions(y.client, m, command, y.env.next);
      ghost var decided := F.Decided(y, m);
      FollowedParts(decided, m);
      ShortFollow(decided.client, m.wanted);
      hide F.Decided, F.Followed, F.Perform, Decide, FollowPreferences;
      var chosen := qbittorrent.ChooseNext(m.now, timers, m.wanted, command);
      PerformShort(y.env, chosen);
      assert Shows(decided);
      assert !F.Choosing(decided.client);
      var followed := qbittorrent.Follow(m.wanted);
      assert !F.Choosing(qbittorrent.client);
      assert followed != [] ==> followed[0] in followed;
      PerformShort(decided.env, followed);
      PerformAppend(y.env, chosen, followed);
      OnlyTheAsked(chosen, followed, command);
      actions := chosen + followed;
    }

    /** The end of a core step is the step's conclusion in every run: observe, decide, then follow preferences. */
    method ConcludeStep(now: Clock, wanted: Wanted, permits: set<G.MamId>, ghost y: F.System)
      returns (listing: seq<(Hash, Torrent)>, batch: Option<seq<G.Record>>, actions: seq<Action>)
      requires Shows(y)
      modifies qbittorrent, records, timers
      ensures var z := F.Concluded(y, F.Moment(now, wanted, permits, listing));
        Shows(z) && z.env == F.Perform(y.env, actions)
    {
      listing, batch := ObserveSession(now, wanted, permits, y);
      ghost var m := F.Moment(now, wanted, permits, listing);
      ghost var seen := F.Observed(y, m);
      assert seen.env == y.env;
      hide F.Observed, F.Decided, F.Followed, F.Perform;
      actions := DecideQbittorrent(F.Moment(now, wanted, permits, listing), seen);
    }
  }

  lemma DecidedParts(y: F.System, m: F.Moment)
    ensures var z := F.Decided(y, m); var command := F.Asked(y, m);
      var o := Decide(y.client, m.now, m.wanted, command, y.env.next);
      && z.client == o.client && z.env == F.Perform(y.env, o.actions) && z.registry == y.registry
      && z.lastCommand == if command.Some? then Some((command.value, m.now.monotonic)) else y.lastCommand
  {
    hide F.Asked, Decide, F.Perform;
  }

  lemma FollowedParts(y: F.System, m: F.Moment)
    ensures var z := F.Followed(y, m); var o := FollowPreferences(y.client, m.wanted);
      && z.client == o.client && z.env == F.Perform(y.env, o.actions) && z.registry == y.registry
      && z.lastCommand == y.lastCommand
  {
    hide FollowPreferences, F.Perform;
  }

  lemma ShortDecisions(c: Client, m: F.Moment, command: Option<R.Command>, id: nat)
    ensures var o := Decide(c, m.now, m.wanted, command, id);
      |o.actions| <= 1 && (forall a :: a in o.actions && a.Apply? ==> command == Some(a.command))
  {
  }

  lemma ShortFollow(c: Client, wanted: Wanted)
    ensures var o := FollowPreferences(c, wanted);
      && |o.actions| <= 1 && (forall a :: a in o.actions ==> !a.Apply? && !a.StartTimer?)
      && (F.Choosing(c) <==> F.Choosing(o.client))
  {
  }

  lemma OnlyTheAsked(chosen: seq<Action>, followed: seq<Action>, command: Option<R.Command>)
    requires forall a :: a in chosen && a.Apply? ==> command == Some(a.command)
    requires forall a :: a in followed ==> !a.Apply?
    ensures forall a :: a in chosen + followed && a.Apply? ==> command == Some(a.command)
  {
  }

  lemma PerformShort(env: Wake.Env<Action, Event>, actions: seq<Action>)
    requires |actions| <= 1
    ensures F.Perform(env, actions).next == env.next + if |actions| == 1 && actions[0].StartTimer? then 1 else 0
  {
    if actions == [] {
      F.PerformOne(env, Connect);
    } else {
      F.PerformOne(env, actions[0]);
      assert actions == [actions[0]];
    }
  }

  lemma {:induction false} PerformAppend(env: Wake.Env<Action, Event>, a: seq<Action>, b: seq<Action>)
    ensures F.Perform(env, a + b) == F.Perform(F.Perform(env, a), b)
  {
    if b == [] {
      assert a + b == a;
    } else {
      PerformAppend(env, a, b[..|b| - 1]);
      assert (a + b)[..|a + b| - 1] == a + b[..|b| - 1];
    }
  }
}
