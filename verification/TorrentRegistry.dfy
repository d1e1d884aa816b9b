/** The registry as the object the core updates in place, method by method. */
module TorrentRegistry {
  import opened Basics
  import opened Torrents
  import opened Registry
  import St = RegistryStore
  import R = Reconciliation

  class TorrentRecords {
    var entries: map<RecordId, Entry>
    var byHash: map<Hash, RecordId>
    var byMam: map<MamId, RecordId>
    var nextId: RecordId
    var unsaved: set<RecordId>
    var saving: Option<set<RecordId>>
    var saveFailed: bool
    var lastCommand: Option<(R.Command, Time)>

    /** The rows, indexes and save progress as a value. */
    ghost function View(): Records
      reads this
    {
      Records(entries, byHash, byMam, nextId, unsaved, saving, saveFailed)
    }

    constructor (rows: seq<Record>)
      ensures View() == Load(rows) && lastCommand == None
    {
      entries := EntriesOf(rows);
      byHash := IndexByHash(rows);
      byMam := IndexByMam(rows, false, IndexByMam(rows, true, map[]));
      nextId := MaxId(rows) + 1;
      unsaved, saving, saveFailed, lastCommand := {}, None, false, None;
    }

    /** Save every changed row in one batch, unless a batch is outstanding. */
    method SaveChanged(now: Time) returns (batch: Option<seq<Record>>)
      modifies this
      ensures (View(), batch) == Save(old(View()), now) && lastCommand == old(lastCommand)
    {
      if saving.Some? || unsaved == {} {
        return None;
      }
      var ids := unsaved;
      unsaved := {};
      var rows: seq<Record> := [];
      var id := 0;
      while id < nextId
        invariant id <= nextId
        invariant rows == Batch(entries, ids, id)
      {
        if id in ids && id in entries {
          rows := rows + [entries[id].record];
        }
        id := id + 1;
      }
      entries := map i | i in entries ::
        if i in ids then entries[i].(savedAt := Some(now), counters := CountersSaved) else entries[i];
      saving := Some(ids);
      batch := Some(rows);
    }

    method SetRowDesired(id: RecordId, desired: Desired)
      modifies this
      ensures View() == SetDesired(old(View()), id, desired) && lastCommand == old(lastCommand)
    {
      if id in entries {
        entries := entries[id := entries[id].(record := entries[id].record.(desired := desired))];
      }
      unsaved := unsaved + {id};
    }

    method AdoptTorrent(hash: Hash, torrent: Torrent) returns (id: RecordId)
      modifies this
      ensures View() == Adopt(old(View()), hash, torrent) && lastCommand == old(lastCommand)
      ensures id == old(nextId)
    {
      id := nextId;
      nextId := id + 1;
      byHash := byHash[hash := id];
      entries := entries[id := Entry(Record(id, Client(hash), Adopted, Active, torrent.savePath, false, None), None,
        CountersSaved)];
    }

    /** Adopt the torrent if it has no row, and record what qBittorrent reports of it. */
    method ObserveTorrent(now: Clock, hash: Hash, torrent: Torrent)
      modifies this
      ensures View() == ObserveOne(old(View()), now, hash, torrent) && lastCommand == old(lastCommand)
    {
      var id;
      if hash in byHash {
        id := byHash[hash];
      } else {
        id := AdoptTorrent(hash, torrent);
      }
      if id in entries {
        var (entry, due) := EntryObserve(entries[id], now.monotonic, Observation(torrent, now.wall));
        entries := entries[id := entry];
        if due { unsaved := unsaved + {id}; }
      }
      if id in entries && entries[id].record.desired.Held? && torrent.completedAt.Some? {
        SetRowDesired(id, Active);
      }
    }

    method ObserveTorrents(now: Clock, listing: seq<(Hash, Torrent)>) returns (batch: Option<seq<Record>>)
      modifies this
      ensures (View(), batch) == Save(Observe(old(View()), now, listing), now.monotonic)
        && lastCommand == old(lastCommand)
      ensures Inv(old(View())) && St.Allowed(old(View()), St.Observed(now, listing)) ==>
        St.Accounted(old(View()), View(), batch)
    {
      hide ObserveOne;
      var i := 0;
      while i < |listing|
        invariant i <= |listing|
        invariant View() == Observe(old(View()), now, listing[..i])
        invariant lastCommand == old(lastCommand)
      {
        ObserveTorrent(now, listing[i].0, listing[i].1);
        assert listing[..i + 1][..i] == listing[..i];
        i := i + 1;
      }
      assert listing[..i] == listing;
      batch := SaveChanged(now.monotonic);
      if Inv(old(View())) && St.Allowed(old(View()), St.Observed(now, listing)) {
        St.ChangeAccounts(old(View()), St.Observed(now, listing), now.monotonic);
      }
      hide Inv, Save, St.Accounted;
    }

    method NewBookmarks(now: Time, bookmarks: seq<(MamId, BookmarkDesired)>) returns (batch: Option<seq<Record>>)
      modifies this
      ensures (View(), batch) == Save(Bookmarked(old(View()), bookmarks), now) && lastCommand == old(lastCommand)
      ensures Inv(old(View())) && St.Allowed(old(View()), St.NewBookmarks(bookmarks)) ==>
        St.Accounted(old(View()), View(), batch)
    {
      var i := 0;
      while i < |bookmarks|
        invariant i <= |bookmarks|
        invariant View() == Bookmarked(old(View()), bookmarks[..i])
        invariant lastCommand == old(lastCommand)
      {
        var (mam, desired) := bookmarks[i];
        assert bookmarks[..i + 1][..i] == bookmarks[..i];
        i := i + 1;
        if mam in byMam { continue; }
        var id := nextId;
        nextId := id + 1;
        byMam := byMam[mam := id];
        entries := entries[id := Entry(Record(id, Mam(mam), Bookmark, desired, None, false, None), None,
          CountersSaved)];
        unsaved := unsaved + {id};
      }
      assert bookmarks[..i] == bookmarks;
      batch := SaveChanged(now);
      if Inv(old(View())) && St.Allowed(old(View()), St.NewBookmarks(bookmarks)) {
        St.ChangeAccounts(old(View()), St.NewBookmarks(bookmarks), now);
      }
      hide Inv, Save, St.Accounted;
    }

    /** Queue a snatched torrent the owner wants again; anything else is refused without a save. */
    method QueueAgain(now: Time, id: RecordId) returns (batch: Option<seq<Record>>)
      modifies this
      ensures (View(), batch) ==
        (if IsSnatched(old(View()), id) then Save(Redownload(old(View()), id), now) else (old(View()), None))
      ensures lastCommand == old(lastCommand)
      ensures Inv(old(View())) && St.Allowed(old(View()), St.OwnerRedownload(id)) ==>
        St.Accounted(old(View()), View(), batch)
    {
      if id !in entries || !entries[id].record.desired.Snatched? {
        return None;
      }
      entries := entries[id := entries[id].(record := entries[id].record.(desired := Queued, origin := Redownloaded))];
      unsaved := unsaved + {id};
      batch := SaveChanged(now);
      if Inv(old(View())) && St.Allowed(old(View()), St.OwnerRedownload(id)) {
        St.ChangeAccounts(old(View()), St.OwnerRedownload(id), now);
      }
      hide Inv, Save, St.Accounted;
    }

    method LinkRow(id: RecordId, mam: MamId, hash: Hash)
      modifies this
      ensures View() == Link(old(View()), id, mam, hash) && lastCommand == old(lastCommand)
    {
      var origin := if id in entries then Some(entries[id].record.origin) else None;
      var target := id;
      if hash in byHash && byHash[hash] != id {
        target := byHash[hash];
        SetRowDesired(id, Removed);
        byMam := byMam[mam := target];
      }
      if target in entries {
        var r := entries[target].record;
        var named := r.(identity := Linked(mam, hash), origin := if origin.Some? then origin.value else r.origin);
        entries := entries[target := entries[target].(record := named)];
      }
      SetRowDesired(target, Active);
      byHash := byHash[hash := target];
    }

    method FileFetched(now: Time, mam: MamId, hash: Hash) returns (batch: Option<seq<Record>>)
      modifies this
      ensures (View(), batch) == Save(Fetched(old(View()), mam, hash), now) && lastCommand == old(lastCommand)
      ensures Inv(old(View())) && St.Allowed(old(View()), St.FileFetched(mam, hash)) ==>
        St.Accounted(old(View()), View(), batch)
    {
      if mam in byMam { LinkRow(byMam[mam], mam, hash); }
      batch := SaveChanged(now);
      if Inv(old(View())) && St.Allowed(old(View()), St.FileFetched(mam, hash)) {
        St.ChangeAccounts(old(View()), St.FileFetched(mam, hash), now);
      }
      hide Inv, Save, St.Accounted;
    }

    method FoundSnatched(now: Time, mam: MamId) returns (batch: Option<seq<Record>>)
      modifies this
      ensures (View(), batch) == Save(SnatchedBefore(old(View()), mam), now) && lastCommand == old(lastCommand)
      ensures Inv(old(View())) && St.Allowed(old(View()), St.FoundSnatched(mam)) ==>
        St.Accounted(old(View()), View(), batch)
    {
      if mam in byMam && byMam[mam] in entries
         && entries[byMam[mam]].record.desired.Queued? && entries[byMam[mam]].record.origin.Bookmark? {
        SetRowDesired(byMam[mam], Snatched);
      }
      batch := SaveChanged(now);
      if Inv(old(View())) && St.Allowed(old(View()), St.FoundSnatched(mam)) {
        St.ChangeAccounts(old(View()), St.FoundSnatched(mam), now);
      }
      hide Inv, Save, St.Accounted;
    }

    method LetRun(now: Time, hash: Hash) returns (batch: Option<seq<Record>>)
      modifies this
      ensures (View(), batch) == Save(Resume(old(View()), hash), now) && lastCommand == old(lastCommand)
      ensures Inv(old(View())) && St.Allowed(old(View()), St.LetRun(hash)) ==> St.Accounted(old(View()), View(), batch)
    {
      if hash in byHash && byHash[hash] in entries && entries[byHash[hash]].record.desired.Held? {
        SetRowDesired(byHash[hash], Active);
      }
      batch := SaveChanged(now);
      if Inv(old(View())) && St.Allowed(old(View()), St.LetRun(hash)) {
        St.ChangeAccounts(old(View()), St.LetRun(hash), now);
      }
      hide Inv, Save, St.Accounted;
    }

    method KeepStopped(now: Time, hash: Hash) returns (batch: Option<seq<Record>>)
      modifies this
      ensures (View(), batch) == Save(Hold(old(View()), hash), now) && lastCommand == old(lastCommand)
      ensures Inv(old(View())) && St.Allowed(old(View()), St.KeepStopped(hash)) ==>
        St.Accounted(old(View()), View(), batch)
    {
      if hash in byHash { SetRowDesired(byHash[hash], Held); }
      batch := SaveChanged(now);
      if Inv(old(View())) && St.Allowed(old(View()), St.KeepStopped(hash)) {
        St.ChangeAccounts(old(View()), St.KeepStopped(hash), now);
      }
      hide Inv, Save, St.Accounted;
    }

    method BatchSaved(now: Time) returns (batch: Option<seq<Record>>)
      modifies this
      ensures (View(), batch) == Saved(old(View()), now) && lastCommand == old(lastCommand)
      ensures Inv(old(View())) ==> St.Accounted(old(View()), View(), batch)
    {
      if Inv(View()) { St.AnswerAccounts(View(), now); }
      hide Inv, St.Accounted;
      if saving.None? { return None; }
      saving, saveFailed := None, false;
      batch := SaveChanged(now);
    }

    method BatchFailed()
      modifies this
      ensures View() == SaveFailed(old(View())) && lastCommand == old(lastCommand)
      ensures Inv(old(View())) ==> St.Accounted(old(View()), View(), None)
    {
      if Inv(View()) { St.AnswerAccounts(View(), 0); }
      hide Inv, St.Accounted;
      if saving.Some? {
        unsaved := unsaved + saving.value;
        saving, saveFailed := None, true;
      }
    }

    /** The command to send now: what reconciliation asks, unless the same was sent within a minute. */
    method NextCommand(now: Time, torrents: Listing, permits: set<MamId>) returns (command: Option<R.Command>)
      modifies this`lastCommand
      ensures var asked := R.Reconcile(Intents(View()), nextId, torrents, permits);
        var repeated := asked.Some? && old(lastCommand).Some? && old(lastCommand).value.0 == asked.value
                        && Since(now, old(lastCommand).value.1) < R.COMMAND_REPEAT_AFTER;
        && command == (if repeated then None else asked)
        && lastCommand == (if command.Some? then Some((command.value, now)) else old(lastCommand))
    {
      command := R.Reconcile(RowsOf(entries), nextId, torrents, permits);
      if command.None? { return; }
      if lastCommand.Some? && lastCommand.value.0 == command.value
         && Since(now, lastCommand.value.1) < R.COMMAND_REPEAT_AFTER
      {
        return None;
      }
      lastCommand := Some((command.value, now));
    }
  }
}
