/** What each request does to the registry's rows, and what of a row survives storage and a restart. */
module RegistryChanges {
  import opened Basics
  import opened Torrents
  import opened Registry
  import opened RegistryStore

  // ---------- Requests, row by row ----------

  /** From `s` to `t` exactly these rows changed, to what `changed` says, and are to be saved; no row came or went. */
  ghost predicate ChangesRows(s: Records, t: Records, changed: map<RecordId, Intent>) {
    && Intents(t).Keys == Intents(s).Keys && changed.Keys <= Intents(s).Keys
    && (forall id :: id in Intents(s) ==> Intents(t)[id] == if id in changed then changed[id] else Intents(s)[id])
    && t.unsaved == s.unsaved + changed.Keys
    && t.byHash == s.byHash && t.byMam == s.byMam && t.nextId == s.nextId && t.saving == s.saving
  }

  lemma OneRowChanges(s: Records, id: RecordId, desired: Desired)
    requires id in s.entries
    ensures ChangesRows(s, SetDesired(s, id, desired), map[id := Intents(s)[id].(desired := desired)])
  {
    SetDesiredRows(s, id, desired);
  }

  lemma NoRowChanges(s: Records)
    ensures ChangesRows(s, s, map[])
  {
  }

  /** The row that has this hash. */
  ghost predicate Under(s: Records, hash: Hash, id: RecordId) {
    id in Intents(s) && Intents(s)[id].identity.HashOf() == Some(hash)
  }

  lemma UnderIsIndexed(s: Records, hash: Hash, id: RecordId)
    requires Inv(s)
    ensures Under(s, hash, id) <==> hash in s.byHash && s.byHash[hash] == id
  {
  }

  /** Holding stops the one row under the hash, whatever it was. */
  lemma HoldStopsTheRow(s: Records, hash: Hash)
    requires Inv(s)
    ensures ChangesRows(s, Hold(s, hash),
      map id | id in Intents(s) && Under(s, hash, id) :: Intents(s)[id].(desired := Held))
  {
    var changed := map id | id in Intents(s) && Under(s, hash, id) :: Intents(s)[id].(desired := Held);
    forall id ensures Under(s, hash, id) <==> hash in s.byHash && s.byHash[hash] == id { UnderIsIndexed(s, hash, id); }
    hide Inv;
    if hash in s.byHash {
      var id := s.byHash[hash];
      assert Under(s, hash, id);
      assert changed == map[id := Intents(s)[id].(desired := Held)];
      OneRowChanges(s, id, Held);
      hide Intents, SetDesired, Under, ChangesRows;
    } else {
      assert changed == map[];
      NoRowChanges(s);
      hide Intents, Under, ChangesRows;
    }
  }

  /** Resuming makes the row under the hash active if it was held, and does nothing else. */
  lemma ResumeStartsTheHeld(s: Records, hash: Hash)
    requires Inv(s)
    ensures ChangesRows(s, Resume(s, hash),
      map id | id in Intents(s) && Under(s, hash, id) && Intents(s)[id].desired.Held?
        :: Intents(s)[id].(desired := Active))
  {
    var changed := map id | id in Intents(s) && Under(s, hash, id) && Intents(s)[id].desired.Held?
      :: Intents(s)[id].(desired := Active);
    forall id ensures Under(s, hash, id) <==> hash in s.byHash && s.byHash[hash] == id { UnderIsIndexed(s, hash, id); }
    hide Inv;
    if hash in s.byHash && Intents(s)[s.byHash[hash]].desired.Held? {
      var id := s.byHash[hash];
      assert Under(s, hash, id);
      assert changed == map[id := Intents(s)[id].(desired := Active)];
      OneRowChanges(s, id, Active);
      assert Resume(s, hash) == SetDesired(s, id, Active);
      hide Intents, SetDesired, Under, Resume, ChangesRows;
    } else {
      assert changed == map[];
      assert Resume(s, hash) == s;
      NoRowChanges(s);
      hide Resume, Intents, Under, ChangesRows;
    }
  }

  /** The queued bookmark that this MAM ID names. */
  ghost predicate QueuedBookmark(s: Records, mam: MamId, id: RecordId) {
    && id in Intents(s) && Lookup(s.byMam, mam) == Some(id)
    && Intents(s)[id].desired.Queued? && Intents(s)[id].origin.Bookmark?
  }

  /** A bookmark found snatched waits for its owner, if the row its MAM ID names is queued; other rows stay. */
  lemma SnatchedWaits(s: Records, mam: MamId)
    requires Inv(s)
    ensures ChangesRows(s, SnatchedBefore(s, mam),
      map id | id in Intents(s) && QueuedBookmark(s, mam, id) :: Intents(s)[id].(desired := Snatched))
  {
    var changed := map id | id in Intents(s) && QueuedBookmark(s, mam, id) :: Intents(s)[id].(desired := Snatched);
    if mam in s.byMam && QueuedBookmark(s, mam, s.byMam[mam]) {
      var id := s.byMam[mam];
      assert changed == map[id := Intents(s)[id].(desired := Snatched)];
      OneRowChanges(s, id, Snatched);
      assert SnatchedBefore(s, mam) == SetDesired(s, id, Snatched);
      hide Inv, Intents, SetDesired, SnatchedBefore, QueuedBookmark, ChangesRows;
    } else {
      assert changed == map[];
      assert SnatchedBefore(s, mam) == s;
      NoRowChanges(s);
      hide Inv, Intents, SnatchedBefore, QueuedBookmark, ChangesRows;
    }
  }

  /** A queued bookmark with a MAM ID is the row the ID names. */
  lemma QueuedRowsAreNamed(s: Records, mam: MamId, id: RecordId)
    requires Inv(s) && id in Intents(s) && Intents(s)[id].identity.MamOf() == Some(mam)
    requires Intents(s)[id].desired.Queued? && Intents(s)[id].origin.Bookmark?
    ensures QueuedBookmark(s, mam, id)
  {
  }

  // ---------- Saving ----------

  lemma {:induction false} BatchIsRows(entries: map<RecordId, Entry>, ids: set<RecordId>, bound: RecordId)
    requires forall id :: id in entries ==> entries[id].record.id == id && 1 <= id
    ensures var batch := Batch(entries, ids, bound);
      && Ascending(batch)
      && (forall i :: 0 <= i < |batch| ==>
            var id := batch[i].id; id < bound && id in ids && id in entries && batch[i] == entries[id].record)
      && (forall id :: id in ids && id in entries && id < bound ==> entries[id].record in batch)
  {
    if bound != 0 { BatchIsRows(entries, ids, bound - 1); }
  }

  /**
   * A save sends every row to be saved, whole and oldest first, marks those rows saved now, and leaves
   * every other row and its times alone; it sends nothing while a batch is outstanding.
   */
  lemma SaveSendsWholeRows(s: Records, now: Time)
    requires Inv(s)
    ensures var (t, batch) := Save(s, now);
      if s.saving.Some? || s.unsaved == {} then t == s && batch == None
      else
        && batch.Some? && Ascending(batch.value)
        && (forall r :: r in batch.value <==> r.id in s.unsaved && r.id in s.entries && r == s.entries[r.id].record)
        && t.entries.Keys == s.entries.Keys
        && (forall id :: id in s.entries ==>
              t.entries[id] ==
                if id in s.unsaved then Entry(s.entries[id].record, Some(now), CountersSaved) else s.entries[id])
  {
    if s.saving.None? && s.unsaved != {} {
      BatchIsRows(s.entries, s.unsaved, s.nextId);
      hide Batch;
    }
  }

  /** Nothing waits to be saved unless a batch is outstanding or the last one failed. */
  ghost predicate NothingWaits(y: System) {
    y.memory.Loaded? && y.memory.records.saving.None? ==>
      y.memory.records.unsaved == {} || y.memory.records.saveFailed
  }

  lemma SaveWaits(s: Records, now: Time)
    ensures var t := Save(s, now).0; t.saving.None? ==> t.unsaved == {}
  {
    hide Batch, MarkSaved;
  }

  lemma StepWaits(y: System, l: Label)
    requires NothingWaits(y)
    ensures NothingWaits(Step(y, l))
  {
    hide Save, Changed, Allowed, Intents, ReadBelow, EntriesOf, IndexByHash, IndexByMam, MaxId, SaveTorrents;
    if y.memory.Loaded? {
      var s := y.memory.records;
      match l
      case Ask(change, now) => if Allowed(s, change) { SaveWaits(Changed(s, change), now); }
      case Deliver(at) => SaveWaits(s.(saving := None, saveFailed := false), at);
      case _ =>
    }
  }

  /** Over every run nothing waits to be saved unless a batch is outstanding or the last one failed. */
  lemma {:induction false} UnsavedIsOnItsWay(y: System, labels: seq<Label>)
    requires Initial(y)
    ensures NothingWaits(Run(y, labels))
  {
    if labels != [] {
      UnsavedIsOnItsWay(y, labels[..|labels| - 1]);
      StepWaits(Run(y, labels[..|labels| - 1]), labels[|labels| - 1]);
      hide Step, NothingWaits;
    }
  }

  /** The owner is told of a failed save until one works. */
  lemma SaveFailureIsTold(y: System, labels: seq<Label>, at: Time)
    requires Initial(y) && Run(y, labels).memory.Loaded?
    requires Run(y, labels).flight.Committed? || Run(y, labels).flight.Failed?
    ensures var z := Step(Run(y, labels), Deliver(at));
      z.memory.Loaded? && z.memory.records.saveFailed == Run(y, labels).flight.Failed?
  {
    RunKeeps(y, labels);
    hide Run, Batch, MarkSaved, Intents;
  }

  // ---------- Storage and back ----------

  /** At most a second earlier; a time before the epoch becomes the epoch. */
  predicate JustBefore(stored: Time, at: Time) {
    if at < 0 then stored == 0 else stored <= at < stored + SECOND && stored % SECOND == 0
  }

  predicate JustBeforeIf(stored: Option<Time>, at: Option<Time>) {
    stored.Some? == at.Some? && (at.Some? ==> JustBefore(stored.value, at.value))
  }

  lemma WholeSecondsJustBefore(at: Time)
    ensures JustBefore(WholeSeconds(at), at) && WholeSeconds(WholeSeconds(at)) == WholeSeconds(at)
  {
  }

  /**
   * What storage keeps of a row: all of it but the forced start, with times in whole seconds; and
   * storing what was read back changes nothing.
   */
  lemma StorageKeeps(r: Record)
    ensures IntentOf(Stored(r)) == IntentOf(r) && Stored(r).id == r.id && Stored(Stored(r)) == Stored(r)
    ensures Stored(r).observation.Some? == r.observation.Some?
    ensures r.observation.Some? ==>
      var a, b := Stored(r).observation.value, r.observation.value;
      var s, t := a.torrent, b.torrent;
      && JustBefore(a.lastSeen, b.lastSeen) && JustBeforeIf(s.addedAt, t.addedAt)
      && JustBeforeIf(s.completedAt, t.completedAt)
      && s.seedingTime <= t.seedingTime < s.seedingTime + SECOND && s.seedingTime % SECOND == 0
      && s.forceStart == NotForced
      && s == t.(addedAt := s.addedAt, completedAt := s.completedAt, seedingTime := s.seedingTime,
                 forceStart := s.forceStart)
  {
    if r.observation.Some? {
      var seen := r.observation.value;
      WholeSecondsJustBefore(seen.lastSeen);
      if seen.torrent.addedAt.Some? { WholeSecondsJustBefore(seen.torrent.addedAt.value); }
      if seen.torrent.completedAt.Some? { WholeSecondsJustBefore(seen.torrent.completedAt.value); }
      hide WholeSeconds;
    }
  }

  lemma {:induction false} PutRowsAt(table: Table, batch: seq<Record>, i: nat)
    requires Ascending(batch) && i < |batch|
    ensures batch[i].id in PutRows(table, batch) && PutRows(table, batch)[batch[i].id] == Stored(batch[i])
  {
    var n := |batch| - 1;
    if i < n { PutRowsAt(table, batch[..n], i); }
  }

  ghost predicate BatchAscends(y: System) {
    y.flight.Saving? ==> Ascending(y.flight.batch)
  }

  lemma SaveAscends(s: Records, now: Time)
    requires forall id :: id in s.entries ==> s.entries[id].record.id == id && 1 <= id
    ensures Save(s, now).1.Some? ==> Ascending(Save(s, now).1.value)
  {
    BatchIsRows(s.entries, s.unsaved, s.nextId);
  }

  lemma StepAscends(y: System, l: Label)
    requires SystemInv(y) && BatchAscends(y)
    ensures BatchAscends(Step(y, l))
  {
    if y.memory.Loaded? {
      var s := y.memory.records;
      match l
      case Ask(change, now) =>
        if Allowed(s, change) {
          ChangedKeeps(s, change);
          SaveAscends(Changed(s, change), now);
        }
      case Deliver(at) => SaveAscends(s.(saving := None, saveFailed := false), at);
      case _ =>
      hide Save, Changed, Ascending, Intents;
    }
  }

  lemma {:induction false} RunAscends(y: System, labels: seq<Label>)
    requires Initial(y)
    ensures BatchAscends(Run(y, labels))
  {
    if labels != [] {
      RunAscends(y, labels[..|labels| - 1]);
      RunKeeps(y, labels[..|labels| - 1]);
      StepAscends(Run(y, labels[..|labels| - 1]), labels[|labels| - 1]);
    }
  }

  lemma LoadKeepsRows(table: Table, bound: RecordId, id: RecordId)
    requires TableKeyed(table, bound) && id in table
    ensures var s := Load(ReadBelow(table, bound));
      id in s.entries && s.entries[id] == Entry(table[id], None, CountersSaved)
  {
    var rows := ReadBelow(table, bound);
    ReadBelowRows(table, bound, bound);
    EntriesOfRows(rows);
    var i :| 0 <= i < |rows| && rows[i].id == id;
  }

  lemma ReloadReads(y: System, id: RecordId)
    requires TableKeyed(y.table, y.bound) && id in y.table
    ensures var z := Step(Step(y, Crash), LoadRows);
      z.memory.Loaded? && id in z.memory.records.entries && z.memory.records.entries[id].record == y.table[id]
  {
    LoadKeepsRows(y.table, y.bound, id);
    hide Load, ReadBelow, TableKeyed, Intents;
  }

  /** Over every run: each row of a batch that commits is read back after a restart as storage keeps it. */
  lemma CommittedRowsReadBack(y: System, labels: seq<Label>, i: nat)
    requires Initial(y) && Run(y, labels).flight.Saving? && i < |Run(y, labels).flight.batch|
    ensures var r := Run(y, labels).flight.batch[i];
      var z := Step(Step(Step(Run(y, labels), Commit), Crash), LoadRows);
      z.memory.Loaded? && r.id in z.memory.records.entries && z.memory.records.entries[r.id].record == Stored(r)
  {
    RunKeeps(y, labels);
    RunAscends(y, labels);
    CommitIsASnapshot(y, labels);
    var end := Run(y, labels);
    StepKeeps(end, Commit);
    var c := Step(end, Commit);
    assert TableKeyed(c.table, c.bound);
    PutRowsAt(end.table, end.flight.batch, i);
    hide Run, Step, Stored, SystemInv, TableKeyed, PutRows, TableRows, Ascending, Initial;
    ReloadReads(c, end.flight.batch[i].id);
  }
}
