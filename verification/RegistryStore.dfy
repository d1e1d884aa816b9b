/**
 * The registry with its write-behind store: one outstanding batch, a UNIQUE hash column,
 * replace semantics, failed saves and crashes at any moment.
 */
module RegistryStore {
  import opened Basics
  import opened Torrents
  import opened Registry

  type Table = map<RecordId, Record>

  function StoredTime(t: Option<Time>): Option<Time> {
    if t.Some? then Some(WholeSeconds(t.value)) else None
  }

  /** A row as it reads back: times in whole seconds, and no forced start. */
  function Stored(r: Record): Record {
    match r.observation
    case None => r
    case Some(seen) =>
      var t := seen.torrent;
      r.(observation := Some(Observation(
        t.(addedAt := StoredTime(t.addedAt), completedAt := StoredTime(t.completedAt), forceStart := NotForced,
           seedingTime := t.seedingTime / SECOND * SECOND),
        WholeSeconds(seen.lastSeen))))
  }

  predicate SameHash(a: Record, b: Record) {
    a.identity.HashOf().Some? && a.identity.HashOf() == b.identity.HashOf()
  }

  /** `INSERT OR REPLACE`: rows in conflict on the identity or on the unique hash are deleted. */
  function Replace(table: Table, r: Record): Table {
    (map id | id in table && !SameHash(table[id], r) :: table[id])[r.id := Stored(r)]
  }

  /** One transaction over the batch, row by row. */
  function SaveTorrents(table: Table, batch: seq<Record>): Table {
    if batch == [] then table
    else Replace(SaveTorrents(table, batch[..|batch| - 1]), batch[|batch| - 1])
  }

  function TableRows(table: Table): Rows {
    map id | id in table :: IntentOf(table[id])
  }

  /** Every row below `bound`, in the order of its identity. */
  function ReadBelow(table: Table, bound: RecordId): seq<Record> {
    if bound == 0 then []
    else
      var before := ReadBelow(table, bound - 1);
      if bound - 1 in table then before + [table[bound - 1]] else before
  }

  // ---------- The system ----------

  datatype Memory = Down | Unmanaged | Loaded(records: Records)

  /** The save operation of the shell; its one completion carries its outcome. */
  datatype Flight = Nothing | Saving(batch: seq<Record>) | Committed | Failed

  /**
   * `bound` exceeds every stored identity. `sent` is the registry's intent when the batch in
   * flight was sent, and `past` every intent the registry has had, over all its lives.
   */
  datatype System = System(memory: Memory, table: Table, flight: Flight, bound: RecordId, sent: Rows, past: seq<Rows>)

  /** What the rest of the core asks of a loaded registry. */
  datatype Change =
    | Observed(clock: Clock, listing: seq<(Hash, Torrent)>)
    | NewBookmarks(bookmarks: seq<(MamId, BookmarkDesired)>)
    | OwnerRedownload(id: RecordId)
    | FileFetched(mam: MamId, hash: Hash)
    | FoundSnatched(mam: MamId)
    | LetRun(hash: Hash)
    | KeepStopped(hash: Hash)

  /** Callers fetch only queued rows and hold only active ones. */
  ghost predicate Allowed(s: Records, c: Change) {
    match c
    case FileFetched(mam, _) => QueuedFor(s, mam)
    case KeepStopped(hash) => ActiveUnder(s, hash)
    case OwnerRedownload(id) => IsSnatched(s, id)
    case _ => true
  }

  ghost function Changed(s: Records, c: Change): Records
    requires Allowed(s, c)
  {
    match c
    case Observed(clock, listing) => Observe(s, clock, listing)
    case NewBookmarks(bookmarks) => Bookmarked(s, bookmarks)
    case OwnerRedownload(id) => Redownload(s, id)
    case FileFetched(mam, hash) => Fetched(s, mam, hash)
    case FoundSnatched(mam) => SnatchedBefore(s, mam)
    case LetRun(hash) => Resume(s, hash)
    case KeepStopped(hash) => Hold(s, hash)
  }

  datatype Label =
    | Ask(change: Change, now: Time)
    | Commit
    | FailSave
    | Deliver(at: Time)
    | Crash
    | LoadRows
    | FailLoad

  /** The registry now in memory, and the batch it sent, if any. */
  function Emit(y: System, result: (Records, Option<seq<Record>>), flight: Flight): System {
    var rows := Intents(result.0);
    var after := y.(memory := Loaded(result.0), flight := flight, past := y.past + [rows]);
    if result.1.Some?
    then after.(flight := Saving(result.1.value), sent := rows,
                bound := if result.0.nextId > y.bound then result.0.nextId else y.bound)
    else after
  }

  /** One step of the system; a step that is not enabled changes nothing. */
  ghost function Step(y: System, l: Label): System {
    match l
    case Ask(change, now) =>
      if y.memory.Loaded? && Allowed(y.memory.records, change)
      then Emit(y, Save(Changed(y.memory.records, change), now), y.flight)
      else y
    case Commit =>
      if y.flight.Saving?
      then y.(table := SaveTorrents(y.table, y.flight.batch), flight := Committed)
      else y
    case FailSave =>
      if y.flight.Saving? then y.(flight := Failed) else y
    case Deliver(at) =>
      if !y.memory.Loaded? then y
      else if y.flight.Committed? then Emit(y, Saved(y.memory.records, at), Nothing)
      else if y.flight.Failed? then Emit(y, (SaveFailed(y.memory.records), None), Nothing)
      else y
    case Crash => y.(memory := Down, flight := Nothing)
    case LoadRows =>
      if y.memory.Down? then Emit(y, (Load(ReadBelow(y.table, y.bound)), None), Nothing) else y
    case FailLoad =>
      if y.memory.Down? then y.(memory := Unmanaged) else y
  }

  ghost function Run(y: System, labels: seq<Label>): System {
    if labels == [] then y else Step(Run(y, labels[..|labels| - 1]), labels[|labels| - 1])
  }

  // ---------- The invariant ----------

  /** Rows that a registry could be rebuilt from: unique hashes, one live row per MAM ID. */
  ghost predicate Sound(rows: Rows) {
    && WaitingRowsHaveNoHash(rows)
    && (exists byHash :: HashIndexAgrees(rows, byHash))
    && (exists byMam :: MamIndexAgrees(rows, byMam))
  }

  /** Rows of `newer` not marked unsaved are as they are in `older`. */
  ghost predicate SavedUpTo(older: Rows, newer: Rows, unsaved: set<RecordId>) {
    && HashKept(older, newer)
    && (forall id :: id in newer && id !in unsaved ==> id in older && newer[id] == older[id])
  }

  ghost predicate TableKeyed(table: Table, bound: RecordId) {
    forall id :: id in table ==> table[id].id == id && 1 <= id < bound
  }

  /** The batch is the rows `ids` of what was sent, and the table holds the other rows already. */
  ghost predicate Completes(table: Table, batch: seq<Record>, ids: set<RecordId>, sent: Rows) {
    && SavedUpTo(TableRows(table), sent, ids)
    && FromSent(batch, sent)
    && (forall id :: id in ids ==> InBatch(batch, id))
  }

  ghost predicate SystemInv(y: System) {
    && TableKeyed(y.table, y.bound)
    && Sound(TableRows(y.table))
    && TableRows(y.table) in y.past
    && (y.memory.Loaded? ==>
          && Inv(y.memory.records)
          && match y.flight
             case Nothing =>
               && y.memory.records.saving.None?
               && SavedUpTo(TableRows(y.table), Intents(y.memory.records), y.memory.records.unsaved)
             case Committed =>
               && y.memory.records.saving.Some?
               && TableRows(y.table) == y.sent
               && SavedUpTo(y.sent, Intents(y.memory.records), y.memory.records.unsaved)
             case Saving(batch) =>
               && InFlight(y)
               && BatchBelow(batch, y.bound)
               && Completes(y.table, batch, y.memory.records.saving.value, y.sent)
             case Failed =>
               && InFlight(y)
               && SavedUpTo(TableRows(y.table), y.sent, y.memory.records.saving.value))
    && (!y.memory.Loaded? ==> y.flight.Nothing?)
  }

  ghost predicate BatchBelow(batch: seq<Record>, bound: RecordId) {
    forall i :: 0 <= i < |batch| ==> 1 <= batch[i].id < bound
  }

  ghost predicate InFlight(y: System)
    requires y.memory.Loaded?
  {
    && y.memory.records.saving.Some?
    && Sound(y.sent) && y.sent in y.past
    && SavedUpTo(y.sent, Intents(y.memory.records), y.memory.records.unsaved)
  }

  // ---------- A transaction writes exactly its rows ----------

  /** A row whose hash no other row of the table has replaces only itself. */
  lemma ReplaceDeletesNothing(table: Table, r: Record)
    requires forall id :: id in table && id != r.id ==> !SameHash(table[id], r)
    ensures Replace(table, r) == table[r.id := Stored(r)]
  {
  }

  /** The batch's rows written over the table, deleting nothing. */
  function PutRows(table: Table, batch: seq<Record>): Table {
    if batch == [] then table
    else PutRows(table, batch[..|batch| - 1])[batch[|batch| - 1].id := Stored(batch[|batch| - 1])]
  }

  /** The batch holds rows of `sent` as they were. */
  ghost predicate FromSent(batch: seq<Record>, sent: Rows) {
    forall i :: 0 <= i < |batch| ==> batch[i].id in sent && IntentOf(batch[i]) == sent[batch[i].id]
  }

  lemma StoredKeepsIntent(table: Table, r: Record)
    ensures TableRows(table[r.id := Stored(r)]) == TableRows(table)[r.id := IntentOf(r)]
  {
  }

  /** No `INSERT OR REPLACE` of a sent batch deletes another row through the unique hash. */
  lemma {:induction false} SaveTorrentsOnlyWrites(table: Table, batch: seq<Record>, sent: Rows)
    requires HashKept(TableRows(table), sent) && Sound(sent) && FromSent(batch, sent)
    ensures SaveTorrents(table, batch) == PutRows(table, batch)
    ensures HashKept(TableRows(PutRows(table, batch)), sent)
  {
    if batch != [] {
      var n := |batch| - 1;
      var before := PutRows(table, batch[..n]);
      var r := batch[n];
      assert FromSent(batch[..n], sent);
      SaveTorrentsOnlyWrites(table, batch[..n], sent);
      forall id | id in before && id != r.id
        ensures !SameHash(before[id], r)
      {
        assert id in TableRows(before);
        HashesAreUnique(sent, id, r.id);
      }
      ReplaceDeletesNothing(before, r);
      StoredKeepsIntent(before, r);
    }
  }

  ghost predicate InBatch(batch: seq<Record>, id: RecordId) {
    exists i :: 0 <= i < |batch| && batch[i].id == id
  }

  lemma {:induction false} PutRowsHolds(table: Table, batch: seq<Record>, sent: Rows)
    requires FromSent(batch, sent)
    ensures forall id :: id in PutRows(table, batch) <==> id in table || InBatch(batch, id)
    ensures forall id :: id in PutRows(table, batch) ==>
      if InBatch(batch, id)
        then id in sent && IntentOf(PutRows(table, batch)[id]) == sent[id] && PutRows(table, batch)[id].id == id
      else PutRows(table, batch)[id] == table[id]
  {
    if batch != [] {
      var n := |batch| - 1;
      assert FromSent(batch[..n], sent);
      PutRowsHolds(table, batch[..n], sent);
      forall id
        ensures InBatch(batch, id) <==> InBatch(batch[..n], id) || id == batch[n].id
      {
        if InBatch(batch[..n], id) {
          var i :| 0 <= i < n && batch[..n][i].id == id;
          assert batch[i].id == id;
        }
        if InBatch(batch, id) && id != batch[n].id {
          var i :| 0 <= i < |batch| && batch[i].id == id;
          assert batch[..n][i].id == id;
        }
      }
    }
  }

  lemma HashesAreUnique(rows: Rows, a: RecordId, b: RecordId)
    requires Sound(rows) && a in rows && b in rows && a != b
    ensures rows[a].identity.HashOf().Some? ==> rows[a].identity.HashOf() != rows[b].identity.HashOf()
  {
    var byHash :| HashIndexAgrees(rows, byHash);
  }

  lemma WrittenRowsAreSent(table: Table, after: Table, batch: seq<Record>, ids: set<RecordId>, sent: Rows)
    requires SavedUpTo(TableRows(table), sent, ids) && forall id :: id in ids ==> InBatch(batch, id)
    requires forall id :: id in after <==> id in table || InBatch(batch, id)
    requires forall id :: id in after ==>
      if InBatch(batch, id) then id in sent && IntentOf(after[id]) == sent[id] else after[id] == table[id]
    ensures TableRows(after) == sent
  {
    hide InBatch, IntentOf;
    forall id | id in TableRows(after)
      ensures id in sent && TableRows(after)[id] == sent[id]
    {
      if !InBatch(batch, id) {
        assert id in TableRows(table) && id !in ids;
      }
    }
    forall id | id in sent
      ensures id in TableRows(after)
    {
      if id !in ids { assert id in TableRows(table); }
    }
  }

  /** Committing a batch leaves the table equal to the whole registry at the moment the batch was sent. */
  lemma CommitStoresWhatWasSent(table: Table, batch: seq<Record>, ids: set<RecordId>, sent: Rows, bound: RecordId)
    requires TableKeyed(table, bound) && BatchBelow(batch, bound)
    requires Sound(sent) && Completes(table, batch, ids, sent)
    ensures TableRows(SaveTorrents(table, batch)) == sent
    ensures TableKeyed(SaveTorrents(table, batch), bound)
  {
    SaveTorrentsOnlyWrites(table, batch, sent);
    PutRowsHolds(table, batch, sent);
    var after := PutRows(table, batch);
    hide PutRows, SaveTorrents, Stored, Sound, FromSent, TableRows, IntentOf, SavedUpTo;
    WrittenRowsAreSent(table, after, batch, ids, sent);
    forall id | id in after
      ensures after[id].id == id && 1 <= id < bound
    {
      if InBatch(batch, id) {
        var i :| 0 <= i < |batch| && batch[i].id == id;
      }
    }
  }

  // ---------- Changes and saves ----------

  lemma ChangedKeeps(s: Records, c: Change)
    requires Inv(s) && Allowed(s, c)
    ensures Inv(Changed(s, c)) && Advances(s, Changed(s, c))
  {
    hide Inv, Advances;
    match c
    case Observed(clock, listing) => ObserveKeeps(s, clock, listing);
    case NewBookmarks(bookmarks) => BookmarkedKeeps(s, bookmarks);
    case OwnerRedownload(id) => RedownloadKeeps(s, id);
    case FileFetched(mam, hash) => FetchedKeeps(s, mam, hash);
    case FoundSnatched(mam) => SnatchedBeforeKeeps(s, mam);
    case LetRun(hash) => ResumeKeeps(s, hash);
    case KeepStopped(hash) => HoldKeeps(s, hash);
  }

  lemma SnatchedBeforeKeeps(s: Records, mam: MamId)
    requires Inv(s)
    ensures Inv(SnatchedBefore(s, mam)) && Advances(s, SnatchedBefore(s, mam))
  {
    if SnatchedBefore(s, mam) != s {
      assert s.byMam[mam] in Intents(s);
      SetDesiredKeeps(s, s.byMam[mam], Snatched);
    }
  }

  lemma ResumeKeeps(s: Records, hash: Hash)
    requires Inv(s)
    ensures Inv(Resume(s, hash)) && Advances(s, Resume(s, hash))
  {
    if Resume(s, hash) != s { SetDesiredKeeps(s, s.byHash[hash], Active); }
  }

  lemma HoldKeeps(s: Records, hash: Hash)
    requires Inv(s) && ActiveUnder(s, hash)
    ensures Inv(Hold(s, hash)) && Advances(s, Hold(s, hash))
  {
    SetDesiredKeeps(s, s.byHash[hash], Held);
  }

  lemma {:induction false} BatchHolds(entries: map<RecordId, Entry>, ids: set<RecordId>, bound: RecordId)
    requires forall id :: id in entries ==> entries[id].record.id == id && 1 <= id
    ensures FromSent(Batch(entries, ids, bound), RowsOf(entries)) && BatchBelow(Batch(entries, ids, bound), bound)
    ensures forall id :: id in ids && id in entries && id < bound ==> InBatch(Batch(entries, ids, bound), id)
  {
    if bound != 0 {
      BatchHolds(entries, ids, bound - 1);
      var before := Batch(entries, ids, bound - 1);
      var after := Batch(entries, ids, bound);
      forall id | id in ids && id in entries && id < bound
        ensures InBatch(after, id)
      {
        if id < bound - 1 {
          var i :| 0 <= i < |before| && before[i].id == id;
          assert after[i].id == id;
        } else {
          assert after[|before|].id == id;
        }
      }
    }
  }

  /** A save changes no intent; what it sends is every unsaved row as it is now. */
  lemma SaveSends(s: Records, now: Time)
    requires Inv(s)
    ensures var (t, batch) := Save(s, now);
      && Inv(t) && Intents(t) == Intents(s)
      && (batch.None? ==> t == s && (s.saving.Some? || s.unsaved == {}))
      && (batch.Some? ==>
            && s.saving.None? && t.unsaved == {} && t.saving == Some(s.unsaved)
            && FromSent(batch.value, Intents(t)) && BatchBelow(batch.value, t.nextId)
            && (forall id :: id in s.unsaved ==> InBatch(batch.value, id)))
  {
    var (t, batch) := Save(s, now);
    if batch.Some? {
      assert RowsOf(t.entries) == RowsOf(s.entries);
      assert Keyed(t);
      BatchHolds(s.entries, s.unsaved, s.nextId);
      hide Keyed, FromSent, InBatch, BatchBelow, MarkSaved, RowsOf, HashIndexAgrees, MamIndexAgrees;
    }
  }

  lemma InvIsSound(s: Records)
    requires Inv(s)
    ensures Sound(Intents(s))
  {
    assert HashIndexAgrees(Intents(s), s.byHash);
    assert MamIndexAgrees(Intents(s), s.byMam);
  }

  // ---------- Reading the table back ----------

  lemma {:induction false} ReadBelowRows(table: Table, bound: RecordId, top: RecordId)
    requires TableKeyed(table, top) && bound <= top
    ensures Ascending(ReadBelow(table, bound))
    ensures forall i :: 0 <= i < |ReadBelow(table, bound)| ==>
      var r := ReadBelow(table, bound)[i]; r.id < bound && r.id in table && table[r.id] == r
    ensures forall id :: id in table && id < bound ==>
      exists i :: 0 <= i < |ReadBelow(table, bound)| && ReadBelow(table, bound)[i].id == id
  {
    if bound != 0 {
      ReadBelowRows(table, bound - 1, top);
      var before := ReadBelow(table, bound - 1);
      var after := ReadBelow(table, bound);
      assert after == if bound - 1 in table then before + [table[bound - 1]] else before;
      hide ReadBelow;
      forall id | id in table && id < bound
        ensures exists i :: 0 <= i < |after| && after[i].id == id
      {
        if id < bound - 1 {
          var i :| 0 <= i < |before| && before[i].id == id;
          assert after[i].id == id;
        } else {
          assert after[|before|].id == id;
        }
      }
    }
  }

  lemma ReadBelowOk(table: Table, bound: RecordId)
    requires TableKeyed(table, bound) && Sound(TableRows(table))
    ensures RowsOk(ReadBelow(table, bound))
  {
    var rows := ReadBelow(table, bound);
    ReadBelowRows(table, bound, bound);
    var byMam :| MamIndexAgrees(TableRows(table), byMam);
    assert forall i :: 0 <= i < |rows| ==> rows[i].id in TableRows(table);
    forall i, j | 0 <= i < j < |rows| && rows[i].identity.HashOf().Some?
      ensures rows[i].identity.HashOf() != rows[j].identity.HashOf()
    {
      HashesAreUnique(TableRows(table), rows[i].id, rows[j].id);
    }
  }

  lemma LoadedRowsAreStored(table: Table, bound: RecordId, rows: seq<Record>, entries: map<RecordId, Entry>)
    requires TableKeyed(table, bound)
    requires forall i :: 0 <= i < |rows| ==> rows[i].id in table && table[rows[i].id] == rows[i]
    requires forall id :: id in table ==> exists i :: 0 <= i < |rows| && rows[i].id == id
    requires forall i :: 0 <= i < |rows| ==> rows[i].id in entries && entries[rows[i].id].record == rows[i]
    requires forall id :: id in entries ==> exists i :: 0 <= i < |rows| && rows[i].id == id
    ensures RowsOf(entries) == TableRows(table)
  {
    forall id | id in entries
      ensures id in table && entries[id].record == table[id]
    {
      var i :| 0 <= i < |rows| && rows[i].id == id;
    }
    forall id | id in table
      ensures id in entries
    {
      var i :| 0 <= i < |rows| && rows[i].id == id;
    }
  }

  /** A restart loads exactly the stored intent, soundly indexed. */
  lemma LoadReadsTable(table: Table, bound: RecordId)
    requires TableKeyed(table, bound) && Sound(TableRows(table))
    ensures var s := Load(ReadBelow(table, bound));
      Inv(s) && Intents(s) == TableRows(table) && s.unsaved == {} && s.saving.None?
  {
    var rows := ReadBelow(table, bound);
    ReadBelowRows(table, bound, bound);
    ReadBelowOk(table, bound);
    LoadInv(rows);
    EntriesOfRows(rows);
    var s := Load(rows);
    assert s.unsaved == {} && s.saving.None? && s.entries == EntriesOf(rows);
    hide Load, ReadBelow, Inv, RowsOk, Ascending, Sound, EntriesOf, RowsOf, TableRows;
    LoadedRowsAreStored(table, bound, rows, s.entries);
  }

  // ---------- Every step keeps the invariant ----------

  lemma AdvanceSaved(older: Rows, s: Records, t: Records)
    requires SavedUpTo(older, Intents(s), s.unsaved) && Advances(s, t)
    ensures SavedUpTo(older, Intents(t), t.unsaved)
  {
  }

  /** Sending what is unsaved, with nothing in flight and the table saved up to it. */
  lemma EmitKeeps(y: System, s: Records, now: Time)
    requires TableKeyed(y.table, y.bound) && Sound(TableRows(y.table)) && TableRows(y.table) in y.past
    requires Inv(s) && s.saving.None?
    requires SavedUpTo(TableRows(y.table), Intents(s), s.unsaved)
    ensures SystemInv(Emit(y, Save(s, now), Nothing))
  {
    SaveSends(s, now);
    InvIsSound(s);
    var (t, batch) := Save(s, now);
    hide Save, Inv, Sound, InBatch, FromSent, BatchBelow, TableKeyed;
    if batch.None? {
      EmitKeepsQuiet(y, s);
    } else {
      EmitBatchKeeps(y, t, batch.value, s.unsaved);
    }
  }

  lemma EmitBatchKeeps(y: System, t: Records, batch: seq<Record>, ids: set<RecordId>)
    requires TableKeyed(y.table, y.bound) && Sound(TableRows(y.table)) && TableRows(y.table) in y.past
    requires Inv(t) && Sound(Intents(t)) && t.unsaved == {} && t.saving == Some(ids)
    requires SavedUpTo(TableRows(y.table), Intents(t), ids)
    requires FromSent(batch, Intents(t)) && BatchBelow(batch, t.nextId)
      && (forall id :: id in ids ==> InBatch(batch, id))
    ensures SystemInv(Emit(y, (t, Some(batch)), Nothing))
  {
    var z := Emit(y, (t, Some(batch)), Nothing);
    PastGrows(y, z, Intents(t));
    TableKeyedGrows(y.table, y.bound, z.bound);
    BatchBelowGrows(batch, t.nextId, z.bound);
    assert SavedUpTo(z.sent, Intents(t), {});
    assert Completes(z.table, batch, ids, z.sent);
    hide SavedUpTo, Completes, HashKept, TableKeyed, BatchBelow, Inv, Sound, FromSent, InBatch, TableRows, RowsOf;
  }

  lemma TableKeyedGrows(table: Table, bound: RecordId, bound': RecordId)
    requires TableKeyed(table, bound) && bound <= bound'
    ensures TableKeyed(table, bound')
  {
  }

  lemma BatchBelowGrows(batch: seq<Record>, bound: RecordId, bound': RecordId)
    requires BatchBelow(batch, bound) && bound <= bound'
    ensures BatchBelow(batch, bound')
  {
  }

  lemma PastGrows(y: System, z: System, rows: Rows)
    requires z.past == y.past + [rows] && z.table == y.table && TableRows(y.table) in y.past
    ensures rows in z.past && TableRows(z.table) in z.past
  {
    assert z.past[|z.past| - 1] == rows;
    var i :| 0 <= i < |y.past| && y.past[i] == TableRows(y.table);
    assert z.past[i] == TableRows(y.table);
  }

  lemma SentStaysPast(y: System, rows: Rows)
    ensures y.sent in y.past ==> y.sent in y.past + [rows]
  {
  }

  lemma AskWhileIdle(y: System, t: Records, now: Time)
    requires SystemInv(y) && y.memory.Loaded? && y.flight.Nothing?
    requires Inv(t) && Advances(y.memory.records, t)
    ensures SystemInv(Emit(y, Save(t, now), y.flight))
  {
    AdvanceSaved(TableRows(y.table), y.memory.records, t);
    hide Inv, Sound, TableKeyed, Completes, FromSent, BatchBelow, SavedUpTo, Advances, TableRows, Intents, InFlight;
    EmitKeeps(y, t, now);
    hide Save, SystemInv;
  }

  /** While a batch is outstanding a change is only remembered. */
  lemma AskInFlight(y: System, t: Records, now: Time)
    requires SystemInv(y) && y.memory.Loaded? && !y.flight.Nothing?
    requires Inv(t) && Advances(y.memory.records, t)
    ensures SystemInv(Emit(y, Save(t, now), y.flight))
  {
    AdvanceSaved(y.sent, y.memory.records, t);
    assert t.saving == y.memory.records.saving;
    assert Save(t, now) == (t, None);
    hide Inv, Sound, TableKeyed, Completes, FromSent, BatchBelow, SavedUpTo, Advances, TableRows, Intents, Save;
    PastGrows(y, Emit(y, (t, None), y.flight), Intents(t));
    SentStaysPast(y, Intents(t));
  }

  lemma AskKeeps(y: System, change: Change, now: Time)
    requires SystemInv(y)
    ensures SystemInv(Step(y, Ask(change, now)))
  {
    if y.memory.Loaded? && Allowed(y.memory.records, change) {
      var t := Changed(y.memory.records, change);
      ChangedKeeps(y.memory.records, change);
      hide Changed, Inv, Advances;
      if y.flight.Nothing? {
        AskWhileIdle(y, t, now);
      } else {
        AskInFlight(y, t, now);
      }
      hide SystemInv, Save, Emit;
    }
  }

  lemma DeliverKeeps(y: System, at: Time)
    requires SystemInv(y)
    ensures SystemInv(Step(y, Deliver(at)))
  {
    if y.memory.Loaded? && y.flight.Committed? {
      EmitKeeps(y, y.memory.records.(saving := None, saveFailed := false), at);
    } else if y.memory.Loaded? && y.flight.Failed? {
      var s := SaveFailed(y.memory.records);
      EmitKeepsQuiet(y, s);
    }
  }

  lemma EmitKeepsQuiet(y: System, s: Records)
    requires TableKeyed(y.table, y.bound) && Sound(TableRows(y.table)) && TableRows(y.table) in y.past
    requires Inv(s) && s.saving.None?
    requires SavedUpTo(TableRows(y.table), Intents(s), s.unsaved)
    ensures SystemInv(Emit(y, (s, None), Nothing))
  {
    PastGrows(y, Emit(y, (s, None), Nothing), Intents(s));
  }

  lemma StepKeeps(y: System, l: Label)
    requires SystemInv(y)
    ensures SystemInv(Step(y, l))
  {
    match l
    case Ask(change, now) => AskKeeps(y, change, now);
    case Commit =>
      if y.flight.Saving? {
        CommitStoresWhatWasSent(y.table, y.flight.batch, y.memory.records.saving.value, y.sent, y.bound);
      }
    case Deliver(at) => DeliverKeeps(y, at);
    case LoadRows =>
      if y.memory.Down? {
        LoadReadsTable(y.table, y.bound);
        EmitKeepsQuiet(y, Load(ReadBelow(y.table, y.bound)));
      }
    case _ =>
  }

  /** A system that starts from any sound table, such as the empty one. */
  ghost predicate Initial(y: System) {
    && y.memory.Down? && y.flight.Nothing?
    && TableKeyed(y.table, y.bound) && Sound(TableRows(y.table))
    && y.past == [TableRows(y.table)]
  }

  /** Every run, with saves that fail and crashes at any moment, keeps the invariant. */
  lemma {:induction false} RunKeeps(y: System, labels: seq<Label>)
    requires Initial(y)
    ensures SystemInv(Run(y, labels))
  {
    if labels == [] {
      assert y.past[0] == TableRows(y.table);
    } else {
      RunKeeps(y, labels[..|labels| - 1]);
      StepKeeps(Run(y, labels[..|labels| - 1]), labels[|labels| - 1]);
    }
  }

  /**
   * Crash consistency: after any run, a crash and a restart load a registry whose whole intent is
   * one the registry really had, with every index sound.
   */
  lemma RestartReloadsAPastRegistry(y: System, labels: seq<Label>)
    requires Initial(y)
    ensures var z := Step(Step(Run(y, labels), Crash), LoadRows);
      && z.memory.Loaded? && Inv(z.memory.records)
      && Intents(z.memory.records) == TableRows(Run(y, labels).table)
      && Intents(z.memory.records) in Run(y, labels).past
    ensures var z := Step(Step(Run(y, labels), Crash), LoadRows);
      forall was: Records {:trigger IndexAgrees(was)} ::
        IndexAgrees(was) && Intents(was) == Intents(z.memory.records) ==>
        && z.memory.records.byHash == was.byHash
        && (forall m :: m in was.byMam && IsLive(was, m) ==>
              m in z.memory.records.byMam && z.memory.records.byMam[m] == was.byMam[m])
  {
    var end := Run(y, labels);
    RunKeeps(y, labels);
    LoadReadsTable(end.table, end.bound);
    var z := Step(Step(end, Crash), LoadRows);
    var now := z.memory.records;
    hide Run, Load, ReadBelow;
    forall was: Records | IndexAgrees(was) && Intents(was) == Intents(now)
      ensures now.byHash == was.byHash
      ensures forall m :: m in was.byMam && IsLive(was, m) ==> m in now.byMam && now.byMam[m] == was.byMam[m]
    {
      SameIntentSameLookups(was, now);
    }
  }

  /** Every committed batch leaves the table equal to the registry at the moment that batch was sent. */
  lemma CommitIsASnapshot(y: System, labels: seq<Label>)
    requires Initial(y) && Run(y, labels).flight.Saving?
    ensures var z := Step(Run(y, labels), Commit);
      TableRows(z.table) == Run(y, labels).sent && z.table == PutRows(Run(y, labels).table, Run(y, labels).flight.batch)
  {
    var end := Run(y, labels);
    RunKeeps(y, labels);
    hide Run;
    CommitStoresWhatWasSent(end.table, end.flight.batch, end.memory.records.saving.value, end.sent, end.bound);
    SaveTorrentsOnlyWrites(end.table, end.flight.batch, end.sent);
  }

  // ---------- What a caller of one change can rely on ----------

  /** The registry is sound after, and every row whose intent changed is marked unsaved or in the batch sent. */
  ghost predicate Accounted(s: Records, t: Records, batch: Option<seq<Record>>) {
    && Inv(t)
    && (forall id :: id in Intents(t) ==>
          || (id in Intents(s) && Intents(t)[id] == Intents(s)[id])
          || id in t.unsaved
          || (batch.Some? && InBatch(batch.value, id)))
  }

  lemma SaveAccounts(s: Records, u: Records, now: Time)
    requires Inv(u) && Advances(s, u)
    ensures Accounted(s, Save(u, now).0, Save(u, now).1)
  {
    SaveSends(u, now);
    hide Save, Inv, InBatch, FromSent, BatchBelow, HashKept;
  }

  lemma ChangeAccounts(s: Records, c: Change, now: Time)
    requires Inv(s) && Allowed(s, c)
    ensures Accounted(s, Save(Changed(s, c), now).0, Save(Changed(s, c), now).1)
  {
    ChangedKeeps(s, c);
    hide Changed, Save, Inv, Advances;
    SaveAccounts(s, Changed(s, c), now);
  }

  lemma AnswerAccounts(s: Records, now: Time)
    requires Inv(s)
    ensures Accounted(s, Saved(s, now).0, Saved(s, now).1) && Accounted(s, SaveFailed(s), None)
  {
    if s.saving.Some? {
      var u := s.(saving := None, saveFailed := false);
      assert Intents(u) == Intents(s) && Inv(u);
      assert Intents(SaveFailed(s)) == Intents(s) && Inv(SaveFailed(s));
      SaveSends(u, now);
      hide Save, Inv, InBatch, FromSent, BatchBelow;
    }
  }

  // ---------- No removed row keeps a hash ----------

  /** A removed row is a bookmark that was never fetched itself: it has no hash. */
  ghost predicate RemovedHaveNoHash(rows: Rows) {
    forall id :: id in rows && rows[id].desired.Removed? ==> rows[id].identity.Mam?
  }

  ghost predicate NoRemovedHash(s: Records) {
    forall id :: id in s.entries && s.entries[id].record.desired.Removed? ==> s.entries[id].record.identity.Mam?
  }

  lemma {:induction false} ObserveRemoved(s: Records, now: Clock, listing: seq<(Hash, Torrent)>)
    requires NoRemovedHash(s)
    ensures NoRemovedHash(Observe(s, now, listing))
  {
    if listing != [] { ObserveRemoved(s, now, listing[..|listing| - 1]); }
  }

  lemma {:induction false} BookmarkedRemoved(s: Records, bookmarks: seq<(MamId, BookmarkDesired)>)
    requires NoRemovedHash(s)
    ensures NoRemovedHash(Bookmarked(s, bookmarks))
  {
    if bookmarks != [] { BookmarkedRemoved(s, bookmarks[..|bookmarks| - 1]); }
  }

  /** A fetch removes only the queued row it was asked for, which has no hash. */
  lemma FetchedRemoved(s: Records, mam: MamId, hash: Hash)
    requires Inv(s) && QueuedFor(s, mam) && NoRemovedHash(s)
    ensures NoRemovedHash(Fetched(s, mam, hash))
  {
    LinkRows(s, mam, hash);
    assert Intents(s)[s.byMam[mam]].identity.Mam?;
    RemovedByRows(s);
    RemovedByRows(Fetched(s, mam, hash));
    hide Inv, Fetched, NoRemovedHash, RowsOf;
  }

  lemma ChangedRemoved(s: Records, c: Change)
    requires Inv(s) && Allowed(s, c) && NoRemovedHash(s)
    ensures NoRemovedHash(Changed(s, c))
  {
    match c
    case Observed(clock, listing) => ObserveRemoved(s, clock, listing);
    case NewBookmarks(bookmarks) => BookmarkedRemoved(s, bookmarks);
    case FileFetched(mam, hash) => FetchedRemoved(s, mam, hash);
    case _ => hide HashIndexAgrees, MamIndexAgrees, Keyed;
  }

  lemma RemovedByRows(s: Records)
    ensures NoRemovedHash(s) <==> RemovedHaveNoHash(Intents(s))
  {
    if RemovedHaveNoHash(Intents(s)) {
      forall id | id in s.entries && s.entries[id].record.desired.Removed?
        ensures s.entries[id].record.identity.Mam?
      {
        assert id in Intents(s);
      }
    }
  }

  ghost predicate RemovedInv(y: System) {
    && RemovedHaveNoHash(TableRows(y.table))
    && (y.memory.Loaded? ==> RemovedHaveNoHash(Intents(y.memory.records)))
    && (y.flight.Saving? ==> RemovedHaveNoHash(y.sent))
  }

  lemma EmitRemoved(y: System, s: Records, now: Time, flight: Flight)
    requires Inv(s) && RemovedInv(y) && RemovedHaveNoHash(Intents(s)) && (flight.Saving? ==> y.flight == flight)
    ensures RemovedInv(Emit(y, Save(s, now), flight))
  {
    SaveSends(s, now);
    hide Save, RemovedHaveNoHash, Inv;
  }

  lemma StepRemoved(y: System, l: Label)
    requires SystemInv(y) && RemovedInv(y)
    ensures RemovedInv(Step(y, l))
  {
    match l
    case Ask(change, now) =>
      if y.memory.Loaded? && Allowed(y.memory.records, change) {
        var s := y.memory.records;
        RemovedByRows(s);
        RemovedByRows(Changed(s, change));
        ChangedRemoved(s, change);
        ChangedKeeps(s, change);
        hide RemovedHaveNoHash, NoRemovedHash, Inv, Changed;
        EmitRemoved(y, Changed(s, change), now, y.flight);
        hide Save, Emit, RemovedInv;
      }
    case Commit =>
      if y.flight.Saving? {
        CommitStoresWhatWasSent(y.table, y.flight.batch, y.memory.records.saving.value, y.sent, y.bound);
        hide RemovedHaveNoHash, SaveTorrents, TableRows, Completes, Sound, TableKeyed;
      }
    case Deliver(at) => DeliverRemoved(y, at);
    case LoadRows =>
      if y.memory.Down? {
        LoadReadsTable(y.table, y.bound);
        hide RemovedHaveNoHash, Load, ReadBelow, Inv;
      }
    case _ => hide RemovedHaveNoHash;
  }

  lemma DeliverRemoved(y: System, at: Time)
    requires SystemInv(y) && RemovedInv(y)
    ensures RemovedInv(Step(y, Deliver(at)))
  {
    hide RemovedHaveNoHash;
    if y.memory.Loaded? && y.flight.Committed? {
      var s := y.memory.records.(saving := None, saveFailed := false);
      assert Intents(s) == Intents(y.memory.records) && Inv(s);
      hide Inv, Sound, TableKeyed, SavedUpTo;
      EmitRemoved(y, s, at, Nothing);
    } else if y.memory.Loaded? && y.flight.Failed? {
      assert Intents(SaveFailed(y.memory.records)) == Intents(y.memory.records);
    }
  }

  lemma {:induction false} RunRemoved(y: System, labels: seq<Label>)
    requires Initial(y) && RemovedHaveNoHash(TableRows(y.table))
    ensures RemovedInv(Run(y, labels))
  {
    if labels != [] {
      RunRemoved(y, labels[..|labels| - 1]);
      RunKeeps(y, labels[..|labels| - 1]);
      StepRemoved(Run(y, labels[..|labels| - 1]), labels[|labels| - 1]);
    }
  }

  /** So in every run from such a table, holding any torrent keeps the indexes: the failing input is never reached. */
  lemma HoldAlwaysKeepsIndex(y: System, labels: seq<Label>, hash: Hash)
    requires Initial(y) && RemovedHaveNoHash(TableRows(y.table)) && Run(y, labels).memory.Loaded?
    ensures IndexAgrees(Hold(Run(y, labels).memory.records, hash))
  {
    RunRemoved(y, labels);
    RunKeeps(y, labels);
    var s := Run(y, labels).memory.records;
    hide Run;
    RemovedByRows(s);
    HoldKeepsIndexIff(s, hash);
    if hash in s.byHash { assert s.byHash[hash] in Intents(s); }
  }

  /**
   * Which MAM lookups a restart changes: against any sound index of the rows reloaded, exactly
   * those that named another row than the live one, or than the newest when all are removed.
   */
  lemma RestartChangesLookupsIff(y: System, labels: seq<Label>, was: Records, m: MamId)
    requires Initial(y) && IndexAgrees(was) && Intents(was) == TableRows(Run(y, labels).table)
    ensures var z := Step(Step(Run(y, labels), Crash), LoadRows);
      && z.memory.Loaded?
      && (Lookup(was.byMam, m) != Lookup(z.memory.records.byMam, m) <==>
          m in was.byMam && !NamedAfterRestart(Intents(was), m, was.byMam[m]))
      && (m in z.memory.records.byMam <==> HasMam(Intents(was), m))
  {
    var end := Run(y, labels);
    RunKeeps(y, labels);
    hide Run;
    LoadReadsTable(end.table, end.bound);
    ReadBelowOk(end.table, end.bound);
    hide ReadBelow, Sound, TableKeyed, Inv, RowsOk;
    LookupsAfterRestartIff(was, ReadBelow(end.table, end.bound), m);
    LoadLookup(ReadBelow(end.table, end.bound), m);
    hide Load;
  }
}
