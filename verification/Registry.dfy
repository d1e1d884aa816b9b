/** The torrent registry in memory: rows, two indexes, the dirty set and one outstanding batch. */
module Registry {
  import opened Basics
  import opened Torrents

  type RecordId = nat
  type MamId = nat

  /** How often changed counters are saved. */
  const COUNTER_SAVE_INTERVAL: int := 15 * MINUTE

  datatype Identity = Mam(mam: MamId) | Client(hash: Hash) | Linked(mam: MamId, hash: Hash) {
    function HashOf(): Option<Hash> {
      if Mam? then None else Some(hash)
    }

    function MamOf(): Option<MamId> {
      if Client? then None else Some(mam)
    }
  }

  datatype Origin = Bookmark | Redownloaded | Adopted

  datatype Desired = Queued | Snatched | Active | Held | Removed

  datatype Observation = Observation(torrent: Torrent, lastSeen: Time)

  datatype Record = Record(
    id: RecordId,
    identity: Identity,
    origin: Origin,
    desired: Desired,
    savePath: Option<string>,
    deletionAllowed: bool,
    observation: Option<Observation>)

  datatype Counters = CountersSaved | CountersUnsaved

  datatype Entry = Entry(record: Record, savedAt: Option<Time>, counters: Counters)

  datatype Records = Records(
    entries: map<RecordId, Entry>,
    byHash: map<Hash, RecordId>,
    byMam: map<MamId, RecordId>,
    nextId: RecordId,
    unsaved: set<RecordId>,
    saving: Option<set<RecordId>>,
    saveFailed: bool)

  /** A bookmark is queued, or waits for its owner when MAM reports it snatched before. */
  type BookmarkDesired = d: Desired | d.Queued? || d.Snatched? witness Queued

  // ---------- Loading ----------

  function MaxId(rows: seq<Record>): (n: RecordId)
    ensures forall i :: 0 <= i < |rows| ==> rows[i].id <= n
  {
    if rows == [] then 0
    else
      var n := MaxId(rows[..|rows| - 1]);
      if rows[|rows| - 1].id > n then rows[|rows| - 1].id else n
  }

  function IndexByHash(rows: seq<Record>): map<Hash, RecordId> {
    if rows == [] then map[]
    else
      var last := rows[|rows| - 1];
      var index := IndexByHash(rows[..|rows| - 1]);
      if last.identity.HashOf().Some? then index[last.identity.HashOf().value := last.id] else index
  }

  /** Index the rows whose removal status is `removed` on top of `index`; a later row wins. */
  function IndexByMam(rows: seq<Record>, removed: bool, index: map<MamId, RecordId>): map<MamId, RecordId> {
    if rows == [] then index
    else
      var last := rows[|rows| - 1];
      var before := IndexByMam(rows[..|rows| - 1], removed, index);
      if last.desired.Removed? == removed && last.identity.MamOf().Some?
      then before[last.identity.MamOf().value := last.id]
      else before
  }

  function EntriesOf(rows: seq<Record>): map<RecordId, Entry> {
    if rows == [] then map[]
    else
      var last := rows[|rows| - 1];
      EntriesOf(rows[..|rows| - 1])[last.id := Entry(last, None, CountersSaved)]
  }

  /** The registry as built from stored rows; a live row wins its MAM ID over removed ones. */
  function Load(rows: seq<Record>): Records {
    Records(
      EntriesOf(rows),
      IndexByHash(rows),
      IndexByMam(rows, false, IndexByMam(rows, true, map[])),
      MaxId(rows) + 1,
      {}, None, false)
  }

  // ---------- Changes ----------

  function SetDesired(s: Records, id: RecordId, desired: Desired): Records {
    s.(entries := if id in s.entries
                  then s.entries[id := s.entries[id].(record := s.entries[id].record.(desired := desired))]
                  else s.entries,
       unsaved := s.unsaved + {id})
  }

  function Insert(s: Records, identity: Identity, origin: Origin, desired: Desired, savePath: Option<string>): Records {
    s.(entries := s.entries[s.nextId :=
                    Entry(Record(s.nextId, identity, origin, desired, savePath, false, None), None, CountersSaved)],
       nextId := s.nextId + 1)
  }

  /** A torrent found in qBittorrent without a row gains one. */
  function Adopt(s: Records, hash: Hash, torrent: Torrent): Records {
    Insert(s, Client(hash), Adopted, Active, torrent.savePath).(byHash := s.byHash[hash := s.nextId])
  }

  /** Whether a change is saved at once rather than with the periodic counters. */
  predicate Significant(previous: Torrent, current: Torrent) {
    || previous.name != current.name
    || previous.state != current.state
    || previous.size != current.size
    || previous.totalSize != current.totalSize
    || previous.addedAt != current.addedAt
    || previous.completedAt != current.completedAt
    || previous.contentPath != current.contentPath
    || previous.savePath != current.savePath
  }

  /** Record an observation; the flag says whether the row must be saved now. */
  function EntryObserve(e: Entry, now: Time, observation: Observation): (Entry, bool) {
    var seen := e.(record := e.record.(observation := Some(observation)));
    match e.record.observation
    case Some(previous) =>
      if Significant(previous.torrent, observation.torrent) then (seen, true)
      else
        var counters := if previous.torrent != observation.torrent then CountersUnsaved else e.counters;
        var due := e.savedAt.None? || Since(now, e.savedAt.value) >= COUNTER_SAVE_INTERVAL;
        (seen.(counters := counters), counters.CountersUnsaved? && due)
    case None => (seen, true)
  }

  /** Note what qBittorrent reports in the row, which exists. */
  function NoteSeen(s: Records, now: Clock, id: RecordId, torrent: Torrent): Records {
    if id !in s.entries then s
    else
      var (entry, due) := EntryObserve(s.entries[id], now.monotonic, Observation(torrent, now.wall));
      s.(entries := s.entries[id := entry], unsaved := if due then s.unsaved + {id} else s.unsaved)
  }

  function ObserveOne(s: Records, now: Clock, hash: Hash, torrent: Torrent): Records {
    var found := if hash in s.byHash then s else Adopt(s, hash, torrent);
    var id := found.byHash[hash];
    var seen := NoteSeen(found, now, id, torrent);
    // A held torrent that completed anyway must seed.
    if id in seen.entries && seen.entries[id].record.desired.Held? && torrent.completedAt.Some?
    then SetDesired(seen, id, Active)
    else seen
  }

  function Observe(s: Records, now: Clock, listing: seq<(Hash, Torrent)>): Records {
    if listing == [] then s
    else
      var before := Observe(s, now, listing[..|listing| - 1]);
      ObserveOne(before, now, listing[|listing| - 1].0, listing[|listing| - 1].1)
  }

  function BookmarkOne(s: Records, mam: MamId, desired: BookmarkDesired): Records {
    if mam in s.byMam then s
    else
      Insert(s, Mam(mam), Bookmark, desired, None).(
        byMam := s.byMam[mam := s.nextId],
        unsaved := s.unsaved + {s.nextId})
  }

  function Bookmarked(s: Records, bookmarks: seq<(MamId, BookmarkDesired)>): Records {
    if bookmarks == [] then s
    else
      var before := Bookmarked(s, bookmarks[..|bookmarks| - 1]);
      BookmarkOne(before, bookmarks[|bookmarks| - 1].0, bookmarks[|bookmarks| - 1].1)
  }

  predicate IsSnatched(s: Records, id: RecordId) {
    id in s.entries && s.entries[id].record.desired.Snatched?
  }

  function Redownload(s: Records, id: RecordId): Records
    requires IsSnatched(s, id)
  {
    var entry := s.entries[id];
    s.(entries := s.entries[id := entry.(record := entry.record.(desired := Queued, origin := Redownloaded))],
       unsaved := s.unsaved + {id})
  }

  function Relabel(s: Records, id: RecordId, identity: Identity, origin: Option<Origin>): Records {
    if id !in s.entries then s
    else
      var r := s.entries[id].record;
      var named := r.(identity := identity, origin := if origin.Some? then origin.value else r.origin);
      s.(entries := s.entries[id := s.entries[id].(record := named)])
  }

  /** The row a fetched torrent becomes: the one already under its hash, if that is another. */
  function LinkTarget(s: Records, id: RecordId, hash: Hash): RecordId {
    if hash in s.byHash && s.byHash[hash] != id then s.byHash[hash] else id
  }

  /** The row becomes active under this MAM ID and hash. */
  function Name(s: Records, id: RecordId, mam: MamId, hash: Hash, origin: Option<Origin>): Records {
    var named := Relabel(s, id, Linked(mam, hash), origin);
    SetDesired(named, id, Active).(byHash := named.byHash[hash := id])
  }

  /**
   * Link a fetched row to its hash and make it active. A torrent already in qBittorrent keeps its
   * row, which gains the MAM ID; the queued row stays as history.
   */
  function Link(s: Records, id: RecordId, mam: MamId, hash: Hash): Records {
    var target := LinkTarget(s, id, hash);
    var origin := if id in s.entries then Some(s.entries[id].record.origin) else None;
    var moved := if target != id then SetDesired(s, id, Removed).(byMam := s.byMam[mam := target]) else s;
    Name(moved, target, mam, hash, origin)
  }

  function Fetched(s: Records, mam: MamId, hash: Hash): Records {
    if mam in s.byMam then Link(s, s.byMam[mam], mam, hash) else s
  }

  function SnatchedBefore(s: Records, mam: MamId): Records {
    if mam in s.byMam && s.byMam[mam] in s.entries
       && s.entries[s.byMam[mam]].record.desired.Queued?
       && s.entries[s.byMam[mam]].record.origin.Bookmark?
    then SetDesired(s, s.byMam[mam], Snatched)
    else s
  }

  function Resume(s: Records, hash: Hash): Records {
    if hash in s.byHash && s.byHash[hash] in s.entries && s.entries[s.byHash[hash]].record.desired.Held?
    then SetDesired(s, s.byHash[hash], Active)
    else s
  }

  function Hold(s: Records, hash: Hash): Records {
    if hash in s.byHash then SetDesired(s, s.byHash[hash], Held) else s
  }

  // ---------- Saving ----------

  /** The rows of `ids` below `bound`, oldest first. */
  function Batch(entries: map<RecordId, Entry>, ids: set<RecordId>, bound: RecordId): seq<Record> {
    if bound == 0 then []
    else
      var before := Batch(entries, ids, bound - 1);
      if bound - 1 in ids && bound - 1 in entries then before + [entries[bound - 1].record] else before
  }

  function MarkSaved(entries: map<RecordId, Entry>, ids: set<RecordId>, now: Time): map<RecordId, Entry> {
    map id | id in entries ::
      if id in ids then entries[id].(savedAt := Some(now), counters := CountersSaved) else entries[id]
  }

  /** Every changed row goes into one batch, unless a batch is outstanding. */
  function Save(s: Records, now: Time): (Records, Option<seq<Record>>) {
    if s.saving.Some? || s.unsaved == {} then (s, None)
    else
      (s.(entries := MarkSaved(s.entries, s.unsaved, now), unsaved := {}, saving := Some(s.unsaved)),
       Some(Batch(s.entries, s.unsaved, s.nextId)))
  }

  function Saved(s: Records, now: Time): (Records, Option<seq<Record>>) {
    if s.saving.Some? then Save(s.(saving := None, saveFailed := false), now) else (s, None)
  }

  function SaveFailed(s: Records): Records {
    if s.saving.Some?
    then s.(unsaved := s.unsaved + s.saving.value, saving := None, saveFailed := true)
    else s
  }

  // ---------- Index agreement ----------

  /** The part of a row that is intent rather than observation. */
  datatype Intent = Intent(
    identity: Identity, origin: Origin, desired: Desired, savePath: Option<string>, deletionAllowed: bool)

  type Rows = map<RecordId, Intent>

  function IntentOf(r: Record): Intent {
    Intent(r.identity, r.origin, r.desired, r.savePath, r.deletionAllowed)
  }

  function RowsOf(entries: map<RecordId, Entry>): Rows {
    map id | id in entries :: IntentOf(entries[id].record)
  }

  function Intents(s: Records): Rows {
    RowsOf(s.entries)
  }

  /** `byHash` names exactly the row with each hash; so hashes are unique. */
  ghost predicate HashIndexAgrees(rows: Rows, byHash: map<Hash, RecordId>) {
    && (forall h :: h in byHash ==> byHash[h] in rows && rows[byHash[h]].identity.HashOf() == Some(h))
    && (forall id :: id in rows && rows[id].identity.HashOf().Some? ==>
          rows[id].identity.HashOf().value in byHash && byHash[rows[id].identity.HashOf().value] == id)
  }

  /** Every MAM ID of a row is known, and names its live row; so each has at most one live row. */
  ghost predicate MamIndexAgrees(rows: Rows, byMam: map<MamId, RecordId>) {
    && (forall m :: m in byMam ==> byMam[m] in rows)
    && (forall id :: id in rows && rows[id].identity.MamOf().Some? ==>
          && rows[id].identity.MamOf().value in byMam
          && (!rows[id].desired.Removed? ==> byMam[rows[id].identity.MamOf().value] == id))
  }

  /** A row still waiting for its fetch has no hash. */
  ghost predicate WaitingRowsHaveNoHash(rows: Rows) {
    forall id :: id in rows && (rows[id].desired.Queued? || rows[id].desired.Snatched?) ==> rows[id].identity.Mam?
  }

  ghost predicate IndexAgrees(s: Records) {
    HashIndexAgrees(Intents(s), s.byHash) && MamIndexAgrees(Intents(s), s.byMam)
  }

  /** Row identities are their keys and below `nextId`, and only rows are marked for saving. */
  ghost predicate Keyed(s: Records) {
    && (forall id :: id in s.entries ==> s.entries[id].record.id == id && 1 <= id < s.nextId)
    && 1 <= s.nextId
    && s.unsaved <= s.entries.Keys
    && (s.saving.Some? ==> s.saving.value <= s.entries.Keys)
  }

  ghost predicate Inv(s: Records) {
    IndexAgrees(s) && WaitingRowsHaveNoHash(Intents(s)) && Keyed(s)
  }

  /** No row is lost, and a row keeps its hash once it has one. */
  ghost predicate HashKept(older: Rows, newer: Rows) {
    forall id :: id in older ==>
      && id in newer
      && (older[id].identity.HashOf().Some? ==> newer[id].identity.HashOf() == older[id].identity.HashOf())
  }

  /** What every change does: rows and hashes stay, and a row whose intent changed is marked unsaved. */
  ghost predicate Advances(s: Records, t: Records) {
    && HashKept(Intents(s), Intents(t))
    && s.unsaved <= t.unsaved
    && t.saving == s.saving
    && (forall id :: id in Intents(t) && id !in t.unsaved ==>
          id in Intents(s) && Intents(t)[id] == Intents(s)[id])
  }

  lemma AdvancesTrans(s: Records, t: Records, u: Records)
    requires Advances(s, t) && Advances(t, u)
    ensures Advances(s, u)
  {
  }

  // ---------- Every change keeps the invariant ----------

  /** Putting one row under its hash keeps the hash index when the hash is not another row's and none is lost. */
  lemma PutKeepsHashIndex(
      rows: Rows, byHash: map<Hash, RecordId>, id: RecordId, row: Intent, byHash': map<Hash, RecordId>)
    requires HashIndexAgrees(rows, byHash)
    requires id in rows && rows[id].identity.HashOf().Some? ==> row.identity.HashOf() == rows[id].identity.HashOf()
    requires match row.identity.HashOf()
             case None => byHash' == byHash
             case Some(h) => byHash' == byHash[h := id] && (h in byHash ==> byHash[h] == id)
    ensures HashIndexAgrees(rows[id := row], byHash')
  {
  }

  /** Putting one row keeps the MAM index when its MAM ID stays, or moves away from no live row. */
  lemma PutKeepsMamIndex(
      rows: Rows, byMam: map<MamId, RecordId>, id: RecordId, row: Intent, byMam': map<MamId, RecordId>)
    requires MamIndexAgrees(rows, byMam)
    requires match row.identity.MamOf()
             case None => byMam' == byMam
             case Some(m) =>
               || (byMam' == byMam && m in byMam && (row.desired.Removed? || byMam[m] == id))
               || (byMam' == byMam[m := id]
                   && (m in byMam && byMam[m] != id && !rows[byMam[m]].desired.Removed? ==>
                       rows[byMam[m]].identity.MamOf() != Some(m)))
    ensures MamIndexAgrees(rows[id := row], byMam')
  {
  }

  /** Changing a row's wishes, but not its identity, needs no index change unless a history row comes alive. */
  lemma SameIdentityKeepsIndexes(
      rows: Rows, byHash: map<Hash, RecordId>, byMam: map<MamId, RecordId>, id: RecordId, row: Intent)
    requires HashIndexAgrees(rows, byHash) && MamIndexAgrees(rows, byMam)
    requires id in rows && row.identity == rows[id].identity && (rows[id].desired.Removed? ==> row.desired.Removed?)
    ensures HashIndexAgrees(rows[id := row], byHash) && MamIndexAgrees(rows[id := row], byMam)
  {
  }

  /** Putting one row and marking it unsaved keeps the invariant. */
  lemma PutKeeps(s: Records, t: Records, id: RecordId, row: Intent)
    requires Inv(s) && Keyed(t)
    requires Intents(t) == Intents(s)[id := row]
    requires t.unsaved == s.unsaved + {id} && t.saving == s.saving
    requires row.desired.Queued? || row.desired.Snatched? ==> row.identity.Mam?
    requires id in s.entries && Intents(s)[id].identity.HashOf().Some? ==>
      row.identity.HashOf() == Intents(s)[id].identity.HashOf()
    requires HashIndexAgrees(Intents(s)[id := row], t.byHash) && MamIndexAgrees(Intents(s)[id := row], t.byMam)
    ensures Inv(t) && Advances(s, t)
  {
  }

  lemma SetDesiredRows(s: Records, id: RecordId, desired: Desired)
    requires id in s.entries
    ensures Intents(SetDesired(s, id, desired)) == Intents(s)[id := Intents(s)[id].(desired := desired)]
  {
  }

  lemma NameRows(s: Records, id: RecordId, mam: MamId, hash: Hash, origin: Origin)
    requires id in s.entries
    ensures Intents(Name(s, id, mam, hash, Some(origin)))
         == Intents(s)[id := Intents(s)[id].(identity := Linked(mam, hash), origin := origin, desired := Active)]
  {
    var named := Relabel(s, id, Linked(mam, hash), Some(origin));
    RelabelRows(s, id, Linked(mam, hash), origin);
    SetDesiredRows(named, id, Active);
    hide RowsOf;
  }

  lemma RelabelRows(s: Records, id: RecordId, identity: Identity, origin: Origin)
    requires id in s.entries
    ensures Intents(Relabel(s, id, identity, Some(origin)))
         == Intents(s)[id := Intents(s)[id].(identity := identity, origin := origin)]
  {
  }

  lemma SetDesiredKeeps(s: Records, id: RecordId, desired: Desired)
    requires Inv(s) && id in s.entries
    requires desired.Queued? || desired.Snatched? ==> s.entries[id].record.identity.Mam?
    requires s.entries[id].record.desired.Removed? ==> desired.Removed?
    ensures Inv(SetDesired(s, id, desired)) && Advances(s, SetDesired(s, id, desired))
  {
    var t := SetDesired(s, id, desired);
    var row := Intents(s)[id].(desired := desired);
    SetDesiredRows(s, id, desired);
    SetDesiredMarks(s, id, desired);
    assert t.byHash == s.byHash && t.byMam == s.byMam;
    hide Keyed, SetDesired;
    SameIdentityKeepsIndexes(Intents(s), s.byHash, s.byMam, id, row);
    hide HashIndexAgrees, MamIndexAgrees;
    PutKeeps(s, t, id, row);
  }

  lemma AdoptRows(s: Records, now: Clock, hash: Hash, torrent: Torrent)
    requires Keyed(s)
    ensures var t := NoteSeen(Adopt(s, hash, torrent), now, s.nextId, torrent);
      && Intents(t) == Intents(s)[s.nextId := Intent(Client(hash), Adopted, Active, torrent.savePath, false)]
      && s.nextId !in Intents(s) && Keyed(t)
      && t.byHash == s.byHash[hash := s.nextId] && t.byMam == s.byMam
      && t.unsaved == s.unsaved + {s.nextId} && t.saving == s.saving
  {
  }

  lemma AdoptKeeps(s: Records, now: Clock, hash: Hash, torrent: Torrent)
    requires Inv(s) && hash !in s.byHash
    ensures var t := NoteSeen(Adopt(s, hash, torrent), now, s.nextId, torrent); Inv(t) && Advances(s, t)
  {
    var t := NoteSeen(Adopt(s, hash, torrent), now, s.nextId, torrent);
    var row := Intent(Client(hash), Adopted, Active, torrent.savePath, false);
    AdoptRows(s, now, hash, torrent);
    hide Keyed, NoteSeen, Adopt;
    PutKeepsHashIndex(Intents(s), s.byHash, s.nextId, row, t.byHash);
    hide HashIndexAgrees;
    PutKeepsMamIndex(Intents(s), s.byMam, s.nextId, row, t.byMam);
    hide MamIndexAgrees;
    PutKeeps(s, t, s.nextId, row);
  }

  lemma NoteSeenKeeps(s: Records, now: Clock, id: RecordId, torrent: Torrent)
    requires Inv(s) && id in s.entries
    ensures Inv(NoteSeen(s, now, id, torrent)) && Advances(s, NoteSeen(s, now, id, torrent))
  {
    assert Intents(NoteSeen(s, now, id, torrent)) == Intents(s);
  }

  lemma ObserveOneKeeps(s: Records, now: Clock, hash: Hash, torrent: Torrent)
    requires Inv(s)
    ensures var t := ObserveOne(s, now, hash, torrent);
            Inv(t) && Advances(s, t) && t.byHash.Keys == s.byHash.Keys + {hash}
  {
    var found := if hash in s.byHash then s else Adopt(s, hash, torrent);
    var id := found.byHash[hash];
    var seen := NoteSeen(found, now, id, torrent);
    assert id in seen.entries && seen.byHash == found.byHash by { assert id in Intents(s) || id == s.nextId; }
    assert SetDesired(seen, id, Active).byHash == seen.byHash;
    hide NoteSeen, SetDesired;
    if hash in s.byHash {
      assert id in Intents(s);
      NoteSeenKeeps(s, now, id, torrent);
    } else {
      AdoptKeeps(s, now, hash, torrent);
    }
    if seen.entries[id].record.desired.Held? && torrent.completedAt.Some? {
      SetDesiredKeeps(seen, id, Active);
      AdvancesTrans(s, seen, SetDesired(seen, id, Active));
    }
  }

  function Hashes(listing: seq<(Hash, Torrent)>): set<Hash> {
    set i | 0 <= i < |listing| :: listing[i].0
  }

  lemma HashesSplit(listing: seq<(Hash, Torrent)>)
    requires listing != []
    ensures Hashes(listing) == Hashes(listing[..|listing| - 1]) + {listing[|listing| - 1].0}
  {
    var n := |listing| - 1;
    assert forall i :: 0 <= i < n ==> listing[..n][i] == listing[i];
  }

  /** After an observation every listed torrent has a row under its hash. */
  lemma {:induction false} ObserveKeeps(s: Records, now: Clock, listing: seq<(Hash, Torrent)>)
    requires Inv(s)
    ensures var t := Observe(s, now, listing);
            Inv(t) && Advances(s, t) && t.byHash.Keys == s.byHash.Keys + Hashes(listing)
  {
    if listing != [] {
      hide ObserveOne;
      var n := |listing| - 1;
      var before := Observe(s, now, listing[..n]);
      ObserveKeeps(s, now, listing[..n]);
      ObserveOneKeeps(before, now, listing[n].0, listing[n].1);
      AdvancesTrans(s, before, Observe(s, now, listing));
      HashesSplit(listing);
    }
  }

  // ---------- What an observation does to each row ----------

  ghost predicate DistinctHashes(listing: seq<(Hash, Torrent)>) {
    forall i, j :: 0 <= i < j < |listing| ==> listing[i].0 != listing[j].0
  }

  /** A change that is saved at once: any field but the counters. */
  ghost predicate FieldsChanged(a: Torrent, b: Torrent) {
    !(a.name == b.name && a.state == b.state && a.size == b.size && a.totalSize == b.totalSize && a.addedAt == b.addedAt
      && a.completedAt == b.completedAt && a.contentPath == b.contentPath && a.savePath == b.savePath)
  }

  /** Counters changed since the last save, and that was a quarter of an hour or more ago. */
  ghost predicate CountersDue(e: Entry, now: Time, torrent: Torrent) {
    && e.record.observation != None
    && (e.counters == CountersUnsaved || e.record.observation.value.torrent != torrent)
    && (e.savedAt == None || Since(now, e.savedAt.value) >= 15 * MINUTE)
  }

  /** The row after its torrent was observed: all it held, what was seen, and active if it completed while held. */
  ghost predicate SeenAs(before: Record, after: Record, now: Clock, torrent: Torrent) {
    && after.observation == Some(Observation(torrent, now.wall))
    && after.desired == (if before.desired == Held && torrent.completedAt != None then Active else before.desired)
    && after.id == before.id && after.identity == before.identity && after.origin == before.origin
    && after.savePath == before.savePath && after.deletionAllowed == before.deletionAllowed
  }

  /** Counters that changed alone are remembered as unsaved; when the row was last saved is not touched. */
  ghost predicate SeenEntry(before: Entry, after: Entry, now: Clock, torrent: Torrent) {
    && SeenAs(before.record, after.record, now, torrent) && after.savedAt == before.savedAt
    && var previous := before.record.observation;
       after.counters ==
         if previous != None && previous.value.torrent != torrent && !FieldsChanged(previous.value.torrent, torrent)
         then CountersUnsaved else before.counters
  }

  /** The row a torrent without one gains. */
  ghost predicate AdoptedAs(after: Entry, now: Clock, hash: Hash, torrent: Torrent) {
    && after.record.observation == Some(Observation(torrent, now.wall)) && after.record.desired == Active
    && after.record.identity == Client(hash) && after.record.origin == Adopted
    && after.record.savePath == torrent.savePath && !after.record.deletionAllowed
    && after.savedAt == None && after.counters == CountersSaved
  }

  /** Whether the row of an observed torrent is saved now. */
  ghost predicate MustSave(e: Entry, now: Clock, torrent: Torrent) {
    || e.record.observation == None
    || FieldsChanged(e.record.observation.value.torrent, torrent)
    || CountersDue(e, now.monotonic, torrent)
    || (e.record.desired == Held && torrent.completedAt != None)
  }

  /** What an observation does to the row of an observed torrent. */
  ghost predicate ObservedIn(s: Records, t: Records, now: Clock, hash: Hash, torrent: Torrent) {
    && hash in t.byHash && t.byHash[hash] in t.entries
    && var id := t.byHash[hash];
       && (hash in s.byHash ==>
             && id == s.byHash[hash] && id in s.entries
             && SeenEntry(s.entries[id], t.entries[id], now, torrent)
             && (id in t.unsaved <==> id in s.unsaved || MustSave(s.entries[id], now, torrent)))
       && (hash !in s.byHash ==>
             id >= s.nextId && AdoptedAs(t.entries[id], now, hash, torrent) && id in t.unsaved)
  }

  /** Observing one torrent does that to its row, and nothing to any other. */
  ghost predicate ObservedOne(s: Records, t: Records, now: Clock, hash: Hash, torrent: Torrent) {
    && ObservedIn(s, t, now, hash, torrent)
    && var id := t.byHash[hash];
       && (forall other :: other in s.entries && other != id ==>
             other in t.entries && t.entries[other] == s.entries[other] && (other in t.unsaved <==> other in s.unsaved))
       && (forall h :: h in s.byHash && h != hash ==> h in t.byHash && t.byHash[h] == s.byHash[h])
       && (forall h :: h in t.byHash && h != hash ==> h in s.byHash)
       && t.entries.Keys == s.entries.Keys + {id} && t.nextId >= s.nextId
  }

  lemma ObserveOneDoes(s: Records, now: Clock, hash: Hash, torrent: Torrent)
    requires Inv(s)
    ensures ObservedOne(s, ObserveOne(s, now, hash, torrent), now, hash, torrent)
  {
    assert hash in s.byHash ==> s.byHash[hash] in Intents(s);
    assert s.nextId !in s.entries;
    hide HashIndexAgrees, MamIndexAgrees, WaitingRowsHaveNoHash;
    if hash in s.byHash {
      KnownObserved(s, now, hash, torrent);
    } else {
      UnknownObserved(s, now, hash, torrent);
    }
  }

  lemma KnownObserved(s: Records, now: Clock, hash: Hash, torrent: Torrent)
    requires hash in s.byHash && s.byHash[hash] in s.entries
    ensures ObservedOne(s, ObserveOne(s, now, hash, torrent), now, hash, torrent)
  {
  }

  lemma UnknownObserved(s: Records, now: Clock, hash: Hash, torrent: Torrent)
    requires hash !in s.byHash && s.nextId !in s.entries
    ensures ObservedOne(s, ObserveOne(s, now, hash, torrent), now, hash, torrent)
  {
  }

  /** A row whose hash is not listed, and a hash that is not, stay as they were. */
  lemma {:induction false} ObserveLeavesOthers(s: Records, now: Clock, listing: seq<(Hash, Torrent)>, id: RecordId)
    requires Inv(s) && id in s.entries
    requires forall h :: h in s.byHash && s.byHash[h] == id ==> h !in Hashes(listing)
    ensures var t := Observe(s, now, listing);
      id in t.entries && t.entries[id] == s.entries[id] && (id in t.unsaved <==> id in s.unsaved)
    ensures var t := Observe(s, now, listing);
      forall h :: h in t.byHash && t.byHash[h] == id ==> h in s.byHash && s.byHash[h] == id
  {
    if listing != [] {
      var n := |listing| - 1;
      var before, after := Observe(s, now, listing[..n]), Observe(s, now, listing);
      HashesSplit(listing);
      ObserveLeavesOthers(s, now, listing[..n], id);
      ObserveKeeps(s, now, listing[..n]);
      ObserveOneDoes(before, now, listing[n].0, listing[n].1);
      assert Keyed(before) ==> id < before.nextId;
      hide Observe, ObserveOne, Inv, Hashes;
    }
  }

  lemma {:induction false} ObserveKeepsKeys(s: Records, now: Clock, listing: seq<(Hash, Torrent)>, h: Hash)
    requires Inv(s)
    ensures var t := Observe(s, now, listing);
      t.nextId >= s.nextId && (h in s.byHash ==> h in t.byHash && t.byHash[h] == s.byHash[h])
  {
    if listing != [] {
      var n := |listing| - 1;
      ObserveKeepsKeys(s, now, listing[..n], h);
      ObserveKeeps(s, now, listing[..n]);
      ObserveOneDoes(Observe(s, now, listing[..n]), now, listing[n].0, listing[n].1);
      hide ObserveOne, Inv;
    }
  }

  /** A hash names one row, and a row is named by its own hash only. */
  lemma NamedByItsHash(s: Records, h: Hash)
    requires Inv(s) && h in s.byHash
    ensures s.byHash[h] in s.entries && s.byHash[h] < s.nextId
    ensures forall other :: other in s.byHash && s.byHash[other] == s.byHash[h] ==> other == h
  {
    assert s.byHash[h] in Intents(s);
  }

  /**
   * Observing a whole listing: each listed torrent's row holds what was seen, keeps its intent or
   * becomes active if it completed while held, and is saved exactly when more than its counters
   * changed, or those are due; a torrent without a row gains an active one.
   */
  lemma {:induction false} ObserveDoes(s: Records, now: Clock, listing: seq<(Hash, Torrent)>, k: nat)
    requires Inv(s) && DistinctHashes(listing) && k < |listing|
    ensures ObservedIn(s, Observe(s, now, listing), now, listing[k].0, listing[k].1)
  {
    var n := |listing| - 1;
    var init := listing[..n];
    if k == n {
      LastObserved(s, now, listing);
    } else {
      var before, after := Observe(s, now, init), Observe(s, now, listing);
      ObserveKeeps(s, now, init);
      ObserveDoes(s, now, init, k);
      ObserveOneDoes(before, now, listing[n].0, listing[n].1);
      hide ObserveOne, Inv, Hashes, ObservedIn, ObservedOne;
      LaterKeepsObserved(s, before, after, now, listing[k], listing[n]);
    }
  }

  /** Observing another torrent leaves what was seen of this one. */
  lemma LaterKeepsObserved(
      s: Records, before: Records, after: Records, now: Clock, first: (Hash, Torrent), second: (Hash, Torrent))
    requires Inv(before) && first.0 != second.0 && ObservedIn(s, before, now, first.0, first.1)
    requires ObservedOne(before, after, now, second.0, second.1)
    ensures ObservedIn(s, after, now, first.0, first.1)
  {
    NamedByItsHash(before, first.0);
    hide Inv, SeenEntry, AdoptedAs, MustSave;
    assert before.byHash[first.0] != after.byHash[second.0];
  }

  lemma LastObserved(s: Records, now: Clock, listing: seq<(Hash, Torrent)>)
    requires Inv(s) && DistinctHashes(listing) && listing != []
    ensures var (hash, torrent) := listing[|listing| - 1]; ObservedIn(s, Observe(s, now, listing), now, hash, torrent)
  {
    var n := |listing| - 1;
    var (hash, torrent) := listing[n];
    var init := listing[..n];
    var before := Observe(s, now, init);
    assert hash !in Hashes(init);
    ObserveKeeps(s, now, init);
    ObserveKeepsKeys(s, now, init, hash);
    ObserveOneDoes(before, now, hash, torrent);
    if hash in s.byHash {
      NamedByItsHash(s, hash);
      ObserveLeavesOthers(s, now, init, s.byHash[hash]);
    }
    assert Observe(s, now, listing) == ObserveOne(before, now, hash, torrent);
    hide Observe, ObserveOne, Inv, Hashes, SeenEntry, AdoptedAs, MustSave;
  }

  /** A new row takes the next identity, which no row has. */
  lemma InsertRows(s: Records, identity: Identity, origin: Origin, desired: Desired, savePath: Option<string>)
    requires Keyed(s)
    ensures var t := Insert(s, identity, origin, desired, savePath);
      && Intents(t) == Intents(s)[s.nextId := Intent(identity, origin, desired, savePath, false)]
      && s.nextId !in Intents(s) && Keyed(t) && s.nextId in t.entries
  {
  }

  lemma BookmarkOneKeeps(s: Records, mam: MamId, desired: BookmarkDesired)
    requires Inv(s)
    ensures Inv(BookmarkOne(s, mam, desired)) && Advances(s, BookmarkOne(s, mam, desired))
  {
    if mam !in s.byMam {
      var t := BookmarkOne(s, mam, desired);
      var row := Intent(Mam(mam), Bookmark, desired, None, false);
      InsertRows(s, Mam(mam), Bookmark, desired, None);
      assert Keyed(t);
      hide Keyed, Insert;
      PutKeepsHashIndex(Intents(s), s.byHash, s.nextId, row, t.byHash);
      hide HashIndexAgrees;
      PutKeepsMamIndex(Intents(s), s.byMam, s.nextId, row, t.byMam);
      hide MamIndexAgrees;
      PutKeeps(s, t, s.nextId, row);
    }
  }

  lemma {:induction false} BookmarkedKeeps(s: Records, bookmarks: seq<(MamId, BookmarkDesired)>)
    requires Inv(s)
    ensures Inv(Bookmarked(s, bookmarks)) && Advances(s, Bookmarked(s, bookmarks))
  {
    if bookmarks != [] {
      var n := |bookmarks| - 1;
      BookmarkedKeeps(s, bookmarks[..n]);
      BookmarkOneKeeps(Bookmarked(s, bookmarks[..n]), bookmarks[n].0, bookmarks[n].1);
      AdvancesTrans(s, Bookmarked(s, bookmarks[..n]), Bookmarked(s, bookmarks));
    }
  }

  lemma RedownloadKeeps(s: Records, id: RecordId)
    requires Inv(s) && IsSnatched(s, id)
    ensures Inv(Redownload(s, id)) && Advances(s, Redownload(s, id))
  {
    var t := Redownload(s, id);
    var row := Intents(s)[id].(desired := Queued, origin := Redownloaded);
    assert Intents(t) == Intents(s)[id := row];
    assert Keyed(t);
    SameIdentityKeepsIndexes(Intents(s), s.byHash, s.byMam, id, row);
    hide Keyed, HashIndexAgrees, MamIndexAgrees;
    PutKeeps(s, t, id, row);
  }

  /** The row a fetch names is queued; the MAM ID then has a row. */
  ghost predicate QueuedFor(s: Records, mam: MamId) {
    mam in s.byMam && s.byMam[mam] in s.entries && s.entries[s.byMam[mam]].record.desired.Queued?
  }

  /** The rows after a fetch: the queued row becomes history when another row has the hash. */
  function LinkedRows(rows: Rows, id: RecordId, target: RecordId, mam: MamId, hash: Hash): Rows
    requires id in rows && target in rows
  {
    var moved := if target != id then rows[id := rows[id].(desired := Removed)] else rows;
    moved[target := moved[target].(identity := Linked(mam, hash), origin := rows[id].origin, desired := Active)]
  }

  lemma LinkRows(s: Records, mam: MamId, hash: Hash)
    requires IndexAgrees(s) && mam in s.byMam
    ensures var id := s.byMam[mam]; var target := LinkTarget(s, id, hash);
      && id in Intents(s) && target in Intents(s)
      && Intents(Fetched(s, mam, hash)) == LinkedRows(Intents(s), id, target, mam, hash)
  {
    var id := s.byMam[mam];
    var target := LinkTarget(s, id, hash);
    assert id in Intents(s) && target in Intents(s);
    if target == id {
      NameRows(s, id, mam, hash, s.entries[id].record.origin);
    } else {
      var moved := SetDesired(s, id, Removed).(byMam := s.byMam[mam := target]);
      SetDesiredRows(s, id, Removed);
      NameRows(moved, target, mam, hash, s.entries[id].record.origin);
    }
    hide Name, SetDesired, RowsOf, HashIndexAgrees, MamIndexAgrees;
  }

  /** A fetch touches two rows, and gives a hash only to the row that has it or to one without. */
  lemma LinkedRowsKeep(rows: Rows, id: RecordId, target: RecordId, mam: MamId, hash: Hash)
    requires id in rows && target in rows && WaitingRowsHaveNoHash(rows)
    requires rows[target].identity.HashOf() == None || rows[target].identity.HashOf() == Some(hash)
    ensures var after := LinkedRows(rows, id, target, mam, hash);
      && WaitingRowsHaveNoHash(after) && HashKept(rows, after)
      && (forall i :: i in after && i != id && i != target ==> i in rows && after[i] == rows[i])
  {
  }

  lemma SetDesiredMarks(s: Records, id: RecordId, desired: Desired)
    requires Keyed(s) && id in s.entries
    ensures var t := SetDesired(s, id, desired);
      Keyed(t) && t.entries.Keys == s.entries.Keys && t.unsaved == s.unsaved + {id} && t.saving == s.saving
  {
  }

  lemma NameMarks(s: Records, id: RecordId, mam: MamId, hash: Hash, origin: Option<Origin>)
    requires Keyed(s) && id in s.entries
    ensures var t := Name(s, id, mam, hash, origin);
      Keyed(t) && t.unsaved == s.unsaved + {id} && t.saving == s.saving
  {
  }

  lemma FetchedMarks(s: Records, mam: MamId, hash: Hash)
    requires Inv(s) && mam in s.byMam
    ensures var t := Fetched(s, mam, hash); var id := s.byMam[mam];
      Keyed(t) && t.unsaved == s.unsaved + {id, LinkTarget(s, id, hash)} && t.saving == s.saving
  {
    var id := s.byMam[mam];
    assert id in Intents(s);
    var target := LinkTarget(s, id, hash);
    assert target in Intents(s);
    hide IndexAgrees, WaitingRowsHaveNoHash;
    var origin := Some(s.entries[id].record.origin);
    if target != id {
      SetDesiredMarks(s, id, Removed);
      NameMarks(SetDesired(s, id, Removed).(byMam := s.byMam[mam := target]), target, mam, hash, origin);
    } else {
      NameMarks(s, id, mam, hash, origin);
    }
    hide Keyed, SetDesired, Name;
  }

  lemma FetchedKeeps(s: Records, mam: MamId, hash: Hash)
    requires Inv(s) && QueuedFor(s, mam)
    ensures Inv(Fetched(s, mam, hash)) && Advances(s, Fetched(s, mam, hash))
  {
    var id := s.byMam[mam];
    var target := LinkTarget(s, id, hash);
    LinkRows(s, mam, hash);
    FetchedMarks(s, mam, hash);
    FetchedKeepsIndexIff(s, mam, hash);
    assert Intents(s)[id].desired.Queued? && Intents(s)[id].identity.HashOf() == None;
    hide Fetched, LinkedRows;
    LinkedRowsKeep(Intents(s), id, target, mam, hash);
  }

  /** The rows and indexes after a fetch, by whether another row has the hash. */
  lemma LinkToOtherKeeps(s: Records, mam: MamId, hash: Hash)
    requires Inv(s) && mam in s.byMam && hash in s.byHash && s.byHash[hash] != s.byMam[mam]
    ensures IndexAgrees(Fetched(s, mam, hash))
  {
    LinkRows(s, mam, hash);
    var id, target, rows, t := s.byMam[mam], s.byHash[hash], Intents(s), Fetched(s, mam, hash);
    assert LinkTarget(s, id, hash) == target;
    hide Fetched;
    var history := rows[id].(desired := Removed);
    SameIdentityKeepsIndexes(rows, s.byHash, s.byMam, id, history);
    PutKeepsHashIndex(rows[id := history], s.byHash, target, Intents(t)[target], t.byHash);
    PutKeepsMamIndex(rows[id := history], s.byMam, target, Intents(t)[target], t.byMam);
  }

  lemma LinkToItselfKeeps(s: Records, mam: MamId, hash: Hash)
    requires Inv(s) && mam in s.byMam && LinkTarget(s, s.byMam[mam], hash) == s.byMam[mam]
    requires s.entries[s.byMam[mam]].record.identity.HashOf().None?
      || s.entries[s.byMam[mam]].record.identity.HashOf() == Some(hash)
    ensures IndexAgrees(Fetched(s, mam, hash))
  {
    LinkRows(s, mam, hash);
    var id, rows, t := s.byMam[mam], Intents(s), Fetched(s, mam, hash);
    hide Fetched;
    assert t.byMam == s.byMam[mam := id];
    PutKeepsHashIndex(rows, s.byHash, id, Intents(t)[id], t.byHash);
    PutKeepsMamIndex(rows, s.byMam, id, Intents(t)[id], t.byMam);
  }

  /**
   * Fetching keeps the indexes exactly when it does not give a row a second hash: what a caller
   * can check is that the row has no other hash, or that the fetched hash is another row's.
   */
  lemma FetchedKeepsIndexIff(s: Records, mam: MamId, hash: Hash)
    requires Inv(s)
    ensures IndexAgrees(Fetched(s, mam, hash)) <==>
      (|| mam !in s.byMam
       || (hash in s.byHash && s.byHash[hash] != s.byMam[mam])
       || s.entries[s.byMam[mam]].record.identity.HashOf() == None
       || s.entries[s.byMam[mam]].record.identity.HashOf() == Some(hash))
  {
    if mam in s.byMam {
      var id := s.byMam[mam];
      if hash in s.byHash && s.byHash[hash] != id {
        LinkToOtherKeeps(s, mam, hash);
      } else if Intents(s)[id].identity.HashOf().Some? && Intents(s)[id].identity.HashOf().value != hash {
        LinkRows(s, mam, hash);
        assert Intents(s)[id].identity.HashOf().value in Fetched(s, mam, hash).byHash;
      } else {
        LinkToItselfKeeps(s, mam, hash);
      }
    }
  }

  /** The row a hold names is active. */
  ghost predicate ActiveUnder(s: Records, hash: Hash) {
    hash in s.byHash && s.byHash[hash] in s.entries && s.entries[s.byHash[hash]].record.desired.Active?
  }

  /** Holding keeps the indexes exactly when it does not revive a history row whose MAM ID has moved on. */
  lemma HoldKeepsIndexIff(s: Records, hash: Hash)
    requires Inv(s)
    ensures IndexAgrees(Hold(s, hash)) <==>
      (hash in s.byHash && s.entries[s.byHash[hash]].record.desired.Removed?
        && s.entries[s.byHash[hash]].record.identity.Linked? ==>
         s.byMam[s.entries[s.byHash[hash]].record.identity.mam] == s.byHash[hash])
  {
    if hash in s.byHash {
      var id := s.byHash[hash];
      assert id in Intents(s);
      var row := Intents(s)[id].(desired := Held);
      assert Intents(Hold(s, hash)) == Intents(s)[id := row];
      if row.identity.Linked? && s.byMam[row.identity.mam] != id {
        assert Intents(Hold(s, hash))[id] == row;
      } else {
        PutKeepsHashIndex(Intents(s), s.byHash, id, row, s.byHash);
        PutKeepsMamIndex(Intents(s), s.byMam, id, row, s.byMam);
      }
    }
  }

  // ---------- Inputs on which the indexes part from the rows ----------

  function PlainRow(id: RecordId, identity: Identity, desired: Desired): Record {
    Record(id, identity, Bookmark, desired, None, false, None)
  }

  function PlainEntry(id: RecordId, identity: Identity, desired: Desired): Entry {
    Entry(PlainRow(id, identity, desired), None, CountersSaved)
  }

  /** One active torrent under MAM ID 1. */
  const ONE_ACTIVE: Records :=
    Records(map[1 := PlainEntry(1, Linked(1, V1(1)), Active)], map[V1(1) := 1], map[1 := 1], 2, {}, None, false)

  /** Fetching a row that is active under another hash leaves that hash naming it. */
  lemma FetchedBreaksIndex()
    ensures Inv(ONE_ACTIVE) && !IndexAgrees(Fetched(ONE_ACTIVE, 1, V1(2)))
  {
    FetchedKeepsIndexIff(ONE_ACTIVE, 1, V1(2));
  }

  /** A removed row that kept its hash, and a queued one with its MAM ID. */
  const REMOVED_WITH_HASH: Records :=
    Records(map[1 := PlainEntry(1, Linked(1, V1(1)), Removed), 2 := PlainEntry(2, Mam(1), Queued)],
            map[V1(1) := 1], map[1 := 2], 3, {}, None, false)

  lemma RemovedWithHashAgrees()
    ensures IndexAgrees(REMOVED_WITH_HASH) && WaitingRowsHaveNoHash(Intents(REMOVED_WITH_HASH))
  {
  }

  /** Holding a removed row that kept its hash revives it beside the live row of its MAM ID. */
  lemma HoldBreaksIndex()
    ensures Inv(REMOVED_WITH_HASH) && !IndexAgrees(Hold(REMOVED_WITH_HASH, V1(1)))
  {
    RemovedWithHashAgrees();
    hide IndexAgrees, WaitingRowsHaveNoHash, Hold;
    HoldKeepsIndexIff(REMOVED_WITH_HASH, V1(1));
  }

  /** Every MAM ID the index knows names a row that has it. */
  ghost predicate KeysNameTheirRows(s: Records) {
    forall m :: m in s.byMam ==> s.byMam[m] in s.entries && s.entries[s.byMam[m]].record.identity.MamOf() == Some(m)
  }

  /**
   * Fetching a queued row leaves no stale MAM ID exactly when the fetched hash is new, or its row
   * had no MAM ID, or had this one already, or one that named another row.
   */
  lemma FetchedKeepsKeysIff(s: Records, mam: MamId, hash: Hash)
    requires Inv(s) && QueuedFor(s, mam) && KeysNameTheirRows(s)
    ensures KeysNameTheirRows(Fetched(s, mam, hash)) <==>
      (|| hash !in s.byHash
       || Intents(s)[s.byHash[hash]].identity.MamOf().None?
       || Intents(s)[s.byHash[hash]].identity.MamOf() == Some(mam)
       || s.byMam[Intents(s)[s.byHash[hash]].identity.MamOf().value] != s.byHash[hash])
  {
    var id, rows, t := s.byMam[mam], Intents(s), Fetched(s, mam, hash);
    FetchedIdentities(s, mam, hash);
    var target := LinkTarget(s, id, hash);
    hide Fetched, IndexAgrees, Keyed, WaitingRowsHaveNoHash;
    KeysByRows(s);
    KeysByRows(t);
    hide KeysNameTheirRows;
    if hash in s.byHash && rows[s.byHash[hash]].identity.MamOf().Some? {
      var m := rows[s.byHash[hash]].identity.MamOf().value;
      if m != mam && s.byMam[m] == target {
        assert t.byMam[m] == target;
      }
    }
  }

  /** A fetch renames one row, and its MAM ID then names that row. */
  lemma FetchedIdentities(s: Records, mam: MamId, hash: Hash)
    requires Inv(s) && QueuedFor(s, mam)
    ensures var id, rows, t := s.byMam[mam], Intents(s), Intents(Fetched(s, mam, hash));
      var target := LinkTarget(s, id, hash);
      && id in rows && target in rows && rows[id].identity.HashOf() == None
      && (hash in s.byHash ==> target == s.byHash[hash])
      && t.Keys == rows.Keys && t[target].identity == Linked(mam, hash)
      && (forall i :: i in rows && i != target ==> t[i].identity == rows[i].identity)
      && Fetched(s, mam, hash).byMam == s.byMam[mam := target]
  {
    LinkRows(s, mam, hash);
    assert Intents(s)[s.byMam[mam]].identity.HashOf() == None;
  }

  lemma KeysByRows(s: Records)
    ensures KeysNameTheirRows(s) <==>
      forall m :: m in s.byMam ==> s.byMam[m] in Intents(s) && Intents(s)[s.byMam[m]].identity.MamOf() == Some(m)
  {
  }

  // ---------- Loading rebuilds the same indexes ----------

  /** Rows as storage returns them: oldest first, with distinct identities. */
  ghost predicate Ascending(rows: seq<Record>) {
    && (forall i :: 0 <= i < |rows| ==> 1 <= rows[i].id)
    && (forall i, j :: 0 <= i < j < |rows| ==> rows[i].id < rows[j].id)
  }

  ghost predicate RowsOk(rows: seq<Record>) {
    && Ascending(rows)
    && (forall i, j :: 0 <= i < j < |rows| && rows[i].identity.HashOf().Some? ==>
          rows[i].identity.HashOf() != rows[j].identity.HashOf())
    && (forall i, j :: 0 <= i < j < |rows| && !rows[i].desired.Removed? && !rows[j].desired.Removed? ==>
          rows[i].identity.MamOf().Some? ==> rows[i].identity.MamOf() != rows[j].identity.MamOf())
    && (forall i :: 0 <= i < |rows| && (rows[i].desired.Queued? || rows[i].desired.Snatched?) ==> rows[i].identity.Mam?)
  }

  lemma {:induction false} EntriesOfRows(rows: seq<Record>)
    requires Ascending(rows)
    ensures forall i :: 0 <= i < |rows| ==>
      rows[i].id in EntriesOf(rows) && EntriesOf(rows)[rows[i].id] == Entry(rows[i], None, CountersSaved)
    ensures forall id :: id in EntriesOf(rows) ==> exists i :: 0 <= i < |rows| && rows[i].id == id
  {
    if rows != [] {
      var n := |rows| - 1;
      EntriesOfRows(rows[..n]);
      forall i | 0 <= i < |rows|
        ensures rows[i].id in EntriesOf(rows) && EntriesOf(rows)[rows[i].id] == Entry(rows[i], None, CountersSaved)
      {
        if i < n { assert rows[..n][i] == rows[i]; }
      }
      forall id | id in EntriesOf(rows)
        ensures exists i :: 0 <= i < |rows| && rows[i].id == id
      {
        if id != rows[n].id {
          var i :| 0 <= i < n && rows[..n][i].id == id;
          assert rows[i].id == id;
        } else {
          assert rows[n].id == id;
        }
      }
    }
  }

  lemma {:induction false} IndexByHashRows(rows: seq<Record>)
    requires RowsOk(rows)
    ensures forall i :: 0 <= i < |rows| && rows[i].identity.HashOf().Some? ==>
      rows[i].identity.HashOf().value in IndexByHash(rows)
        && IndexByHash(rows)[rows[i].identity.HashOf().value] == rows[i].id
    ensures forall h :: h in IndexByHash(rows) ==>
      exists i :: 0 <= i < |rows| && rows[i].identity.HashOf() == Some(h) && IndexByHash(rows)[h] == rows[i].id
  {
    if rows != [] {
      var n := |rows| - 1;
      IndexByHashRows(rows[..n]);
      forall i | 0 <= i < |rows| && rows[i].identity.HashOf().Some?
        ensures rows[i].identity.HashOf().value in IndexByHash(rows)
          && IndexByHash(rows)[rows[i].identity.HashOf().value] == rows[i].id
      {
        if i < n { assert rows[..n][i] == rows[i]; }
      }
      forall h | h in IndexByHash(rows)
        ensures exists i ::
          0 <= i < |rows| && rows[i].identity.HashOf() == Some(h) && IndexByHash(rows)[h] == rows[i].id
      {
        if rows[n].identity.HashOf() == Some(h) {
          assert IndexByHash(rows)[h] == rows[n].id;
        } else {
          var i :| 0 <= i < n && rows[..n][i].identity.HashOf() == Some(h)
            && IndexByHash(rows[..n])[h] == rows[..n][i].id;
          assert rows[..n][i] == rows[i];
        }
      }
    }
  }

  ghost predicate HasMam(rows: Rows, m: MamId) {
    exists id :: id in rows && rows[id].identity.MamOf() == Some(m)
  }

  /** The row a rebuilt index names for a MAM ID: its live row, or the newest when all are removed. */
  ghost predicate NamedAfterRestart(rows: Rows, m: MamId, id: RecordId) {
    && id in rows && rows[id].identity.MamOf() == Some(m)
    && (!rows[id].desired.Removed? ||
        forall other :: other in rows && rows[other].identity.MamOf() == Some(m) ==>
          rows[other].desired.Removed? && other <= id)
  }

  function Lookup(byMam: map<MamId, RecordId>, m: MamId): Option<RecordId> {
    if m in byMam then Some(byMam[m]) else None
  }

  predicate Indexed(r: Record, removed: bool, m: MamId) {
    r.desired.Removed? == removed && r.identity.MamOf() == Some(m)
  }

  /** The last row of this removal status with this MAM ID. */
  function LastWith(rows: seq<Record>, removed: bool, m: MamId): (last: Option<nat>)
    ensures last.Some? ==> last.value < |rows| && Indexed(rows[last.value], removed, m)
    ensures forall i :: 0 <= i < |rows| && Indexed(rows[i], removed, m) ==> last.Some? && i <= last.value
  {
    if rows == [] then None
    else if Indexed(rows[|rows| - 1], removed, m) then Some(|rows| - 1)
    else LastWith(rows[..|rows| - 1], removed, m)
  }

  lemma {:induction false} IndexByMamLast(rows: seq<Record>, removed: bool, index: map<MamId, RecordId>, m: MamId)
    ensures Lookup(IndexByMam(rows, removed, index), m) ==
      match LastWith(rows, removed, m) case Some(i) => Some(rows[i].id) case None => Lookup(index, m)
  {
    if rows != [] { IndexByMamLast(rows[..|rows| - 1], removed, index, m); }
  }

  /** A rebuilt index knows exactly the MAM IDs that rows have, and names the row above for each. */
  lemma LoadLookup(rows: seq<Record>, m: MamId)
    requires RowsOk(rows)
    ensures var t := Load(rows);
      && (m in t.byMam <==> HasMam(Intents(t), m))
      && (m in t.byMam ==> NamedAfterRestart(Intents(t), m, t.byMam[m]))
  {
    var t := Load(rows);
    IndexByMamLast(rows, true, map[], m);
    IndexByMamLast(rows, false, IndexByMam(rows, true, map[]), m);
    var live, history := LastWith(rows, false, m), LastWith(rows, true, m);
    assert Lookup(t.byMam, m) ==
      if live.Some? then Some(rows[live.value].id) else if history.Some? then Some(rows[history.value].id) else None;
    LoadedRows(rows);
    hide Load, IndexByMam, LastWith, RowsOf;
    forall id | id in Intents(t) && Intents(t)[id].identity.MamOf() == Some(m)
      ensures m in t.byMam && (live.None? ==> Intents(t)[id].desired.Removed? && id <= t.byMam[m])
    {
      var i :| 0 <= i < |rows| && rows[i].id == id;
      assert Indexed(rows[i], rows[i].desired.Removed?, m);
    }
  }

  lemma LoadedRows(rows: seq<Record>)
    requires RowsOk(rows)
    ensures var t := Load(rows);
      && (forall i :: 0 <= i < |rows| ==> rows[i].id in Intents(t) && Intents(t)[rows[i].id] == IntentOf(rows[i]))
      && (forall id :: id in Intents(t) ==> exists i :: 0 <= i < |rows| && rows[i].id == id)
  {
    EntriesOfRows(rows);
  }

  /** A MAM ID has one live row. */
  lemma LiveRowIsUnique(rows: seq<Record>, a: RecordId, b: RecordId, m: MamId)
    requires RowsOk(rows)
    requires var live := Intents(Load(rows));
      && a in live && live[a].identity.MamOf() == Some(m) && !live[a].desired.Removed?
      && b in live && live[b].identity.MamOf() == Some(m) && !live[b].desired.Removed?
    ensures a == b
  {
    LoadedRows(rows);
    hide Load, RowsOf;
    var i :| 0 <= i < |rows| && rows[i].id == a;
    var j :| 0 <= j < |rows| && rows[j].id == b;
  }

  lemma LoadMamIndex(rows: seq<Record>)
    requires RowsOk(rows)
    ensures MamIndexAgrees(Intents(Load(rows)), Load(rows).byMam)
  {
    var s := Load(rows);
    forall m | m in s.byMam
      ensures s.byMam[m] in Intents(s)
    {
      LoadLookup(rows, m);
    }
    forall id | id in Intents(s) && Intents(s)[id].identity.MamOf().Some?
      ensures var m := Intents(s)[id].identity.MamOf().value;
        m in s.byMam && (!Intents(s)[id].desired.Removed? ==> s.byMam[m] == id)
    {
      var m := Intents(s)[id].identity.MamOf().value;
      LoadLookup(rows, m);
      hide Load, RowsOf, RowsOk;
      if !Intents(s)[id].desired.Removed? {
        LiveRowIsUnique(rows, id, s.byMam[m], m);
      }
    }
    hide Load, RowsOf, RowsOk;
  }

  /** Loading sound rows gives a registry that satisfies the whole invariant. */
  lemma LoadInv(rows: seq<Record>)
    requires RowsOk(rows)
    ensures Inv(Load(rows))
    ensures Load(rows).entries.Keys == set i | 0 <= i < |rows| :: rows[i].id
    ensures forall i :: 0 <= i < |rows| ==> Load(rows).entries[rows[i].id].record == rows[i]
  {
    EntriesOfRows(rows);
    IndexByHashRows(rows);
    LoadMamIndex(rows);
  }

  /** The row `byMam` names for this MAM ID is live and still has that ID. */
  ghost predicate IsLive(s: Records, m: MamId)
    requires m in s.byMam
  {
    && s.byMam[m] in s.entries
    && !s.entries[s.byMam[m]].record.desired.Removed?
    && s.entries[s.byMam[m]].record.identity.MamOf() == Some(m)
  }

  /** Two registries with the same intent, indexed soundly, find the same rows. */
  lemma SameIntentSameLookups(s: Records, t: Records)
    requires IndexAgrees(s) && IndexAgrees(t) && Intents(s) == Intents(t)
    ensures s.byHash == t.byHash
    ensures forall m :: m in s.byMam && IsLive(s, m) ==> m in t.byMam && t.byMam[m] == s.byMam[m]
  {
    forall h | h in s.byHash
      ensures h in t.byHash && t.byHash[h] == s.byHash[h]
    {
      assert s.byHash[h] in Intents(s);
    }
    forall h | h in t.byHash
      ensures h in s.byHash
    {
      assert t.byHash[h] in Intents(t);
    }
    forall m | m in s.byMam && IsLive(s, m)
      ensures m in t.byMam && t.byMam[m] == s.byMam[m]
    {
      assert s.byMam[m] in Intents(s);
    }
  }

  // ---------- Which MAM lookups a restart changes ----------

  /**
   * A restart changes what the registry finds for a MAM ID exactly when the index names a row
   * other than the one above; it forgets the ID exactly when no row has it.
   */
  lemma LookupsAfterRestartIff(s: Records, rows: seq<Record>, m: MamId)
    requires IndexAgrees(s) && RowsOk(rows) && Intents(Load(rows)) == Intents(s)
    ensures Lookup(s.byMam, m) != Lookup(Load(rows).byMam, m) <==>
      m in s.byMam && !NamedAfterRestart(Intents(s), m, s.byMam[m])
    ensures m in s.byMam && m !in Load(rows).byMam <==> m in s.byMam && !HasMam(Intents(s), m)
  {
    LoadLookup(rows, m);
    hide Load, RowsOk, HashIndexAgrees;
  }

  /** One torrent linked under MAM ID 1, and a bookmark of MAM ID 2. */
  const TWO_BOOKMARKS: Records :=
    Records(map[1 := PlainEntry(1, Linked(1, V1(7)), Active), 2 := PlainEntry(2, Mam(2), Queued)],
            map[V1(7) := 1], map[1 := 1, 2 := 2], 3, {}, None, false)

  const AFTER_RESTART: seq<Record> := [PlainRow(1, Linked(2, V1(7)), Active), PlainRow(2, Mam(2), Removed)]

  lemma TwoBookmarksAgree()
    ensures IndexAgrees(TWO_BOOKMARKS) && WaitingRowsHaveNoHash(Intents(TWO_BOOKMARKS))
  {
  }

  lemma TwoBookmarksAreSound()
    ensures Inv(TWO_BOOKMARKS) && QueuedFor(TWO_BOOKMARKS, 2) && KeysNameTheirRows(TWO_BOOKMARKS)
  {
    TwoBookmarksAgree();
    hide IndexAgrees, WaitingRowsHaveNoHash;
  }

  lemma SecondBookmarkFetched()
    ensures var t := Fetched(TWO_BOOKMARKS, 2, V1(7));
      && t.byMam == map[1 := 1, 2 := 1]
      && Intents(t) == map[1 := IntentOf(AFTER_RESTART[0]), 2 := IntentOf(AFTER_RESTART[1])]
  {
    TwoBookmarksAreSound();
    LinkRows(TWO_BOOKMARKS, 2, V1(7));
    FetchedIdentities(TWO_BOOKMARKS, 2, V1(7));
    hide Fetched, Inv;
  }

  lemma AfterRestartIsSound()
    ensures RowsOk(AFTER_RESTART)
    ensures Intents(Load(AFTER_RESTART)) == map[1 := IntentOf(AFTER_RESTART[0]), 2 := IntentOf(AFTER_RESTART[1])]
  {
    var rows := AFTER_RESTART;
    assert RowsOk(rows);
    LoadedRows(rows);
    hide Load, RowsOk, RowsOf;
    assert rows[0].id == 1 && rows[1].id == 2;
  }

  lemma RestartForgetsFirst()
    ensures 1 !in Load(AFTER_RESTART).byMam
  {
    AfterRestartIsSound();
    LoadLookup(AFTER_RESTART, 1);
    hide Load, RowsOk, RowsOf, NamedAfterRestart;
  }

  /**
   * The bookmark is fetched as the torrent linked under MAM ID 1. The registry still knows 1 and
   * ignores its bookmark; rebuilt from the same rows it does not, and queues 1 again.
   */
  lemma StaleKeyIsForgotten()
    ensures Inv(TWO_BOOKMARKS) && QueuedFor(TWO_BOOKMARKS, 2) && KeysNameTheirRows(TWO_BOOKMARKS)
    ensures var t := Fetched(TWO_BOOKMARKS, 2, V1(7));
      && t.byMam == map[1 := 1, 2 := 1] && RowsOk(AFTER_RESTART) && Intents(t) == Intents(Load(AFTER_RESTART))
      && 1 !in Load(AFTER_RESTART).byMam
      && BookmarkOne(t, 1, Queued) == t && BookmarkOne(Load(AFTER_RESTART), 1, Queued) != Load(AFTER_RESTART)
  {
    TwoBookmarksAreSound();
    SecondBookmarkFetched();
    AfterRestartIsSound();
    RestartForgetsFirst();
    hide Fetched, Load, Inv, RowsOf, RowsOk, QueuedFor, KeysNameTheirRows;
  }
}
