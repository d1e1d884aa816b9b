/** Incremental updates of qBittorrent's torrent list: field by field, hash by hash. */
module Replication {
  import opened Basics
  import opened Torrents

  /** Changed fields of one torrent; absent fields are unchanged. */
  datatype TorrentUpdate = TorrentUpdate(
    name: Option<Option<string>>,
    state: Option<TorrentState>,
    progress: Option<nat>,
    size: Option<nat>,
    totalSize: Option<nat>,
    downloaded: Option<nat>,
    uploaded: Option<nat>,
    ratio: Option<nat>,
    seedingTime: Option<nat>,
    addedAt: Option<Option<Time>>,
    completedAt: Option<Option<Time>>,
    contentPath: Option<Option<string>>,
    savePath: Option<Option<string>>,
    forceStart: Option<ForceStart>)

  datatype SyncUpdate = SyncUpdate(position: nat, full: bool, torrents: seq<(Hash, TorrentUpdate)>, removed: seq<Hash>)

  function Or<T>(changed: Option<T>, current: T): T {
    if changed.Some? then changed.value else current
  }

  function ApplyFields(t: Torrent, u: TorrentUpdate): Torrent {
    Torrent(
      Or(u.name, t.name), Or(u.state, t.state), Or(u.progress, t.progress), Or(u.size, t.size),
      Or(u.totalSize, t.totalSize), Or(u.downloaded, t.downloaded), Or(u.uploaded, t.uploaded),
      Or(u.ratio, t.ratio), Or(u.seedingTime, t.seedingTime), Or(u.addedAt, t.addedAt),
      Or(u.completedAt, t.completedAt), Or(u.contentPath, t.contentPath), Or(u.savePath, t.savePath),
      Or(u.forceStart, t.forceStart))
  }

  function Known(list: Listing, hash: Hash): Torrent {
    if hash in list then list[hash] else BLANK
  }

  function Merge(list: Listing, changes: seq<(Hash, TorrentUpdate)>): Listing {
    if changes == [] then list
    else
      var before := Merge(list, changes[..|changes| - 1]);
      var (hash, u) := changes[|changes| - 1];
      before[hash := ApplyFields(Known(before, hash), u)]
  }

  function Without(list: Listing, removed: seq<Hash>): Listing {
    if removed == [] then list else Without(list, removed[..|removed| - 1]) - {removed[|removed| - 1]}
  }

  /** The session's torrents after an update: a full one starts from nothing. */
  function Applied(list: Listing, u: SyncUpdate): Listing {
    Without(Merge(if u.full then map[] else list, u.torrents), u.removed)
  }

  // ---------- Differences ----------

  function Changed<T(==)>(from: T, into: T): Option<T> {
    if from == into then None else Some(into)
  }

  /** The fields in which two torrents differ. */
  function FieldDifference(a: Torrent, b: Torrent): TorrentUpdate {
    TorrentUpdate(
      Changed(a.name, b.name), Changed(a.state, b.state), Changed(a.progress, b.progress), Changed(a.size, b.size),
      Changed(a.totalSize, b.totalSize), Changed(a.downloaded, b.downloaded), Changed(a.uploaded, b.uploaded),
      Changed(a.ratio, b.ratio), Changed(a.seedingTime, b.seedingTime), Changed(a.addedAt, b.addedAt),
      Changed(a.completedAt, b.completedAt), Changed(a.contentPath, b.contentPath), Changed(a.savePath, b.savePath),
      Changed(a.forceStart, b.forceStart))
  }

  ghost predicate Distinct(hashes: seq<Hash>) {
    forall i, j :: 0 <= i < j < |hashes| ==> hashes[i] != hashes[j]
  }

  ghost predicate Lists(hashes: seq<Hash>, keys: set<Hash>) {
    Distinct(hashes) && forall h :: h in hashes <==> h in keys
  }

  /** The field-level difference, torrents taken in the order of `hashes`. */
  function Changes(before: Listing, after: Listing, hashes: seq<Hash>): seq<(Hash, TorrentUpdate)>
    requires forall h :: h in hashes ==> h in after
  {
    if hashes == [] then []
    else
      var h := hashes[|hashes| - 1];
      var rest := Changes(before, after, hashes[..|hashes| - 1]);
      if h in before && before[h] == after[h] then rest
      else rest + [(h, FieldDifference(Known(before, h), after[h]))]
  }

  /**
   * An update that a correct client may send for this change: each torrent listed at most once,
   * with fields that take it to its new value; every torrent that differs listed; and the removed
   * ones are exactly those gone.
   */
  ghost predicate Describes(before: Listing, after: Listing, changes: seq<(Hash, TorrentUpdate)>, removed: seq<Hash>) {
    && (forall i, j :: 0 <= i < j < |changes| ==> changes[i].0 != changes[j].0)
    && (forall i :: 0 <= i < |changes| ==>
          changes[i].0 in after && ApplyFields(Known(before, changes[i].0), changes[i].1) == after[changes[i].0])
    && (forall h :: h in after && !(h in before && before[h] == after[h]) ==> Mentions(changes, h))
    && (forall h :: h in removed <==> h in before && h !in after)
  }

  ghost predicate Mentions(changes: seq<(Hash, TorrentUpdate)>, h: Hash) {
    exists i :: 0 <= i < |changes| && changes[i].0 == h
  }

  lemma FieldsRestore(a: Torrent, b: Torrent)
    ensures ApplyFields(a, FieldDifference(a, b)) == b
  {
  }

  /** What merging leaves at one hash: its new value when mentioned once, else what was there. */
  lemma {:induction false} MergeAt(list: Listing, changes: seq<(Hash, TorrentUpdate)>, h: Hash)
    requires forall i, j :: 0 <= i < j < |changes| ==> changes[i].0 != changes[j].0
    ensures !Mentions(changes, h) ==>
      (h in Merge(list, changes) <==> h in list) && Known(Merge(list, changes), h) == Known(list, h)
    ensures forall i :: 0 <= i < |changes| && changes[i].0 == h ==>
      h in Merge(list, changes) && Merge(list, changes)[h] == ApplyFields(Known(list, h), changes[i].1)
  {
    hide ApplyFields;
    if changes != [] {
      var init, last := changes[..|changes| - 1], changes[|changes| - 1];
      MergeAt(list, init, h);
      assert forall i :: 0 <= i < |init| ==> init[i] == changes[i];
      if last.0 == h {
        assert !Mentions(init, h);
      }
    }
  }

  lemma {:induction false} WithoutAt(list: Listing, removed: seq<Hash>, h: Hash)
    ensures h in Without(list, removed) <==> h in list && h !in removed
    ensures h in Without(list, removed) ==> Without(list, removed)[h] == list[h]
  {
    if removed != [] {
      WithoutAt(list, removed[..|removed| - 1], h);
      assert removed == removed[..|removed| - 1] + [removed[|removed| - 1]];
    }
  }

  lemma UpdateAt(before: Listing, after: Listing, changes: seq<(Hash, TorrentUpdate)>, removed: seq<Hash>, h: Hash)
    requires Describes(before, after, changes, removed)
    ensures var result := Without(Merge(before, changes), removed);
      (h in result <==> h in after) && (h in after ==> result[h] == after[h])
  {
    hide ApplyFields;
    MergeAt(before, changes, h);
    WithoutAt(Merge(before, changes), removed, h);
    if Mentions(changes, h) {
      var i :| 0 <= i < |changes| && changes[i].0 == h;
    } else if h in after {
      assert h in before && before[h] == after[h];
    }
  }

  /** Applying an update that describes a change turns the first list into the second. */
  lemma UpdateRefinesListing(before: Listing, after: Listing, changes: seq<(Hash, TorrentUpdate)>, removed: seq<Hash>)
    requires Describes(before, after, changes, removed)
    ensures Without(Merge(before, changes), removed) == after
  {
    var result := Without(Merge(before, changes), removed);
    forall h
      ensures (h in result <==> h in after) && (h in after ==> result[h] == after[h])
    {
      UpdateAt(before, after, changes, removed, h);
    }
  }

  lemma {:induction false} ChangesMention(before: Listing, after: Listing, hashes: seq<Hash>, h: Hash)
    requires (forall g :: g in hashes ==> g in after) && h in hashes && !(h in before && before[h] == after[h])
    ensures Mentions(Changes(before, after, hashes), h)
  {
    hide ApplyFields, FieldDifference;
    var init, last := hashes[..|hashes| - 1], hashes[|hashes| - 1];
    var rest, c := Changes(before, after, init), Changes(before, after, hashes);
    if last == h {
      assert c[|rest|].0 == h;
    } else {
      assert h in init by {
        var k :| 0 <= k < |hashes| && hashes[k] == h;
        assert init[k] == h;
      }
      ChangesMention(before, after, init, h);
      var i :| 0 <= i < |rest| && rest[i].0 == h;
      assert c[i].0 == h;
    }
  }

  /** One listed change: it names one of these hashes and takes that torrent to its new value. */
  ghost predicate Sound(before: Listing, after: Listing, hashes: seq<Hash>, change: (Hash, TorrentUpdate)) {
    && change.0 in hashes && change.0 in after
    && ApplyFields(Known(before, change.0), change.1) == after[change.0]
  }

  ghost predicate AllSound(before: Listing, after: Listing, hashes: seq<Hash>, changes: seq<(Hash, TorrentUpdate)>) {
    && (forall i :: 0 <= i < |changes| ==> Sound(before, after, hashes, changes[i]))
    && (forall i, j :: 0 <= i < j < |changes| ==> changes[i].0 != changes[j].0)
  }

  lemma {:induction false} ChangesDescribe(before: Listing, after: Listing, hashes: seq<Hash>)
    requires Distinct(hashes) && forall h :: h in hashes ==> h in after
    ensures AllSound(before, after, hashes, Changes(before, after, hashes))
  {
    if hashes != [] {
      var init, h := hashes[..|hashes| - 1], hashes[|hashes| - 1];
      ChangesDescribe(before, after, init);
      var rest, c := Changes(before, after, init), Changes(before, after, hashes);
      FieldsRestore(Known(before, h), after[h]);
      hide ApplyFields, FieldDifference;
      assert c == rest || c == rest + [(h, FieldDifference(Known(before, h), after[h]))];
      hide Changes;
      forall i | 0 <= i < |c|
        ensures Sound(before, after, hashes, c[i]) && (i < |rest| ==> c[i].0 != h)
      {
        if i < |rest| {
          assert Sound(before, after, init, rest[i]);
        }
      }
    }
  }

  lemma DifferenceDescribes(before: Listing, after: Listing, hashes: seq<Hash>, removed: seq<Hash>)
    requires Lists(hashes, after.Keys) && Lists(removed, before.Keys - after.Keys)
    ensures Describes(before, after, Changes(before, after, hashes), removed)
  {
    ChangesDescribe(before, after, hashes);
    forall h | h in after && !(h in before && before[h] == after[h])
      ensures Mentions(Changes(before, after, hashes), h)
    {
      ChangesMention(before, after, hashes, h);
    }
    hide Changes, ApplyFields;
  }

  /** For any two lists, in any order: applying their field-level difference turns the first into the second. */
  lemma DifferenceRestores(before: Listing, after: Listing, hashes: seq<Hash>, removed: seq<Hash>, position: nat)
    requires Lists(hashes, after.Keys) && Lists(removed, before.Keys - after.Keys)
    ensures Applied(before, SyncUpdate(position, false, Changes(before, after, hashes), removed)) == after
  {
    DifferenceDescribes(before, after, hashes, removed);
    UpdateRefinesListing(before, after, Changes(before, after, hashes), removed);
  }

  /** A full update yields the client's list whatever was known before. */
  lemma FullUpdateRestores(list: Listing, after: Listing, hashes: seq<Hash>, position: nat)
    requires Lists(hashes, after.Keys)
    ensures Applied(list, SyncUpdate(position, true, Changes(map[], after, hashes), [])) == after
  {
    DifferenceDescribes(map[], after, hashes, []);
    UpdateRefinesListing(map[], after, Changes(map[], after, hashes), []);
  }
}
