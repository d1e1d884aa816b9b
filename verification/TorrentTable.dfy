/** The `torrents` table of durable storage, written row by row inside a transaction. */
module TorrentTable {
  import opened Registry
  import opened RegistryStore

  class Torrents {
    var table: Table

    /** Insert or replace every row of the batch, in order. */
    method SaveAll(batch: seq<Record>)
      modifies this
      ensures table == SaveTorrents(old(table), batch)
    {
      var i := 0;
      while i < |batch|
        invariant i <= |batch|
        invariant table == SaveTorrents(old(table), batch[..i])
      {
        var r := batch[i];
        table := map id | id in table && !SameHash(table[id], r) :: table[id];
        table := table[r.id := Stored(r)];
        assert batch[..i + 1][..i] == batch[..i];
        i := i + 1;
      }
      assert batch[..i] == batch;
    }

    /** Every row below `bound`, in the order of its identity. */
    method ReadAll(bound: RecordId) returns (rows: seq<Record>)
      ensures rows == ReadBelow(table, bound)
    {
      rows := [];
      for id := 0 to bound
        invariant rows == ReadBelow(table, id)
      {
        if id in table { rows := rows + [table[id]]; }
      }
    }
  }
}
