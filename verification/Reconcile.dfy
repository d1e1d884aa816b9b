/** Reconciliation: one command at a time until qBittorrent matches the registry. */
module Reconciliation {
  import opened Basics
  import opened Torrents
  import opened Registry

  const SEEDING_TARGET: int := 96 * HOUR
  const COMMAND_REPEAT_AFTER: int := MINUTE

  datatype Command =
    | Start(hashes: seq<Hash>)
    | SelectAllFiles(hash: Hash)
    | Remove(hashes: seq<Hash>)
    | Stop(hashes: seq<Hash>)
    | ForceStart(hashes: seq<Hash>)
    | EndForceStart(hashes: seq<Hash>)
    | Add(mam: MamId, hash: Hash)

  /** Whether some files are not selected; sizes are unknown until metadata arrives. */
  predicate Partial(t: Torrent) {
    !t.state.FetchingMetadata? && t.size < t.totalSize
  }

  predicate Untouched(t: Torrent) {
    t.progress == 0 && t.downloaded == 0
  }

  /** Whether removal leaves nothing unsatisfied: seeded to the target, or never downloaded anything. */
  predicate Removable(t: Torrent) {
    (t.completedAt.Some? && t.seedingTime >= SEEDING_TARGET) || Untouched(t)
  }

  predicate Unsatisfied(t: Torrent) {
    t.completedAt.Some? && t.seedingTime < SEEDING_TARGET
  }

  /** A row without a MAM ID needs no permission. */
  predicate Permitted(r: Intent, permits: set<MamId>) {
    r.identity.MamOf().Some? ==> r.identity.MamOf().value in permits
  }

  predicate Present(r: Intent, ts: Listing) {
    !r.identity.Mam? && r.identity.hash in ts
  }

  // ---------- When each command is needed ----------

  /** The kinds of change, in the order they are tried. */
  datatype Need = Removal | Halt | Whole | Addition | Begin | Force | Release

  predicate Needs(need: Need, r: Intent, ts: Listing, permits: set<MamId>) {
    match need
    case Removal =>
      r.desired.Removed? && Present(r, ts) && Removable(ts[r.identity.hash])
    case Halt =>
      && r.desired.Held? && Present(r, ts)
      && ts[r.identity.hash].completedAt.None? && !ts[r.identity.hash].state.Stopped?
    case Whole =>
      r.desired.Active? && Present(r, ts) && Partial(ts[r.identity.hash]) && Permitted(r, permits)
    case Addition =>
      && r.identity.Linked? && r.desired.Active? && !r.origin.Adopted?
      && r.identity.mam in permits && r.identity.hash !in ts
    case Begin =>
      && r.desired.Active? && Present(r, ts)
      && var t := ts[r.identity.hash];
         && t.state.Stopped?
         && !(r.origin.Adopted? && Untouched(t))
         && ((t.state.completion.Complete? && !Partial(t)) || Permitted(r, permits))
    case Force =>
      && r.desired.Active? && Present(r, ts)
      && var t := ts[r.identity.hash]; Unsatisfied(t) && !Partial(t) && t.forceStart.NotForced?
    case Release =>
      && r.desired.Active? && Present(r, ts)
      && var t := ts[r.identity.hash]; !Unsatisfied(t) && t.forceStart.Forced?
  }

  /** The hashes of the rows below `bound` in need, oldest first. */
  function HashesOf(need: Need, rows: Rows, bound: RecordId, ts: Listing, permits: set<MamId>): seq<Hash> {
    if bound == 0 then []
    else
      var before := HashesOf(need, rows, bound - 1, ts, permits);
      if bound - 1 in rows && !rows[bound - 1].identity.Mam? && Needs(need, rows[bound - 1], ts, permits)
      then before + [rows[bound - 1].identity.hash]
      else before
  }

  /**
   * The first change needed: removals, held torrents stopped, whole content, fetched torrents
   * added, starts, then force starts and their ends.
   */
  function Reconcile(rows: Rows, bound: RecordId, ts: Listing, permits: set<MamId>): Option<Command> {
    var removed := HashesOf(Removal, rows, bound, ts, permits);
    if removed != [] then Some(Remove(removed)) else
    var running := HashesOf(Halt, rows, bound, ts, permits);
    if running != [] then Some(Stop(running)) else
    var partial := HashesOf(Whole, rows, bound, ts, permits);
    if partial != [] then Some(SelectAllFiles(partial[0])) else
    var missing := FirstMissing(rows, bound, ts, permits);
    if missing.Some? then missing else
    var stopped := HashesOf(Begin, rows, bound, ts, permits);
    if stopped != [] then Some(Start(stopped)) else
    var force := HashesOf(Force, rows, bound, ts, permits);
    if force != [] then Some(ForceStart(force)) else
    var release := HashesOf(Release, rows, bound, ts, permits);
    if release != [] then Some(EndForceStart(release)) else
    None
  }

  /** The oldest fetched torrent below `bound` that is missing from the client. */
  function FirstMissing(rows: Rows, bound: RecordId, ts: Listing, permits: set<MamId>): Option<Command> {
    if bound == 0 then None
    else
      var before := FirstMissing(rows, bound - 1, ts, permits);
      if before.Some? then before
      else if bound - 1 in rows && rows[bound - 1].identity.Linked? && Needs(Addition, rows[bound - 1], ts, permits)
      then Some(Add(rows[bound - 1].identity.mam, rows[bound - 1].identity.hash))
      else None
  }

  // ---------- What a command names ----------

  /** The rows that still need a change of this kind. */
  ghost function Todo(need: Need, rows: Rows, ts: Listing, permits: set<MamId>): set<RecordId> {
    set id | id in rows && Needs(need, rows[id], ts, permits)
  }

  ghost function HashesIn(rows: Rows, ids: set<RecordId>): set<Hash> {
    set id | id in ids && id in rows && !rows[id].identity.Mam? :: rows[id].identity.hash
  }

  ghost predicate Below(rows: Rows, bound: RecordId) {
    forall id :: id in rows ==> id < bound
  }

  lemma {:induction false} HashesOfNames(need: Need, rows: Rows, bound: RecordId, ts: Listing, permits: set<MamId>)
    ensures (set h | h in HashesOf(need, rows, bound, ts, permits))
         == HashesIn(rows, set id | id in Todo(need, rows, ts, permits) && id < bound)
  {
    if bound != 0 {
      HashesOfNames(need, rows, bound - 1, ts, permits);
      var before := HashesOf(need, rows, bound - 1, ts, permits);
      var after := HashesOf(need, rows, bound, ts, permits);
      var todo := Todo(need, rows, ts, permits);
      var older := set id | id in todo && id < bound - 1;
      var all := set id | id in todo && id < bound;
      if after == before {
        assert all == older;
      } else {
        assert all == older + {bound - 1};
        assert HashesIn(rows, all) == HashesIn(rows, older) + {rows[bound - 1].identity.hash};
      }
    }
  }

  lemma {:induction false} FirstMissingFinds(rows: Rows, bound: RecordId, ts: Listing, permits: set<MamId>)
    ensures match FirstMissing(rows, bound, ts, permits)
            case Some(c) =>
              exists id ::
                id in Todo(Addition, rows, ts, permits) && c == Add(rows[id].identity.mam, rows[id].identity.hash)
            case None => forall id :: id in Todo(Addition, rows, ts, permits) ==> id >= bound
  {
    if bound != 0 { FirstMissingFinds(rows, bound - 1, ts, permits); }
  }

  /** The rows whose need a command meets, and its kind. */
  ghost function NeedOf(c: Command): Need {
    match c
    case Remove(_) => Removal
    case Stop(_) => Halt
    case SelectAllFiles(_) => Whole
    case Add(_, _) => Addition
    case Start(_) => Begin
    case ForceStart(_) => Force
    case EndForceStart(_) => Release
  }

  ghost function Rank(need: Need): nat {
    match need
    case Removal => 0
    case Halt => 1
    case Whole => 2
    case Addition => 3
    case Begin => 4
    case Force => 5
    case Release => 6
  }

  ghost function Named(c: Command): set<Hash> {
    match c
    case SelectAllFiles(h) => {h}
    case Add(_, h) => {h}
    case _ => set h | h in c.hashes
  }

  /**
   * Reconciliation asks for the first kind of change that any row needs: of every row that needs
   * it, or of one for the kinds that go one by one; and for nothing only when no row needs any.
   */
  lemma ReconcileMeetsFirstNeed(rows: Rows, bound: RecordId, ts: Listing, permits: set<MamId>)
    requires Below(rows, bound)
    ensures match Reconcile(rows, bound, ts, permits)
      case None => forall need :: Todo(need, rows, ts, permits) == {}
      case Some(c) =>
        && (forall need :: Rank(need) < Rank(NeedOf(c)) ==> Todo(need, rows, ts, permits) == {})
        && Named(c) != {}
        && if c.SelectAllFiles? || c.Add? then Named(c) <= HashesIn(rows, Todo(NeedOf(c), rows, ts, permits))
           else Named(c) == HashesIn(rows, Todo(NeedOf(c), rows, ts, permits))
  {
    NeedsNamed(Removal, rows, bound, ts, permits);
    NeedsNamed(Halt, rows, bound, ts, permits);
    NeedsNamed(Whole, rows, bound, ts, permits);
    NeedsNamed(Begin, rows, bound, ts, permits);
    NeedsNamed(Force, rows, bound, ts, permits);
    NeedsNamed(Release, rows, bound, ts, permits);
    MissingNamed(rows, bound, ts, permits);
    hide HashesOf, FirstMissing, Todo, HashesIn;
    var c := Reconcile(rows, bound, ts, permits);
    if c.Some? && !c.value.SelectAllFiles? && !c.value.Add? {
      assert c.value.hashes[0] in Named(c.value);
    }
  }

  lemma MissingNamed(rows: Rows, bound: RecordId, ts: Listing, permits: set<MamId>)
    requires Below(rows, bound)
    ensures match FirstMissing(rows, bound, ts, permits)
      case None => Todo(Addition, rows, ts, permits) == {}
      case Some(c) => c.Add? && c.hash in HashesIn(rows, Todo(Addition, rows, ts, permits))
  {
    FirstMissingFinds(rows, bound, ts, permits);
  }

  lemma NeedsNamed(need: Need, rows: Rows, bound: RecordId, ts: Listing, permits: set<MamId>)
    requires Below(rows, bound)
    ensures (set h | h in HashesOf(need, rows, bound, ts, permits)) == HashesIn(rows, Todo(need, rows, ts, permits))
    ensures HashesOf(need, rows, bound, ts, permits) == [] <==> Todo(need, rows, ts, permits) == {}
    ensures HashesOf(need, rows, bound, ts, permits) != [] ==>
      HashesOf(need, rows, bound, ts, permits)[0] in HashesIn(rows, Todo(need, rows, ts, permits))
  {
    var hs := HashesOf(need, rows, bound, ts, permits);
    var todo := Todo(need, rows, ts, permits);
    HashesOfNames(need, rows, bound, ts, permits);
    assert (set id | id in todo && id < bound) == todo;
    if hs != [] {
      assert hs[0] in set h | h in hs;
      assert hs[0] in HashesIn(rows, todo);
    }
    if todo != {} {
      var id :| id in todo;
      assert !rows[id].identity.Mam?;
      assert rows[id].identity.hash in HashesIn(rows, todo);
    }
  }

  // ---------- The client ----------

  /** Torrents outside the named ones are as they were. */
  ghost predicate OthersKept(before: Listing, after: Listing, named: set<Hash>) {
    forall h :: h !in named ==> (h in before <==> h in after) && (h in before ==> after[h] == before[h])
  }

  /** How a client that carries the command out may leave a named torrent. */
  ghost predicate Done(c: Command, h: Hash, before: Listing, after: Listing) {
    match c
    case Remove(_) => h !in after
    case SelectAllFiles(_) => h in after && !Partial(after[h])
    case Add(_, _) => h in after && !Partial(after[h])
    case Stop(_) =>
      h in before && h in after && after[h] == before[h].(state := after[h].state) && after[h].state.Stopped?
    case Start(_) =>
      && h in before && h in after && after[h] == before[h].(state := after[h].state)
      && !after[h].state.Stopped?
    case ForceStart(_) => h in before && h in after && after[h] == before[h].(forceStart := Forced)
    case EndForceStart(_) => h in before && h in after && after[h] == before[h].(forceStart := NotForced)
  }

  ghost predicate CarriesOut(c: Command, before: Listing, after: Listing) {
    OthersKept(before, after, Named(c)) && forall h :: h in Named(c) ==> Done(c, h, before, after)
  }

  /** Round by round, what the client's list becomes once it has carried out the command it got. */
  type Client = (nat, Listing) -> Listing

  ghost predicate Obeys(client: Client, rows: Rows, bound: RecordId, permits: set<MamId>) {
    forall k, ts {:trigger client(k, ts)} ::
      Reconcile(rows, bound, ts, permits).Some? ==>
        CarriesOut(Reconcile(rows, bound, ts, permits).value, ts, client(k, ts))
  }

  // ---------- The measure ----------

  ghost predicate UniqueHashes(rows: Rows) {
    forall a, b :: a in rows && b in rows && a != b && !rows[a].identity.Mam? && !rows[b].identity.Mam? ==>
      rows[a].identity.hash != rows[b].identity.hash
  }

  /** A row whose torrent the command does not name needs what it needed before. */
  lemma UnnamedRowsUnmoved(need: Need, r: Intent, c: Command, before: Listing, after: Listing, permits: set<MamId>)
    requires OthersKept(before, after, Named(c))
    requires r.identity.Mam? || r.identity.hash !in Named(c)
    ensures Needs(need, r, after, permits) <==> Needs(need, r, before, permits)
  {
  }

  /** A named row no longer has the need met, and gains no need of an earlier kind. */
  lemma NamedRowsServed(need: Need, r: Intent, c: Command, before: Listing, after: Listing, permits: set<MamId>)
    requires !r.identity.Mam? && Done(c, r.identity.hash, before, after)
    requires Needs(NeedOf(c), r, before, permits) && Rank(need) <= Rank(NeedOf(c))
    requires Rank(need) < Rank(NeedOf(c)) ==> !Needs(need, r, before, permits)
    requires c.Start? ==> !Needs(Whole, r, before, permits)
    ensures !Needs(need, r, after, permits)
  {
  }

  /** Carrying out the command empties or shrinks its own set and adds nothing to an earlier one. */
  lemma CommandShrinks(c: Command, rows: Rows, before: Listing, after: Listing, permits: set<MamId>)
    requires UniqueHashes(rows) && CarriesOut(c, before, after)
    requires forall need :: Rank(need) < Rank(NeedOf(c)) ==> Todo(need, rows, before, permits) == {}
    requires Named(c) != {} && Named(c) <= HashesIn(rows, Todo(NeedOf(c), rows, before, permits))
    ensures forall need :: Rank(need) < Rank(NeedOf(c)) ==> Todo(need, rows, after, permits) == {}
    ensures Todo(NeedOf(c), rows, after, permits) < Todo(NeedOf(c), rows, before, permits)
  {
    forall need, id | id in rows && Rank(need) <= Rank(NeedOf(c)) && Needs(need, rows[id], after, permits)
      ensures id in Todo(need, rows, before, permits)
      ensures rows[id].identity.Mam? || rows[id].identity.hash !in Named(c)
    {
      RowMoves(need, id, c, rows, before, after, permits);
    }
    var h :| h in Named(c);
    var served :| served in Todo(NeedOf(c), rows, before, permits) && !rows[served].identity.Mam?
      && rows[served].identity.hash == h;
    assert served !in Todo(NeedOf(c), rows, after, permits);
    assert Todo(NeedOf(c), rows, after, permits) <= Todo(NeedOf(c), rows, before, permits);
    forall need | Rank(need) < Rank(NeedOf(c))
      ensures Todo(need, rows, after, permits) == {}
    {
      assert Todo(need, rows, after, permits) <= Todo(need, rows, before, permits);
    }
  }

  lemma RowMoves(need: Need, id: RecordId, c: Command, rows: Rows, before: Listing, after: Listing, permits: set<MamId>)
    requires UniqueHashes(rows) && CarriesOut(c, before, after) && id in rows
    requires forall earlier :: Rank(earlier) < Rank(NeedOf(c)) ==> Todo(earlier, rows, before, permits) == {}
    requires Named(c) <= HashesIn(rows, Todo(NeedOf(c), rows, before, permits))
    requires Rank(need) <= Rank(NeedOf(c)) && Needs(need, rows[id], after, permits)
    ensures id in Todo(need, rows, before, permits)
    ensures rows[id].identity.Mam? || rows[id].identity.hash !in Named(c)
  {
    if rows[id].identity.Mam? || rows[id].identity.hash !in Named(c) {
      UnnamedRowsUnmoved(need, rows[id], c, before, after, permits);
    } else {
      var todo := Todo(NeedOf(c), rows, before, permits);
      var other :| other in todo && other in rows && !rows[other].identity.Mam?
        && rows[other].identity.hash == rows[id].identity.hash;
      assert other == id;
      assert id !in Todo(Whole, rows, before, permits) || !c.Start?;
      assert Rank(need) < Rank(NeedOf(c)) ==> id !in Todo(need, rows, before, permits);
      NamedRowsServed(need, rows[id], c, before, after, permits);
      assert false;
    }
  }

  // ---------- Convergence ----------

  ghost predicate Fixed(rows: Rows, bound: RecordId) {
    Below(rows, bound) && UniqueHashes(rows)
  }

  /** One round shrinks the seven sets lexicographically, each compared by inclusion. */
  lemma RoundDecreases(rows: Rows, bound: RecordId, permits: set<MamId>, client: Client, k: nat, ts: Listing)
    requires Fixed(rows, bound) && Obeys(client, rows, bound, permits)
    requires Reconcile(rows, bound, ts, permits).Some?
    ensures var c := Reconcile(rows, bound, ts, permits).value;
      && (forall need :: Rank(need) < Rank(NeedOf(c)) ==>
          Todo(need, rows, client(k, ts), permits) == Todo(need, rows, ts, permits))
      && Todo(NeedOf(c), rows, client(k, ts), permits) < Todo(NeedOf(c), rows, ts, permits)
  {
    var c := Reconcile(rows, bound, ts, permits).value;
    ReconcileMeetsFirstNeed(rows, bound, ts, permits);
    hide Reconcile, Todo, HashesIn, Needs;
    assert CarriesOut(c, ts, client(k, ts));
    CommandShrinks(c, rows, ts, client(k, ts), permits);
  }

  datatype Round = Round(seen: Listing, command: Command)

  /** The rounds until nothing is left to ask; that this is a function says that it ends. */
  ghost function Settle(
      rows: Rows, bound: RecordId, permits: set<MamId>, client: Client, k: nat, ts: Listing): (seq<Round>, Listing)
    requires Fixed(rows, bound) && Obeys(client, rows, bound, permits)
    decreases Todo(Removal, rows, ts, permits), Todo(Halt, rows, ts, permits), Todo(Whole, rows, ts, permits),
              Todo(Addition, rows, ts, permits), Todo(Begin, rows, ts, permits), Todo(Force, rows, ts, permits),
              Todo(Release, rows, ts, permits)
  {
    if Reconcile(rows, bound, ts, permits).None? then ([], ts)
    else
      RoundDecreases(rows, bound, permits, client, k, ts);
      var rest := Settle(rows, bound, permits, client, k + 1, client(k, ts));
      ([Round(ts, Reconcile(rows, bound, ts, permits).value)] + rest.0, rest.1)
  }

  ghost function SeenAt(rounds: seq<Round>, rest: Listing, i: nat): Listing {
    if i < |rounds| then rounds[i].seen else rest
  }

  /** The rounds are an execution: each command is what reconciliation asks, and the client carries it out. */
  ghost predicate Execution(
      rounds: seq<Round>, rest: Listing, rows: Rows, bound: RecordId, permits: set<MamId>, client: Client, k: nat,
      ts: Listing)
  {
    && Reconcile(rows, bound, rest, permits).None?
    && (forall i :: 0 <= i < |rounds| ==> Reconcile(rows, bound, rounds[i].seen, permits) == Some(rounds[i].command))
    && (forall i :: 0 <= i < |rounds| ==> SeenAt(rounds, rest, i + 1) == client(k + i, rounds[i].seen))
    && SeenAt(rounds, rest, 0) == ts
  }

  lemma {:induction false} SettleExecutes(
      rows: Rows, bound: RecordId, permits: set<MamId>, client: Client, k: nat, ts: Listing)
    requires Fixed(rows, bound) && Obeys(client, rows, bound, permits)
    ensures var (rounds, rest) := Settle(rows, bound, permits, client, k, ts);
            Execution(rounds, rest, rows, bound, permits, client, k, ts)
    decreases Todo(Removal, rows, ts, permits), Todo(Halt, rows, ts, permits), Todo(Whole, rows, ts, permits),
              Todo(Addition, rows, ts, permits), Todo(Begin, rows, ts, permits), Todo(Force, rows, ts, permits),
              Todo(Release, rows, ts, permits)
  {
    hide Reconcile;
    if Reconcile(rows, bound, ts, permits).Some? {
      RoundDecreases(rows, bound, permits, client, k, ts);
      SettleExecutes(rows, bound, permits, client, k + 1, client(k, ts));
      var (rounds, rest) := Settle(rows, bound, permits, client, k + 1, client(k, ts));
      ExecutionExtends(rounds, rest, rows, bound, permits, client, k, ts);
    }
    hide Todo, Execution;
  }

  lemma SeenShifts(first: Round, rounds: seq<Round>, rest: Listing, i: nat)
    ensures SeenAt([first] + rounds, rest, i + 1) == SeenAt(rounds, rest, i)
    ensures 0 < i <= |rounds| ==> ([first] + rounds)[i] == rounds[i - 1]
  {
  }

  lemma SeenExtends(rounds: seq<Round>, rest: Listing, client: Client, k: nat, first: Round, i: nat)
    requires forall j :: 0 <= j < |rounds| ==> SeenAt(rounds, rest, j + 1) == client(k + 1 + j, rounds[j].seen)
    requires SeenAt(rounds, rest, 0) == client(k, first.seen) && i <= |rounds|
    ensures SeenAt([first] + rounds, rest, i + 1) == client(k + i, ([first] + rounds)[i].seen)
  {
    SeenShifts(first, rounds, rest, i);
    hide SeenAt;
    if i > 0 {
      assert SeenAt(rounds, rest, (i - 1) + 1) == client(k + 1 + (i - 1), rounds[i - 1].seen);
    }
  }

  lemma ExecutionExtends(
      rounds: seq<Round>, rest: Listing, rows: Rows, bound: RecordId, permits: set<MamId>, client: Client, k: nat,
      ts: Listing)
    requires Reconcile(rows, bound, ts, permits).Some?
    requires Execution(rounds, rest, rows, bound, permits, client, k + 1, client(k, ts))
    ensures Execution([Round(ts, Reconcile(rows, bound, ts, permits).value)] + rounds, rest, rows, bound, permits,
      client, k, ts)
  {
    hide Reconcile;
    var first := Round(ts, Reconcile(rows, bound, ts, permits).value);
    var all := [first] + rounds;
    assert SeenAt(all, rest, 0) == ts;
    forall i | 0 <= i < |all|
      ensures SeenAt(all, rest, i + 1) == client(k + i, all[i].seen)
    {
      SeenExtends(rounds, rest, client, k, first, i);
    }
    hide SeenAt;
    forall i | 0 <= i < |all|
      ensures Reconcile(rows, bound, all[i].seen, permits) == Some(all[i].command)
    {
      if i > 0 { assert all[i] == rounds[i - 1]; }
    }
  }

  // ---------- What the registry owes, in the torrent's own fields ----------

  /** MAM allows this row's content to transfer; a row without a MAM ID needs no permission. */
  ghost predicate MayTransfer(r: Intent, permits: set<MamId>) {
    r.identity.Client? || r.identity.mam in permits
  }

  /** Every file is selected, or sizes are not known yet. */
  ghost predicate IsWhole(t: Torrent) {
    t.state == FetchingMetadata || t.size >= t.totalSize
  }

  /** Found stopped with nothing downloaded: Windlass did not admit it, and leaves it. */
  ghost predicate LeftAlone(r: Intent, t: Torrent) {
    r.origin == Adopted && t.progress == 0 && t.downloaded == 0
  }

  /** Complete, and short of 96 hours of seeding. */
  ghost predicate MustSeed(t: Torrent) {
    t.completedAt != None && t.seedingTime < 96 * HOUR
  }

  /** What each kind of change is for. */
  ghost predicate Warrants(need: Need, r: Intent, ts: Listing, permits: set<MamId>) {
    if need.Addition? then
      && r.identity.Linked? && r.desired == Active && r.origin != Adopted
      && r.identity.mam in permits && r.identity.hash !in ts
    else
      && !r.identity.Mam? && r.identity.hash in ts
      && var t := ts[r.identity.hash];
         match need
         case Removal =>
           && r.desired == Removed
           && ((t.completedAt != None && t.seedingTime >= 96 * HOUR) || (t.progress == 0 && t.downloaded == 0))
         case Halt => r.desired == Held && t.completedAt == None && !t.state.Stopped?
         case Whole => r.desired == Active && !IsWhole(t) && MayTransfer(r, permits)
         case Begin =>
           && r.desired == Active && t.state.Stopped? && !LeftAlone(r, t)
           && ((t.state == Stopped(Complete) && IsWhole(t)) || MayTransfer(r, permits))
         case Force => r.desired == Active && MustSeed(t) && IsWhole(t) && t.forceStart == NotForced
         case Release => r.desired == Active && !MustSeed(t) && t.forceStart == Forced
  }

  lemma NeedsAreWarranted(need: Need, r: Intent, ts: Listing, permits: set<MamId>)
    ensures Needs(need, r, ts, permits) <==> Warrants(need, r, ts, permits)
  {
  }

  ghost predicate AnyWarrants(need: Need, rows: Rows, ts: Listing, permits: set<MamId>) {
    exists id :: id in rows && Warrants(need, rows[id], ts, permits)
  }

  lemma TodoIffWarranted(need: Need, rows: Rows, ts: Listing, permits: set<MamId>)
    ensures Todo(need, rows, ts, permits) != {} <==> AnyWarrants(need, rows, ts, permits)
  {
    forall id | id in rows ensures Needs(need, rows[id], ts, permits) <==> Warrants(need, rows[id], ts, permits) {
      NeedsAreWarranted(need, rows[id], ts, permits);
    }
    hide Needs, Warrants;
    if id :| id in rows && Warrants(need, rows[id], ts, permits) {
      assert id in Todo(need, rows, ts, permits);
    }
    if Todo(need, rows, ts, permits) != {} {
      var id :| id in Todo(need, rows, ts, permits);
      assert Warrants(need, rows[id], ts, permits);
    }
  }

  /** The kinds of change come in this order: the first that any row warrants is the one asked for. */
  lemma ReconcileKeepsItsOrder(rows: Rows, bound: RecordId, ts: Listing, permits: set<MamId>)
    requires Below(rows, bound)
    ensures match Reconcile(rows, bound, ts, permits)
      case Some(Remove(_)) => AnyWarrants(Removal, rows, ts, permits)
      case Some(Stop(_)) => AnyWarrants(Halt, rows, ts, permits) && !AnyWarrants(Removal, rows, ts, permits)
      case Some(SelectAllFiles(_)) =>
        && AnyWarrants(Whole, rows, ts, permits)
        && !AnyWarrants(Removal, rows, ts, permits) && !AnyWarrants(Halt, rows, ts, permits)
      case Some(Add(_, _)) =>
        && AnyWarrants(Addition, rows, ts, permits) && !AnyWarrants(Removal, rows, ts, permits)
        && !AnyWarrants(Halt, rows, ts, permits) && !AnyWarrants(Whole, rows, ts, permits)
      case Some(Start(_)) =>
        && AnyWarrants(Begin, rows, ts, permits) && !AnyWarrants(Removal, rows, ts, permits)
        && !AnyWarrants(Halt, rows, ts, permits) && !AnyWarrants(Whole, rows, ts, permits)
        && !AnyWarrants(Addition, rows, ts, permits)
      case Some(ForceStart(_)) =>
        && AnyWarrants(Force, rows, ts, permits) && !AnyWarrants(Removal, rows, ts, permits)
        && !AnyWarrants(Halt, rows, ts, permits) && !AnyWarrants(Whole, rows, ts, permits)
        && !AnyWarrants(Addition, rows, ts, permits) && !AnyWarrants(Begin, rows, ts, permits)
      case Some(EndForceStart(_)) =>
        && AnyWarrants(Release, rows, ts, permits) && !AnyWarrants(Removal, rows, ts, permits)
        && !AnyWarrants(Halt, rows, ts, permits) && !AnyWarrants(Whole, rows, ts, permits)
        && !AnyWarrants(Addition, rows, ts, permits) && !AnyWarrants(Begin, rows, ts, permits)
        && !AnyWarrants(Force, rows, ts, permits)
      case None => forall need :: !AnyWarrants(need, rows, ts, permits)
  {
    forall need ensures Todo(need, rows, ts, permits) != {} <==> AnyWarrants(need, rows, ts, permits) {
      TodoIffWarranted(need, rows, ts, permits);
    }
    ReconcileMeetsFirstNeed(rows, bound, ts, permits);
    var c := Reconcile(rows, bound, ts, permits);
    hide Reconcile, AnyWarrants;
    if c.Some? {
      assert HashesIn(rows, Todo(NeedOf(c.value), rows, ts, permits)) != {};
      assert Todo(NeedOf(c.value), rows, ts, permits) != {};
      hide Todo, HashesIn;
    }
  }

  /** The hashes of the rows that warrant this kind of change. */
  ghost function WarrantedHashes(need: Need, rows: Rows, ts: Listing, permits: set<MamId>): set<Hash> {
    set id | id in rows && !rows[id].identity.Mam? && Warrants(need, rows[id], ts, permits) :: rows[id].identity.hash
  }

  /** A command names exactly the torrents whose rows warrant it, or one of them for the kinds that go one by one. */
  lemma CommandsNameTheWarranted(rows: Rows, bound: RecordId, ts: Listing, permits: set<MamId>)
    requires Below(rows, bound)
    ensures match Reconcile(rows, bound, ts, permits)
      case Some(Remove(hs)) => (set h | h in hs) == WarrantedHashes(Removal, rows, ts, permits)
      case Some(Stop(hs)) => (set h | h in hs) == WarrantedHashes(Halt, rows, ts, permits)
      case Some(SelectAllFiles(h)) => h in WarrantedHashes(Whole, rows, ts, permits)
      case Some(Add(_, h)) => h in WarrantedHashes(Addition, rows, ts, permits)
      case Some(Start(hs)) => (set h | h in hs) == WarrantedHashes(Begin, rows, ts, permits)
      case Some(ForceStart(hs)) => (set h | h in hs) == WarrantedHashes(Force, rows, ts, permits)
      case Some(EndForceStart(hs)) => (set h | h in hs) == WarrantedHashes(Release, rows, ts, permits)
      case None => true
  {
    ReconcileMeetsFirstNeed(rows, bound, ts, permits);
    var c := Reconcile(rows, bound, ts, permits);
    hide Reconcile;
    if c.Some? {
      HashesInAreWarranted(NeedOf(c.value), rows, ts, permits);
      hide HashesIn, Todo, WarrantedHashes;
    }
  }

  /** These hashes are those of these rows, oldest row first. */
  ghost predicate OldestFirst(rows: Rows, ids: seq<RecordId>, hashes: seq<Hash>) {
    && |ids| == |hashes| && (forall i, j :: 0 <= i < j < |ids| ==> ids[i] < ids[j])
    && (forall i :: 0 <= i < |ids| ==> ids[i] in rows && rows[ids[i]].identity.HashOf() == Some(hashes[i]))
  }

  /** The oldest row that warrants a change of this kind. */
  ghost predicate IsOldest(need: Need, rows: Rows, ts: Listing, permits: set<MamId>, id: RecordId) {
    && id in rows && Warrants(need, rows[id], ts, permits)
    && (forall other :: other in rows && Warrants(need, rows[other], ts, permits) ==> id <= other)
  }

  lemma {:induction false} HashesOfOldestFirst(
      need: Need, rows: Rows, bound: RecordId, ts: Listing, permits: set<MamId>) returns (ids: seq<RecordId>)
    ensures OldestFirst(rows, ids, HashesOf(need, rows, bound, ts, permits))
    ensures forall i :: 0 <= i < |ids| ==> ids[i] < bound && Needs(need, rows[ids[i]], ts, permits)
    ensures forall id :: id in rows && id < bound && !rows[id].identity.Mam? && Needs(need, rows[id], ts, permits) ==>
      id in ids
  {
    ids := [];
    if bound != 0 {
      ids := HashesOfOldestFirst(need, rows, bound - 1, ts, permits);
      hide Needs;
      if bound - 1 in rows && !rows[bound - 1].identity.Mam? && Needs(need, rows[bound - 1], ts, permits) {
        ids := ids + [bound - 1];
      }
    }
  }

  lemma {:induction false} FirstMissingIsOldest(rows: Rows, bound: RecordId, ts: Listing, permits: set<MamId>)
    ensures match FirstMissing(rows, bound, ts, permits)
            case Some(c) =>
              exists id ::
                && id in rows && id < bound && Needs(Addition, rows[id], ts, permits)
                && c == Add(rows[id].identity.mam, rows[id].identity.hash)
                && forall other :: other in rows && other < id ==> !Needs(Addition, rows[other], ts, permits)
            case None => forall id :: id in rows && id < bound ==> !Needs(Addition, rows[id], ts, permits)
  {
    if bound != 0 { FirstMissingIsOldest(rows, bound - 1, ts, permits); }
  }

  /**
   * A command names rows oldest first: a list of torrents in the order of their rows, and of the kinds
   * that go one by one the oldest row that warrants it.
   */
  lemma OldestRowsGoFirst(rows: Rows, bound: RecordId, ts: Listing, permits: set<MamId>)
    requires Below(rows, bound)
    ensures match Reconcile(rows, bound, ts, permits)
      case Some(SelectAllFiles(h)) =>
        exists id :: IsOldest(Whole, rows, ts, permits, id) && rows[id].identity.HashOf() == Some(h)
      case Some(Add(m, h)) =>
        exists id :: IsOldest(Addition, rows, ts, permits, id) && rows[id].identity == Linked(m, h)
      case Some(c) => exists ids :: OldestFirst(rows, ids, c.hashes)
      case None => true
  {
    FirstMissingIsOldest(rows, bound, ts, permits);
    forall need: Need, id | id in rows
      ensures Needs(need, rows[id], ts, permits) <==> Warrants(need, rows[id], ts, permits)
    {
      NeedsAreWarranted(need, rows[id], ts, permits);
    }
    var c := Reconcile(rows, bound, ts, permits);
    if c.Some? && !c.value.Add? {
      var ids := HashesOfOldestFirst(NeedOf(c.value), rows, bound, ts, permits);
      if c.value.SelectAllFiles? {
        assert IsOldest(Whole, rows, ts, permits, ids[0]);
      }
    }
  }

  lemma HashesInAreWarranted(need: Need, rows: Rows, ts: Listing, permits: set<MamId>)
    ensures HashesIn(rows, Todo(need, rows, ts, permits)) == WarrantedHashes(need, rows, ts, permits)
  {
    forall id | id in rows ensures Needs(need, rows[id], ts, permits) <==> Warrants(need, rows[id], ts, permits) {
      NeedsAreWarranted(need, rows[id], ts, permits);
    }
    hide Needs, Warrants;
  }

  /** What a torrent must be like for its row to be at peace, in the registry's own terms. */
  ghost predicate AtRest(r: Intent, ts: Listing, permits: set<MamId>) {
    var present := !r.identity.Mam? && r.identity.hash in ts;
    match r.desired
    case Removed =>
      present ==>
        var t := ts[r.identity.hash];
        !(t.completedAt != None && t.seedingTime >= 96 * HOUR) && !(t.progress == 0 && t.downloaded == 0)
    case Held => present && ts[r.identity.hash].completedAt == None ==> ts[r.identity.hash].state.Stopped?
    case Active =>
      && (r.identity.Linked? && r.origin != Adopted && r.identity.mam in permits ==> present)
      && (present ==>
            var t := ts[r.identity.hash];
            && (MayTransfer(r, permits) ==> IsWhole(t) && (t.state.Stopped? ==> LeftAlone(r, t)))
            && (t.state == Stopped(Complete) && IsWhole(t) ==> LeftAlone(r, t))
            && (t.forceStart == Forced ==> MustSeed(t))
            && (MustSeed(t) && IsWhole(t) ==> t.forceStart == Forced))
    case _ => true
  }

  /** Reconciliation asks for nothing exactly when every row is at rest. */
  lemma QuietIffAtRest(rows: Rows, bound: RecordId, ts: Listing, permits: set<MamId>)
    requires Below(rows, bound)
    ensures Reconcile(rows, bound, ts, permits).None? <==> forall id :: id in rows ==> AtRest(rows[id], ts, permits)
  {
    ReconcileMeetsFirstNeed(rows, bound, ts, permits);
    var c := Reconcile(rows, bound, ts, permits);
    hide Reconcile;
    if c.None? {
      forall id | id in rows
        ensures AtRest(rows[id], ts, permits)
      {
        forall need
          ensures !Needs(need, rows[id], ts, permits)
        {
          assert id !in Todo(need, rows, ts, permits);
        }
        RestMeansNoNeed(rows[id], ts, permits);
      }
    } else {
      var h :| h in HashesIn(rows, Todo(NeedOf(c.value), rows, ts, permits));
      var id :| id in Todo(NeedOf(c.value), rows, ts, permits) && id in rows;
      RestMeansNoNeed(rows[id], ts, permits);
      assert !AtRest(rows[id], ts, permits);
    }
  }

  lemma RestMeansNoNeed(r: Intent, ts: Listing, permits: set<MamId>)
    ensures AtRest(r, ts, permits) <==>
      && !Needs(Removal, r, ts, permits) && !Needs(Halt, r, ts, permits) && !Needs(Whole, r, ts, permits)
      && !Needs(Addition, r, ts, permits) && !Needs(Begin, r, ts, permits) && !Needs(Force, r, ts, permits)
      && !Needs(Release, r, ts, permits)
  {
  }

  /** The row has this hash and its MAM download is neither permitted nor reported complete and whole. */
  ghost predicate Forbidden(r: Intent, h: Hash, ts: Listing, permits: set<MamId>) {
    && r.identity.Linked? && r.identity.hash == h && r.identity.mam !in permits
    && !(h in ts && ts[h].state == Stopped(Complete) && ts[h].size >= ts[h].totalSize)
  }

  /** Commands that make content transfer. */
  ghost predicate Transfers(c: Command) {
    c.Add? || c.Start? || c.SelectAllFiles?
  }

  /** No command to add, start or select files names a MAM download that is neither permitted nor complete and whole. */
  lemma TransfersArePermitted(rows: Rows, bound: RecordId, ts: Listing, permits: set<MamId>)
    requires Fixed(rows, bound) && Reconcile(rows, bound, ts, permits).Some?
    requires Transfers(Reconcile(rows, bound, ts, permits).value)
    ensures var c := Reconcile(rows, bound, ts, permits).value;
      && (forall id, h :: id in rows && h in Named(c) ==> !Forbidden(rows[id], h, ts, permits))
      && (c.Add? ==>
            && c.mam in permits
            && exists id :: id in rows && rows[id].identity == Linked(c.mam, c.hash) && rows[id].desired.Active?)
  {
    var c := Reconcile(rows, bound, ts, permits).value;
    ReconcileMeetsFirstNeed(rows, bound, ts, permits);
    FirstMissingFinds(rows, bound, ts, permits);
    assert c.Add? ==> Some(c) == FirstMissing(rows, bound, ts, permits);
    hide Reconcile, FirstMissing;
    forall id, h | id in rows && h in Named(c)
      ensures !Forbidden(rows[id], h, ts, permits)
    {
      var other :| other in Todo(NeedOf(c), rows, ts, permits) && !rows[other].identity.Mam?
        && rows[other].identity.hash == h;
      if !rows[id].identity.Mam? && rows[id].identity.hash == h {
        assert other == id;
      }
    }
  }

  /**
   * Convergence: with rows and permissions fixed, every client that carries out each command is
   * brought to rest in finitely many rounds, and no round on the way transfers forbidden content.
   */
  lemma ReconciliationConverges(rows: Rows, bound: RecordId, permits: set<MamId>, client: Client, k: nat, ts: Listing)
    requires Fixed(rows, bound) && Obeys(client, rows, bound, permits)
    ensures var (rounds, rest) := Settle(rows, bound, permits, client, k, ts);
      && Execution(rounds, rest, rows, bound, permits, client, k, ts)
      && (forall id :: id in rows ==> AtRest(rows[id], rest, permits))
      && (forall i, id, h {:trigger Forbidden(rows[id], h, rounds[i].seen, permits)} ::
            0 <= i < |rounds| && id in rows && Transfers(rounds[i].command) && h in Named(rounds[i].command) ==>
              !Forbidden(rows[id], h, rounds[i].seen, permits))
  {
    var (rounds, rest) := Settle(rows, bound, permits, client, k, ts);
    SettleExecutes(rows, bound, permits, client, k, ts);
    QuietIffAtRest(rows, bound, rest, permits);
    hide Reconcile, Settle, Forbidden, AtRest;
    forall i, id, h | 0 <= i < |rounds| && id in rows && Transfers(rounds[i].command) && h in Named(rounds[i].command)
      ensures !Forbidden(rows[id], h, rounds[i].seen, permits)
    {
      TransfersArePermitted(rows, bound, rounds[i].seen, permits);
    }
  }
}
