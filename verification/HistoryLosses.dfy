/**
 * The history count while inserts fail: from any open history, with no trim outstanding, the runner
 * goes on counting its own steps and the writer loses entries, reports gaps late, and trims.
 */
module HistoryLosses {
  import opened Basics
  import opened History

  /**
   * `gap` is how many lost entries were still unreported when the rows were last counted by a trim;
   * `owed` is how much of it will be, or was, taken off the count although the trim left it out.
   */
  datatype Ledger = Ledger(y: System, gap: nat, owed: nat)

  datatype Move =
    | Handles(limit: Option<nat>)
    | Hears(limit: Option<nat>)
    | Writes(calls: Calls)

  /** The report is taken into the core; recording the step that heard it comes after. */
  function Heard(x: Ledger): Ledger
    requires x.y.results != []
  {
    var y, e := x.y, x.y.results[0];
    Ledger(
      y.(results := y.results[1..], core := Handle(y.core, y.step + 1, e)), x.gap,
      if e.Trimmed? then x.gap
      else if e.EntriesLost? && y.core.Open? then Minus(x.owed, Minus(e.missing, y.core.retained))
      else x.owed)
  }

  function Counted(x: Ledger, limit: Option<nat>): Ledger {
    x.(y := RunnerStep(x.y, None, false, limit))
  }

  function Written(x: Ledger, calls: Calls): Ledger
    requires x.y.queue != []
  {
    var y, c := x.y, x.y.queue[0];
    var (writer, events) := Process(y.writer, c, calls);
    x.(y := y.(queue := y.queue[1..], writer := writer, results := y.results + events,
               uncounted := y.uncounted
                 + if c.TrimTo? && calls.ok && !calls.counts then Minus(|y.writer.rows|, |writer.rows|) else 0),
       gap := if c.TrimTo? && calls.ok && calls.counts then y.writer.lost else x.gap)
  }

  function Moved(x: Ledger, m: Move): Ledger {
    match m
    case Handles(limit) => Counted(x, limit)
    case Hears(limit) => if x.y.results == [] then x else Counted(Heard(x), limit)
    case Writes(calls) => if x.y.queue == [] then x else Written(x, calls)
  }

  function Moves(y: System, moves: seq<Move>): Ledger {
    if moves == [] then Ledger(y, 0, 0) else Moved(Moves(y, moves[..|moves| - 1]), moves[|moves| - 1])
  }

  // ---------- The balance ----------

  /** The count, and what is owed on it, is what is stored, queued, lost and yet to be heard lost. */
  ghost predicate Balanced(x: Ledger) {
    x.y.core.Open? &&
    x.y.core.retained + x.owed ==
      |x.y.writer.rows| + |Queued(x.y.queue)| + x.y.writer.lost + Reported(x.y.results) + x.y.uncounted
  }

  ghost predicate OnlyLosses(results: seq<Event>) {
    forall i :: 0 <= i < |results| ==> results[i].EntriesLost?
  }

  /** The one report among these that is not of a gap. */
  ghost predicate AnswerAt(results: seq<Event>, k: nat) {
    && k < |results| && !results[k].EntriesLost?
    && (forall i :: 0 <= i < |results| && i != k ==> results[i].EntriesLost?)
  }

  /** The trim waits in the queue. */
  ghost predicate TrimQueued(x: Ledger, since: nat)
    requires since <= x.y.step
  {
    var behind := x.y.step - since;
    && OneCommand(x.y.queue, behind) && x.y.queue[|x.y.queue| - 1 - behind].TrimTo?
    && OnlyLosses(x.y.results) && Balanced(x) && x.y.uncounted == 0
  }

  ghost predicate FailureWaits(x: Ledger) {
    OnlyRecords(x.y.queue) && Balanced(x) && exists k: nat :: AnswerAt(x.y.results, k) && x.y.results[k] == TrimFailed
  }

  /** The trim was counted: everything since is stored, queued or lost, besides the gap it left out. */
  ghost predicate CountWaits(x: Ledger, since: nat)
    requires since <= x.y.step
  {
    OnlyRecords(x.y.queue) && x.y.uncounted == 0 &&
    exists k: nat ::
      && AnswerAt(x.y.results, k) && x.y.results[k].Trimmed?
      && |x.y.writer.rows| + |Queued(x.y.queue)| + x.y.writer.lost + Reported(x.y.results[k + 1..]) ==
           x.y.results[k].count + (x.y.step - since) + x.gap
  }

  ghost predicate Inv(x: Ledger) {
    && x.y.core.Open? && x.y.writer.store.Ready?
    && match x.y.core.trim
       case Pending(since) => since <= x.y.step && (TrimQueued(x, since) || FailureWaits(x) || CountWaits(x, since))
       case _ =>
         && OnlyRecords(x.y.queue) && OnlyLosses(x.y.results) && Balanced(x)
         && (x.y.core.trim.Idle? ==> x.y.uncounted == 0)
  }

  lemma ReportedFirst(events: seq<Event>)
    requires events != []
    ensures Reported(events) == Reported(events[1..]) + if events[0].EntriesLost? then events[0].missing else 0
  {
    ReportedAppend([events[0]], events[1..]);
    ReportedOne(events[0]);
    assert events == [events[0]] + events[1..];
  }

  // ---------- The runner ----------

  lemma QueuedMore(queue: seq<Command>, entry: Entry, more: seq<Command>)
    requires |more| <= 1 && (more != [] ==> !more[0].Record?)
    ensures Queued(queue + [Record(entry)] + more) == Queued(queue) + [entry]
  {
    QueuedAppend(queue, [Record(entry)]);
    QueuedAppend(queue + [Record(entry)], more);
    assert [Record(entry)][1..] == [];
    if more != [] { assert more[1..] == []; }
  }

  lemma CountedKeeps(x: Ledger, limit: Option<nat>)
    requires Inv(x)
    ensures Inv(Counted(x, limit))
  {
    var y, z := x.y, Counted(x, limit);
    var (core, keep) := AfterStep(y.core, y.step + 1, limit);
    QueuedMore(y.queue, Handled(y.step + 1), Dispatched(false, keep));
    assert z.y == y.(step := y.step + 1, core := core,
      queue := y.queue + [Record(Handled(y.step + 1))] + Dispatched(false, keep));
    assert Dispatched(false, keep) == if keep.Some? then [TrimTo(keep.value)] else [];
    hide Queued, RunnerStep, Reported, AnswerAt, OnlyLosses, Dispatched;
    match y.core.trim
    case Pending(since) =>
      assert z.y.queue == y.queue + [Record(Handled(y.step + 1))];
      if TrimQueued(x, since) {
        assert TrimQueued(z, since);
      } else if FailureWaits(x) {
        assert FailureWaits(z);
      } else {
        assert CountWaits(z, since);
      }
    case Idle =>
      if keep.Some? {
        assert z.y.core.trim == Pending(y.step + 1) && OneCommand(z.y.queue, 0);
        assert TrimQueued(z, y.step + 1);
      }
    case Failed =>
  }

  /** A gap that is heard of comes off the count, or off what is owed where the count is too low. */
  lemma LossBalances(x: Ledger)
    requires Balanced(x) && x.y.results != [] && x.y.results[0].EntriesLost?
    ensures Balanced(Heard(x))
  {
    ReportedFirst(x.y.results);
    hide Queued, Reported;
  }

  lemma LossMoves(x: Ledger)
    requires x.y.core.Open? && x.y.results != [] && x.y.results[0].EntriesLost?
    ensures var z := Heard(x);
      && z.y == x.y.(results := x.y.results[1..], core := z.y.core) && z.gap == x.gap
      && z.y.core.Open? && z.y.core.trim == x.y.core.trim
      && (forall k: nat :: AnswerAt(x.y.results, k) ==> k > 0 && AnswerAt(z.y.results, k - 1))
  {
  }

  lemma LossKeeps(x: Ledger)
    requires Inv(x) && x.y.results != [] && x.y.results[0].EntriesLost?
    ensures Inv(Heard(x))
  {
    var y, z := x.y, Heard(x);
    LossMoves(x);
    if Balanced(x) { LossBalances(x); }
    hide Queued, Reported, Heard;
    if y.core.trim.Pending? {
      var since := y.core.trim.since;
      if TrimQueued(x, since) {
        assert TrimQueued(z, since);
      } else if FailureWaits(x) {
        var k: nat :| AnswerAt(y.results, k) && y.results[k] == TrimFailed;
        assert AnswerAt(z.y.results, k - 1);
        assert FailureWaits(z);
      } else {
        var k: nat :| && AnswerAt(y.results, k) && y.results[k].Trimmed?
          && |y.writer.rows| + |Queued(y.queue)| + y.writer.lost + Reported(y.results[k + 1..]) ==
               y.results[k].count + (y.step - since) + x.gap;
        assert AnswerAt(z.y.results, k - 1) && z.y.results[k..] == y.results[k + 1..];
        assert CountWaits(z, since);
      }
    }
  }

  /** A trim's report ends it. */
  lemma AnswerKeeps(x: Ledger)
    requires Inv(x) && x.y.results != [] && !x.y.results[0].EntriesLost?
    ensures Inv(Heard(x))
  {
    var y, z := x.y, Heard(x);
    ReportedFirst(y.results);
    hide Queued, Reported;
    var since := y.core.trim.since;
    if FailureWaits(x) {
      var k: nat :| AnswerAt(y.results, k) && y.results[k] == TrimFailed;
      assert k == 0 && OnlyLosses(z.y.results);
    } else {
      var k: nat :| && AnswerAt(y.results, k) && y.results[k].Trimmed?
        && |y.writer.rows| + |Queued(y.queue)| + y.writer.lost + Reported(y.results[k + 1..]) ==
             y.results[k].count + (y.step - since) + x.gap;
      assert k == 0 && OnlyLosses(z.y.results);
    }
  }

  lemma HeardKeeps(x: Ledger)
    requires Inv(x) && x.y.results != []
    ensures Inv(Heard(x))
  {
    if x.y.results[0].EntriesLost? { LossKeeps(x); } else { AnswerKeeps(x); }
  }

  // ---------- The writer ----------

  lemma RestIsRecords(queue: seq<Command>, behind: nat)
    requires OneCommand(queue, behind)
    ensures queue[0].Record? ==> OneCommand(queue[1..], behind)
    ensures !queue[0].Record? ==> OnlyRecords(queue[1..]) && |queue[1..]| == behind
  {
  }

  /** An insert moves one entry from the queue to the rows or to the lost, and may report a gap. */
  lemma InsertMoves(x: Ledger, calls: Calls)
    requires x.y.core.Open? && x.y.writer.store.Ready? && x.y.queue != [] && x.y.queue[0].Record?
    ensures var z := Written(x, calls);
      && z == x.(y := x.y.(queue := x.y.queue[1..], writer := z.y.writer, results := z.y.results))
      && z.y.writer.store == Ready
      && (z.y.results == x.y.results || exists missing :: z.y.results == x.y.results + [EntriesLost(missing)])
      && (forall k: nat :: k <= |x.y.results| ==>
            |z.y.writer.rows| + |Queued(z.y.queue)| + z.y.writer.lost + Reported(z.y.results[k..]) ==
              |x.y.writer.rows| + |Queued(x.y.queue)| + x.y.writer.lost + Reported(x.y.results[k..]))
  {
    var y, z := x.y, Written(x, calls);
    var (writer, events) := InsertOne(y.writer, y.queue[0].entry, 0 in calls.fails);
    LostReported(y.writer.lost);
    assert Reported([]) == 0;
    assert Queued(y.queue) == [y.queue[0].entry] + Queued(y.queue[1..]);
    assert z.y.writer == writer && z.y.results == y.results + events;
    assert z.y.results == y.results || z.y.results == y.results + [EntriesLost(y.writer.lost)];
    hide Queued;
    forall k: nat | k <= |y.results|
      ensures |z.y.writer.rows| + |Queued(z.y.queue)| + z.y.writer.lost + Reported(z.y.results[k..]) ==
              |y.writer.rows| + |Queued(y.queue)| + y.writer.lost + Reported(y.results[k..])
    {
      ReportedAppend(y.results[k..], events);
      assert z.y.results[k..] == y.results[k..] + events;
      hide Reported;
    }
  }

  lemma InsertKeepsBalance(x: Ledger, calls: Calls)
    requires Inv(x) && x.y.queue != [] && x.y.queue[0].Record?
    ensures Inv(Written(x, calls))
  {
    var y, z := x.y, Written(x, calls);
    InsertMoves(x, calls);
    assert y.results[0..] == y.results && z.y.results[0..] == z.y.results;
    hide Queued, Reported, Written;
    if y.core.trim.Pending? {
      var since := y.core.trim.since;
      if TrimQueued(x, since) {
        RestIsRecords(y.queue, y.step - since);
        assert TrimQueued(z, since);
      } else if FailureWaits(x) {
        var k: nat :| AnswerAt(y.results, k) && y.results[k] == TrimFailed;
        assert AnswerAt(z.y.results, k);
        assert FailureWaits(z);
      } else {
        var k: nat :| && AnswerAt(y.results, k) && y.results[k].Trimmed?
          && |y.writer.rows| + |Queued(y.queue)| + y.writer.lost + Reported(y.results[k + 1..]) ==
               y.results[k].count + (y.step - since) + x.gap;
        assert AnswerAt(z.y.results, k);
        assert CountWaits(z, since);
      }
    }
  }

  /** A trim leaves the count to its report, or fails; what it deleted uncounted is kept apart. */
  lemma TrimKeepsBalance(x: Ledger, calls: Calls)
    requires Inv(x) && x.y.queue != [] && !x.y.queue[0].Record?
    ensures Inv(Written(x, calls))
  {
    var y, z := x.y, Written(x, calls);
    var since := y.core.trim.since;
    RestIsRecords(y.queue, y.step - since);
    QueuedCount(y.queue[1..]);
    assert Queued(y.queue) == Queued(y.queue[1..]);
    var (writer, events) := Process(y.writer, y.queue[0], calls);
    assert |events| == 1 && z.y.results == y.results + events;
    ReportedAppend(y.results, events);
    ReportedOne(events[0]);
    assert AnswerAt(z.y.results, |y.results|);
    assert z.y.results[|y.results| + 1..] == [] && Reported([]) == 0;
    hide Queued, Reported;
    if events[0].Trimmed? {
      assert CountWaits(z, since);
    } else {
      assert FailureWaits(z);
    }
  }

  // ---------- Main results ----------

  lemma MovedKeeps(x: Ledger, m: Move)
    requires Inv(x)
    ensures Inv(Moved(x, m))
  {
    hide Inv;
    match m
    case Handles(limit) => CountedKeeps(x, limit);
    case Hears(limit) =>
      if x.y.results != [] {
        HeardKeeps(x);
        CountedKeeps(Heard(x), limit);
      }
    case Writes(calls) =>
      if x.y.queue != [] {
        if x.y.queue[0].Record? { InsertKeepsBalance(x, calls); } else { TrimKeepsBalance(x, calls); }
      }
  }

  lemma {:induction false} MovesKeep(y: System, moves: seq<Move>)
    requires Inv(Ledger(y, 0, 0))
    ensures Inv(Moves(y, moves))
  {
    if moves != [] {
      hide Inv, Moved;
      MovesKeep(y, moves[..|moves| - 1]);
      MovedKeeps(Moves(y, moves[..|moves| - 1]), moves[|moves| - 1]);
    }
  }

  /** History is open in this run, and no trim is outstanding. */
  ghost predicate Open(earlier: seq<Entry>, labels: seq<Label>) {
    Run(earlier, labels).core.Open? && !Run(earlier, labels).core.trim.Pending?
  }

  lemma OpensBalanced(earlier: seq<Entry>, labels: seq<Label>)
    requires Open(earlier, labels)
    ensures Inv(Ledger(Run(earlier, labels), 0, 0))
  {
    RunKeeps(earlier, labels);
    assert Reported([]) == 0;
    hide Run, Reported;
  }

  /**
   * From every open history, whatever inserts, trims and counts then fail: with no trim outstanding
   * the count is what is stored, queued, lost and yet to be heard lost, and what was deleted
   * uncounted, less what a trim owes for a gap it did not know of.
   */
  lemma LossesAreCounted(earlier: seq<Entry>, labels: seq<Label>, moves: seq<Move>)
    requires Open(earlier, labels)
    ensures var x := Moves(Run(earlier, labels), moves);
      x.y.core.Open? && (!x.y.core.trim.Pending? ==> Balanced(x))
  {
    OpensBalanced(earlier, labels);
    MovesKeep(Run(earlier, labels), moves);
  }

  /** Every trim among the moves whose rows were counted ran with no loss unreported. */
  ghost predicate TrimsMeetNoGap(y: System, moves: seq<Move>) {
    forall i :: 0 <= i < |moves| && moves[i].Writes? ==>
      var x := Moves(y, moves[..i]).y;
      x.queue != [] && x.queue[0].TrimTo? && moves[i].calls.ok && moves[i].calls.counts ==> x.writer.lost == 0
  }

  lemma {:induction false} NothingOwed(y: System, moves: seq<Move>)
    requires TrimsMeetNoGap(y, moves)
    ensures Moves(y, moves).owed == 0 && Moves(y, moves).gap == 0
  {
    if moves != [] {
      var n := |moves| - 1;
      assert TrimsMeetNoGap(y, moves[..n]) by {
        assert forall i :: 0 <= i < n ==> moves[..n][..i] == moves[..i];
      }
      NothingOwed(y, moves[..n]);
    }
  }

  /** So with every loss reported and heard the count is exact, if no trim crossed a gap. */
  lemma CountSettles(earlier: seq<Entry>, labels: seq<Label>, moves: seq<Move>)
    requires Open(earlier, labels) && TrimsMeetNoGap(Run(earlier, labels), moves)
    ensures var y := Moves(Run(earlier, labels), moves).y;
      y.core.Open? && !y.core.trim.Pending? && y.results == [] && y.writer.lost == 0 ==>
        y.core.retained == |y.writer.rows| + |Queued(y.queue)| + y.uncounted
  {
    LossesAreCounted(earlier, labels, moves);
    NothingOwed(Run(earlier, labels), moves);
    assert Reported([]) == 0;
  }

  /** A trim's report gives the right count exactly when no loss was unreported as its rows were counted. */
  lemma TrimCountsRightIff(earlier: seq<Entry>, labels: seq<Label>, moves: seq<Move>)
    requires Open(earlier, labels)
    requires var y := Moves(Run(earlier, labels), moves).y; y.results != [] && y.results[0].Trimmed?
    ensures var x := Moves(Run(earlier, labels), moves); var y := Heard(x).y;
      && y.core.Open?
      && (y.core.retained == |y.writer.rows| + |Queued(y.queue)| + y.writer.lost + Reported(y.results) <==> x.gap == 0)
  {
    OpensBalanced(earlier, labels);
    MovesKeep(Run(earlier, labels), moves);
    var x := Moves(Run(earlier, labels), moves);
    hide Run, Moves;
    HeardKeeps(x);
    hide Queued, Reported;
  }

  // ---------- A trim that crossed a gap ----------

  const OPENING: seq<Label> := [Label.Other(true, None), Label.Write(true), Label.Write(true), Label.Deliver(None)]

  const WORKS: Calls := Calls(true, true, {})
  const FAILS: Calls := Calls(true, true, {0})

  /** Two inserts fail around the request for a trim; the trim is counted; the next insert reports the gap. */
  const CROSSED: seq<Move> :=
    [Writes(FAILS), Handles(Some(0)), Writes(FAILS), Writes(WORKS), Hears(None), Writes(WORKS), Hears(None)]

  function Standing(
      step: nat, core: Core, queue: seq<Command>, rows: seq<Entry>, lost: nat, results: seq<Event>): System {
    System(step, core, queue, Writer(Store.Ready, rows, [], lost), results, 1, [], 0)
  }

  lemma OpeningOpens()
    ensures Run([], OPENING) == Standing(2, Core.Open(2, Idle), [Record(Handled(2))], [Handled(1)], 0, [])
  {
    MiscountOpens();
    var y := Step(Step(Step(Start([]), Other(true, None)), Write(true)), Write(true));
    assert Run([], OPENING) == Step(y, Deliver(None)) by {
      hide Step;
      assert OPENING[..3][..2] == OPENING[..2] && OPENING[..2][..1] == OPENING[..1] && OPENING[..1][..0] == [];
      assert Run([], OPENING[..1]) == Step(Start([]), Other(true, None));
      assert Run([], OPENING[..2]) == Step(Run([], OPENING[..1]), Write(true));
      assert Run([], OPENING[..3]) == Step(Run([], OPENING[..2]), Write(true));
    }
    hide Run;
  }

  lemma FailedInsert(x: Ledger)
    requires x.y.queue != [] && x.y.queue[0].Record? && x.y.writer.store.Ready?
    ensures Moved(x, Writes(FAILS)) ==
      x.(y := x.y.(queue := x.y.queue[1..], writer := x.y.writer.(lost := x.y.writer.lost + 1)))
  {
    assert x.y.results + [] == x.y.results;
  }

  lemma CrossesGap(x: Ledger)
    requires x == Ledger(Standing(2, Core.Open(2, Idle), [Record(Handled(2))], [Handled(1)], 0, []), 0, 0)
    ensures Moved(Moved(Moved(Moved(x, CROSSED[0]), CROSSED[1]), CROSSED[2]), CROSSED[3]) ==
      Ledger(Standing(3, Core.Open(3, Pending(3)), [], [], 2, [Trimmed(0)]), 2, 0)
  {
    var a := Moved(x, CROSSED[0]);
    FailedInsert(x);
    assert a == Ledger(Standing(2, Core.Open(2, Idle), [], [Handled(1)], 1, []), 0, 0);
    var b := Moved(a, CROSSED[1]);
    assert b == Ledger(
      Standing(3, Core.Open(3, Pending(3)), [Record(Handled(3)), TrimTo(0)], [Handled(1)], 1, []), 0, 0);
    var c := Moved(b, CROSSED[2]);
    FailedInsert(b);
    assert c == Ledger(Standing(3, Core.Open(3, Pending(3)), [TrimTo(0)], [Handled(1)], 2, []), 0, 0);
    assert Newest([Handled(1)], 0) == [] && [TrimTo(0)][1..] == [];
  }

  lemma CountedPlainly(x: Ledger)
    requires x.y.core.Open?
    ensures var y := x.y;
      Counted(x, None) == x.(y := y.(step := y.step + 1, core := y.core.(retained := y.core.retained + 1),
                                     queue := y.queue + [Record(Handled(y.step + 1))]))
  {
    assert x.y.queue + [Record(Handled(x.y.step + 1))] + [] == x.y.queue + [Record(Handled(x.y.step + 1))];
  }

  lemma HeardTrim(x: Ledger)
    requires x.y.core.Open? && x.y.core.trim.Pending? && x.y.core.trim.since <= x.y.step
    requires |x.y.results| == 1 && x.y.results[0].Trimmed?
    ensures var y := x.y; var retained := y.results[0].count + (y.step - y.core.trim.since);
      Heard(x) == Ledger(y.(results := [], core := Core.Open(retained, Idle)), x.gap, x.gap)
  {
    assert x.y.results[1..] == [];
  }

  lemma HearsTrim()
    ensures Moved(Ledger(Standing(3, Core.Open(3, Pending(3)), [], [], 2, [Trimmed(0)]), 2, 0), Hears(None)) ==
      Ledger(Standing(4, Core.Open(1, Idle), [Record(Handled(4))], [], 2, []), 2, 2)
  {
    var x := Ledger(Standing(3, Core.Open(3, Pending(3)), [], [], 2, [Trimmed(0)]), 2, 0);
    HeardTrim(x);
    CountedPlainly(Heard(x));
    hide Heard, Counted, RunnerStep, Handle, AfterStep;
    assert [] + [Record(Handled(4))] == [Record(Handled(4))];
  }

  lemma ReportsGap()
    ensures Moved(Ledger(Standing(4, Core.Open(1, Idle), [Record(Handled(4))], [], 2, []), 2, 2), Writes(WORKS)) ==
      Ledger(Standing(4, Core.Open(1, Idle), [], [Handled(4)], 0, [EntriesLost(2)]), 2, 2)
  {
    assert [Record(Handled(4))][1..] == [];
    var w := Writer(Store.Ready, [], [], 2);
    assert w.rows + [Handled(4)] == [Handled(4)] && Lost(2) == [EntriesLost(2)] && 0 !in WORKS.fails;
    assert Process(w, Record(Handled(4)), WORKS) == (Writer(Store.Ready, [Handled(4)], [], 0), [EntriesLost(2)]);
  }

  lemma HearsGap()
    ensures Moved(Ledger(Standing(4, Core.Open(1, Idle), [], [Handled(4)], 0, [EntriesLost(2)]), 2, 2), Hears(None)) ==
      Ledger(Standing(5, Core.Open(1, Idle), [Record(Handled(5))], [Handled(4)], 0, []), 2, 1)
  {
    var x := Ledger(Standing(4, Core.Open(1, Idle), [], [Handled(4)], 0, [EntriesLost(2)]), 2, 2);
    assert [EntriesLost(2)][1..] == [];
    assert Heard(x) == Ledger(Standing(4, Core.Open(0, Idle), [], [Handled(4)], 0, []), 2, 1);
    CountedPlainly(Heard(x));
    hide Heard, Counted;
    assert [] + [Record(Handled(5))] == [Record(Handled(5))];
  }

  /** A run in which a trim crosses a gap: the core counts one entry where one is stored and one queued. */
  lemma CrossedGapMiscounts()
    ensures Open([], OPENING)
    ensures var y := Moves(Run([], OPENING), CROSSED).y;
      && y.core == Core.Open(1, Idle) && y.results == [] && y.writer.lost == 0
      && y.writer.rows == [Handled(4)] && y.queue == [Record(Handled(5))]
  {
    OpeningOpens();
    var y := Run([], OPENING);
    hide Run, Moved;
    assert Moves(y, CROSSED[..0]) == Ledger(y, 0, 0);
    forall n | 0 <= n < 7 ensures Moves(y, CROSSED[..n + 1]) == Moved(Moves(y, CROSSED[..n]), CROSSED[n]) {
      assert CROSSED[..n + 1][..n] == CROSSED[..n];
    }
    hide Moves;
    var x := Ledger(y, 0, 0);
    assert Moves(y, CROSSED[..1]) == Moved(x, CROSSED[0]);
    assert Moves(y, CROSSED[..2]) == Moved(Moves(y, CROSSED[..1]), CROSSED[1]);
    assert Moves(y, CROSSED[..3]) == Moved(Moves(y, CROSSED[..2]), CROSSED[2]);
    assert Moves(y, CROSSED[..4]) == Moved(Moves(y, CROSSED[..3]), CROSSED[3]);
    CrossesGap(x);
    assert Moves(y, CROSSED[..5]) == Moved(Moves(y, CROSSED[..4]), CROSSED[4]);
    assert Moves(y, CROSSED[..6]) == Moved(Moves(y, CROSSED[..5]), CROSSED[5]);
    assert Moves(y, CROSSED[..7]) == Moved(Moves(y, CROSSED[..6]), CROSSED[6]);
    HearsTrim();
    ReportsGap();
    HearsGap();
    assert CROSSED[..7] == CROSSED;
  }
}
