/**
 * History accounting: the core counts stored entries by step numbers, without seeing the store,
 * while a separate writer buffers, inserts, trims and reports its counts late.
 */
module History {
  import opened Basics

  /** Entries held in memory until the core opens history storage. */
  const BUFFER_LIMIT: nat := 1000

  datatype Event =
    | Opened(count: nat)
    | OpenFailed
    | Trimmed(count: nat)
    | TrimFailed
    | EntriesLost(missing: nat)

  datatype Trim = Idle | Pending(since: nat) | Failed

  datatype Core = Closed | Opening(requested: nat) | Open(retained: nat, trim: Trim) | Unavailable

  /** The number of steps handled after `earlier` and before `step`. */
  function StrictlyAfter(step: nat, earlier: nat): nat {
    if step > earlier then step - earlier - 1 else 0
  }

  function Minus(a: nat, b: nat): nat { if a > b then a - b else 0 }

  function Handle(core: Core, step: nat, event: Event): Core {
    match (core, event)
    case (Opening(requested), Opened(count)) => Open(count + StrictlyAfter(step, requested), Idle)
    case (Open(_, Pending(requested)), Trimmed(count)) => Open(count + StrictlyAfter(step, requested), Idle)
    case (Opening(_), OpenFailed) => Unavailable
    case (Open(retained, Pending(_)), TrimFailed) => Open(retained, Failed)
    case (Open(retained, trim), EntriesLost(missing)) => Open(Minus(retained, missing), trim)
    case _ => core
  }

  function TrimTarget(limit: nat): nat { limit * 9 / 10 }

  /** Count this step's entry and trim if the limit is exceeded. */
  function AfterStep(core: Core, step: nat, limit: Option<nat>): (Core, Option<nat>) {
    if !core.Open? then (core, None)
    else
      var counted := core.retained + 1;
      if limit.Some? && core.trim.Idle? && counted > limit.value
      then (Open(counted, Pending(step)), Some(TrimTarget(limit.value)))
      else (Open(counted, core.trim), None)
  }

  /** The core's knowledge of stored history, updated in place. */
  class HistoryCount {
    var state: Core

    constructor ()
      ensures state == Closed
    {
      state := Closed;
    }

    method RequestOpen(step: nat)
      modifies this
      ensures state == Opening(step)
    {
      state := Opening(step);
    }

    method HandleEvent(step: nat, event: Event)
      modifies this
      ensures state == Handle(old(state), step, event)
    {
      match (state, event)
      case (Opening(requested), Opened(count)) => state := Open(count + StrictlyAfter(step, requested), Idle);
      case (Open(_, Pending(requested)), Trimmed(count)) => state := Open(count + StrictlyAfter(step, requested), Idle);
      case (Opening(_), OpenFailed) => state := Unavailable;
      case (Open(retained, Pending(_)), TrimFailed) => state := Open(retained, Failed);
      case (Open(retained, trim), EntriesLost(missing)) => state := Open(Minus(retained, missing), trim);
      case _ =>
    }

    method CountStep(step: nat, limit: Option<nat>) returns (keep: Option<nat>)
      modifies this
      ensures (state, keep) == AfterStep(old(state), step, limit)
    {
      keep := None;
      if state.Open? {
        state := state.(retained := state.retained + 1);
        if limit.Some? && state.trim.Idle? && state.retained > limit.value {
          state := state.(trim := Pending(step));
          keep := Some(TrimTarget(limit.value));
        }
      }
    }
  }

  // ---------- The writer ----------

  /** A history row: of an earlier process, or the entry of a step of this one. */
  datatype Entry = Earlier(k: nat) | Handled(step: nat)

  datatype Command = Record(entry: Entry) | OpenStore | TrimTo(keep: nat)

  datatype Store = Buffering | Ready | Broken

  datatype Writer = Writer(store: Store, rows: seq<Entry>, buffer: seq<Entry>, lost: nat)

  /** The newest `keep` rows. */
  function Newest(rows: seq<Entry>, keep: nat): seq<Entry> {
    if |rows| > keep then rows[|rows| - keep..] else rows
  }

  function Lost(missing: nat): seq<Event> {
    if missing > 0 then [EntriesLost(missing)] else []
  }

  /**
   * How a command's storage calls go: whether its first call works, whether counting the rows after
   * it does, and which of its inserts fail, by position.
   */
  datatype Calls = Calls(ok: bool, counts: bool, fails: set<nat>)

  /** Insert a row and report a gap that preceded it; a failed insert is one more entry lost. */
  function InsertOne(w: Writer, entry: Entry, failed: bool): (Writer, seq<Event>) {
    if failed then (w.(lost := w.lost + 1), []) else (w.(rows := w.rows + [entry], lost := 0), Lost(w.lost))
  }

  function InsertAll(w: Writer, entries: seq<Entry>, fails: set<nat>): (Writer, seq<Event>) {
    if entries == [] then (w, [])
    else
      var n := |entries| - 1;
      var before := InsertAll(w, entries[..n], fails);
      var after := InsertOne(before.0, entries[n], n in fails);
      (after.0, before.1 + after.1)
  }

  function Process(w: Writer, command: Command, calls: Calls): (Writer, seq<Event>) {
    match command
    case Record(entry) =>
      if w.store.Ready? then InsertOne(w, entry, 0 in calls.fails)
      else if w.store.Buffering? && |w.buffer| < BUFFER_LIMIT then (w.(buffer := w.buffer + [entry]), [])
      else (w.(lost := w.lost + 1), [])
    case OpenStore =>
      if !calls.ok then (w.(store := Broken), [OpenFailed])
      else
        var (t, events) := InsertAll(w, w.buffer, calls.fails);
        if calls.counts then (t.(store := Ready, buffer := []), events + [Opened(|t.rows|)])
        else (t.(store := Broken, buffer := []), events + [OpenFailed])
    case TrimTo(keep) =>
      if calls.ok && w.store.Ready? then
        var kept := Newest(w.rows, keep);
        (w.(rows := kept), [if calls.counts then Trimmed(|kept|) else TrimFailed])
      else (w, [TrimFailed])
  }

  datatype Given = Given(command: Command, calls: Calls)

  /** The writer's loop over its commands, each with the outcome of its storage calls. */
  function ProcessAll(w: Writer, commands: seq<Given>): (Writer, seq<Event>) {
    if commands == [] then (w, [])
    else
      var before := ProcessAll(w, commands[..|commands| - 1]);
      var last := commands[|commands| - 1];
      var after := Process(before.0, last.command, last.calls);
      (after.0, before.1 + after.1)
  }

  /** Without failures the buffer is stored whole, and a gap before it reported once. */
  lemma {:induction false} InsertAllSucceeds(w: Writer, entries: seq<Entry>)
    ensures InsertAll(w, entries, {}) ==
      (w.(rows := w.rows + entries, lost := if entries == [] then w.lost else 0),
        if entries == [] then [] else Lost(w.lost))
  {
    if entries == [] {
      assert w.rows + entries == w.rows;
    } else {
      var init, last := entries[..|entries| - 1], entries[|entries| - 1];
      InsertAllSucceeds(w, init);
      var (t, events) := InsertAll(w, init, {});
      assert InsertAll(w, entries, {}) == (t.(rows := t.rows + [last], lost := 0), events + Lost(t.lost));
      hide InsertAll;
      assert w.rows + entries == w.rows + init + [last];
      if init == [] {
        assert [] + Lost(w.lost) == Lost(w.lost);
      } else {
        assert Lost(w.lost) + [] == Lost(w.lost);
      }
    }
  }

  /** How many entries these events report lost. */
  function Reported(events: seq<Event>): nat {
    if events == [] then 0
    else
      var last := events[|events| - 1];
      Reported(events[..|events| - 1]) + if last.EntriesLost? then last.missing else 0
  }

  /** How many records the commands hand over, and how many of those the writer stored. */
  function HandedOver(commands: seq<Given>): nat {
    if commands == [] then 0
    else HandedOver(commands[..|commands| - 1]) + if commands[|commands| - 1].command.Record? then 1 else 0
  }

  function StoredBy(w: Writer, commands: seq<Given>): int {
    if commands == [] then 0
    else
      var before := ProcessAll(w, commands[..|commands| - 1]).0;
      var last := commands[|commands| - 1];
      StoredBy(w, commands[..|commands| - 1])
        + if last.command.TrimTo? then 0 else |Process(before, last.command, last.calls).0.rows| - |before.rows|
  }

  lemma {:induction false} ReportedAppend(a: seq<Event>, b: seq<Event>)
    ensures Reported(a + b) == Reported(a) + Reported(b)
  {
    if b == [] {
      assert a + b == a;
    } else {
      ReportedAppend(a, b[..|b| - 1]);
      assert (a + b)[..|a + b| - 1] == a + b[..|b| - 1];
    }
  }

  lemma ReportedOne(e: Event)
    ensures Reported([e]) == if e.EntriesLost? then e.missing else 0
  {
    assert [e][..0] == [];
  }

  lemma LostReported(missing: nat)
    ensures Reported(Lost(missing)) == missing
  {
    ReportedOne(EntriesLost(missing));
  }

  lemma {:induction false} InsertAllAccounts(w: Writer, entries: seq<Entry>, fails: set<nat>)
    ensures var (t, events) := InsertAll(w, entries, fails);
      && t.store == w.store && t.buffer == w.buffer
      && |t.rows| + t.lost + Reported(events) == |w.rows| + w.lost + |entries|
  {
    if entries != [] {
      var n := |entries| - 1;
      InsertAllAccounts(w, entries[..n], fails);
      var before := InsertAll(w, entries[..n], fails);
      LostReported(before.0.lost);
      ReportedAppend(before.1, InsertOne(before.0, entries[n], n in fails).1);
    }
  }

  /** One command: what is stored, buffered, lost and reported grows by what is handed over. */
  lemma ProcessAccounts(w: Writer, command: Command, calls: Calls)
    ensures var (t, events) := Process(w, command, calls);
      |t.buffer| + t.lost + Reported(events) + (if command.TrimTo? then 0 else |t.rows| - |w.rows|) ==
        |w.buffer| + w.lost + if command.Record? then 1 else 0
  {
    match command
    case Record(_) => LostReported(w.lost);
    case OpenStore =>
      InsertAllAccounts(w, w.buffer, calls.fails);
      var (t, events) := InsertAll(w, w.buffer, calls.fails);
      ReportedOne(OpenFailed);
      ReportedOne(Opened(|t.rows|));
      ReportedAppend(events, [OpenFailed]);
      ReportedAppend(events, [Opened(|t.rows|)]);
      hide InsertAll, Reported;
    case TrimTo(keep) =>
      ReportedOne(TrimFailed);
      ReportedOne(Trimmed(|Newest(w.rows, keep)|));
  }

  /**
   * No record vanishes silently: over any commands, whatever storage calls fail, every record
   * handed to a new writer was stored, is buffered, is counted lost, or was reported lost.
   */
  lemma {:induction false} EveryRecordAccountedFor(stored: seq<Entry>, commands: seq<Given>)
    ensures var w := Writer(Buffering, stored, [], 0); var (t, events) := ProcessAll(w, commands);
      StoredBy(w, commands) + |t.buffer| + t.lost + Reported(events) == HandedOver(commands)
  {
    if commands != [] {
      var w, init, last := Writer(Buffering, stored, [], 0), commands[..|commands| - 1], commands[|commands| - 1];
      EveryRecordAccountedFor(stored, init);
      var before := ProcessAll(w, init);
      ProcessAccounts(before.0, last.command, last.calls);
      ReportedAppend(before.1, Process(before.0, last.command, last.calls).1);
      hide Process, Reported;
    }
  }

  class HistoryWriter {
    var store: Store
    var rows: seq<Entry>
    var buffer: seq<Entry>
    var lost: nat

    ghost function View(): Writer
      reads this
    {
      Writer(store, rows, buffer, lost)
    }

    constructor (stored: seq<Entry>)
      ensures View() == Writer(Buffering, stored, [], 0)
    {
      store, rows, buffer, lost := Buffering, stored, [], 0;
    }

    /** Insert a row, and report a gap that preceded it; a failed insert widens the gap. */
    method Insert(entry: Entry, failed: bool) returns (events: seq<Event>)
      modifies this
      ensures (View(), events) == InsertOne(old(View()), entry, failed)
    {
      if failed {
        lost := lost + 1;
        return [];
      }
      rows := rows + [entry];
      events := Lost(lost);
      lost := 0;
    }

    method RunCommands(commands: seq<Given>) returns (events: seq<Event>)
      modifies this
      ensures (View(), events) == ProcessAll(old(View()), commands)
    {
      events := [];
      var i := 0;
      while i < |commands|
        invariant i <= |commands|
        invariant (View(), events) == ProcessAll(old(View()), commands[..i])
      {
        var reported := RunOne(commands[i].command, commands[i].calls);
        events := events + reported;
        assert commands[..i + 1][..i] == commands[..i];
        i := i + 1;
      }
      assert commands[..i] == commands;
    }

    method RunOne(command: Command, calls: Calls) returns (events: seq<Event>)
      modifies this
      ensures (View(), events) == Process(old(View()), command, calls)
    {
      events := [];
      match command
      case Record(entry) =>
        if store.Ready? {
          events := Insert(entry, 0 in calls.fails);
        } else if store.Buffering? && |buffer| < BUFFER_LIMIT {
          buffer := buffer + [entry];
        } else {
          lost := lost + 1;
        }
      case OpenStore =>
        if !calls.ok {
          store := Broken;
          return [OpenFailed];
        }
        var i := 0;
        while i < |buffer|
          invariant i <= |buffer| && buffer == old(buffer)
          invariant (View(), events) == InsertAll(old(View()), buffer[..i], calls.fails)
        {
          assert buffer[..i + 1][..i] == buffer[..i];
          var reported := Insert(buffer[i], i in calls.fails);
          events := events + reported;
          i := i + 1;
        }
        assert buffer[..i] == buffer;
        buffer := [];
        store := if calls.counts then Ready else Broken;
        events := events + [if calls.counts then Opened(|rows|) else OpenFailed];
      case TrimTo(keep) =>
        if calls.ok && store.Ready? {
          rows := Newest(rows, keep);
          return [if calls.counts then Trimmed(|rows|) else TrimFailed];
        }
        return [TrimFailed];
    }
  }

  // ---------- The runner, the writer and their queues ----------

  /**
   * `openStep` is the step that requested opening. The runner hands the writer its commands through
   * `queue`; `results` are the writer's reports that the runner has not handled. `uncounted` is how
   * many rows a trim deleted whose count then failed, so that it was reported as failed.
   */
  datatype System = System(
    step: nat, core: Core, queue: seq<Command>, writer: Writer, results: seq<Event>, openStep: nat, earlier: seq<Entry>,
    uncounted: nat)

  datatype Label =
    | Other(opens: bool, limit: Option<nat>)
    | Deliver(limit: Option<nat>)
    | Write(ok: bool)  // inserts succeed, while opening and trimming may fail and then change nothing stored
    | WriteUncounted   // the command works, but counting the rows after it fails

  /** The history action of a step: a step that opens has nothing to trim. */
  function Dispatched(opening: bool, keep: Option<nat>): seq<Command> {
    if opening then [OpenStore] else if keep.Some? then [TrimTo(keep.value)] else []
  }

  /** Handle one event, record it, then dispatch its actions. */
  function RunnerStep(y: System, event: Option<Event>, opens: bool, limit: Option<nat>): System {
    var step := y.step + 1;
    var handled := if event.Some? then Handle(y.core, step, event.value) else y.core;
    var opening := opens && handled.Closed?;
    var (core, keep) := AfterStep(if opening then Opening(step) else handled, step, limit);
    y.(step := step, core := core,
       queue := y.queue + [Record(Handled(step))] + Dispatched(opening, keep),
       openStep := if opening then step else y.openStep)
  }

  function Step(y: System, l: Label): System {
    match l
    case Other(opens, limit) => RunnerStep(y, None, opens, limit)
    case Deliver(limit) =>
      if y.results == [] then y else RunnerStep(y.(results := y.results[1..]), Some(y.results[0]), false, limit)
    case Write(ok) =>
      if y.queue == [] then y
      else
        var (writer, events) := Process(y.writer, y.queue[0], Calls(ok, true, {}));
        y.(queue := y.queue[1..], writer := writer, results := y.results + events)
    case WriteUncounted =>
      if y.queue == [] then y
      else
        var (writer, events) := Process(y.writer, y.queue[0], Calls(true, false, {}));
        y.(queue := y.queue[1..], writer := writer, results := y.results + events,
           uncounted := y.uncounted + if y.queue[0].TrimTo? then Minus(|y.writer.rows|, |writer.rows|) else 0)
  }

  function Start(earlier: seq<Entry>): System {
    System(0, Closed, [], Writer(Buffering, earlier, [], 0), [], 0, earlier, 0)
  }

  function Run(earlier: seq<Entry>, labels: seq<Label>): System {
    if labels == [] then Start(earlier) else Step(Run(earlier, labels[..|labels| - 1]), labels[|labels| - 1])
  }

  // ---------- What is stored and what is on its way ----------

  /** The entries of the steps after `from` up to `last`. */
  function Steps(from: nat, last: nat): (s: seq<Entry>)
    ensures |s| == Minus(last, from)
    decreases last
  {
    if last <= from then [] else Steps(from, last - 1) + [Handled(last)]
  }

  /** The entries of the queued records, in order. */
  function Queued(queue: seq<Command>): seq<Entry> {
    if queue == [] then []
    else if queue[0].Record? then [queue[0].entry] + Queued(queue[1..])
    else Queued(queue[1..])
  }

  function Least(a: nat, b: nat): nat { if a < b then a else b }

  /** Everything recorded: earlier rows, the steps that fitted the buffer, and every step after opening. */
  function All(y: System): seq<Entry> {
    y.earlier + Steps(0, Least(y.openStep, BUFFER_LIMIT)) + Steps(y.openStep, y.step)
  }

  /** What is stored, followed by what is queued for the writer. */
  function Stored(y: System): seq<Entry> {
    y.writer.rows + Queued(y.queue)
  }

  ghost predicate IsSuffix(a: seq<Entry>, b: seq<Entry>) {
    |a| <= |b| && b[|b| - |a|..] == a
  }

  ghost predicate OnlyRecords(queue: seq<Command>) {
    forall i :: 0 <= i < |queue| ==> queue[i].Record?
  }

  /** The one other command in the queue, with this many records behind it. */
  ghost predicate OneCommand(queue: seq<Command>, behind: nat) {
    && behind < |queue| && !queue[|queue| - 1 - behind].Record?
    && (forall i :: 0 <= i < |queue| && i != |queue| - 1 - behind ==> queue[i].Record?)
  }

  lemma {:induction false} QueuedAppend(a: seq<Command>, b: seq<Command>)
    ensures Queued(a + b) == Queued(a) + Queued(b)
  {
    if a == [] {
      assert a + b == b;
    } else {
      QueuedAppend(a[1..], b);
      assert (a + b)[1..] == a[1..] + b;
    }
  }

  lemma {:induction false} QueuedCount(queue: seq<Command>)
    requires OnlyRecords(queue)
    ensures |Queued(queue)| == |queue|
  {
    if queue != [] { QueuedCount(queue[1..]); }
  }

  // ---------- The invariant ----------

  /** Before the writer opens: the buffer holds the first steps, and the queue the rest. */
  ghost predicate BufferingInv(y: System) {
    var w := y.writer;
    && w.store.Buffering? && w.rows == y.earlier && y.results == []
    && w.buffer == Steps(0, |w.buffer|) && |w.buffer| <= BUFFER_LIMIT && (w.lost > 0 ==> |w.buffer| == BUFFER_LIMIT)
    && |w.buffer| + w.lost <= y.step
    && Queued(y.queue) == Steps(|w.buffer| + w.lost, y.step)
  }

  /** Once it is open: what is stored and queued is the newest part of everything recorded. */
  ghost predicate OpenInv(y: System) {
    y.writer.store.Ready? && y.writer.lost == 0 && y.openStep <= y.step && IsSuffix(Stored(y), All(y))
  }

  /** Opening was asked for, and waits in the queue among the records. */
  ghost predicate OpenQueued(y: System)
    requires y.openStep <= y.step
  {
    var behind := y.step - y.openStep;
    BufferingInv(y) && OneCommand(y.queue, behind) && y.queue[|y.queue| - 1 - behind] == OpenStore
  }

  /** The writer opened, and its report is on its way, perhaps after that of a gap. */
  ghost predicate JustOpened(y: System)
    requires y.openStep <= y.step
  {
    var behind := y.step - y.openStep;
    && OpenInv(y) && OnlyRecords(y.queue) && |Stored(y)| >= behind
    && (|| y.results == [Opened(|Stored(y)| - behind)]
        || (|y.results| == 2 && y.results[0].EntriesLost? && y.results[1] == Opened(|Stored(y)| - behind)))
  }

  ghost predicate OpenBroke(y: System) {
    && y.writer.store.Broken? && OnlyRecords(y.queue)
    && (y.results == [OpenFailed] || (|y.results| == 2 && y.results[0].EntriesLost? && y.results[1] == OpenFailed))
  }

  ghost predicate Inv(y: System) {
    match y.core
    case Closed => BufferingInv(y) && OnlyRecords(y.queue) && y.uncounted == 0
    case Opening(s) =>
      s == y.openStep && 1 <= s <= y.step && y.uncounted == 0 && (OpenQueued(y) || JustOpened(y) || OpenBroke(y))
    case Open(retained, trim) =>
      && OpenInv(y) && (!trim.Failed? && y.results != [TrimFailed] ==> y.uncounted == 0)
      && (match trim
          case Pending(t) =>
            && t <= y.step
            && (|| (OneCommand(y.queue, y.step - t) && y.queue[|y.queue| - 1 - (y.step - t)].TrimTo?
                    && y.results == [] && retained == |Stored(y)|)
                || (OnlyRecords(y.queue) && y.results == [TrimFailed] && retained == |Stored(y)| + y.uncounted)
                || (OnlyRecords(y.queue) && |Stored(y)| >= y.step - t
                    && y.results == [Trimmed(|Stored(y)| - (y.step - t))]))
          case _ => OnlyRecords(y.queue) && y.results == [] && retained == |Stored(y)| + y.uncounted)
    case Unavailable => true
  }

  // ---------- The writer's steps ----------

  lemma {:induction false} StepsSplit(from: nat, mid: nat, last: nat)
    requires from <= mid <= last
    ensures Steps(from, last) == Steps(from, mid) + Steps(mid, last)
  {
    if mid < last { StepsSplit(from, mid, last - 1); }
  }

  lemma FirstStep(from: nat, last: nat)
    requires from < last
    ensures Steps(from, last) == [Handled(from + 1)] + Steps(from + 1, last)
  {
    StepsSplit(from, from + 1, last);
    assert Steps(from, from + 1) == [Handled(from + 1)];
  }

  lemma PopOne(queue: seq<Command>, behind: nat)
    requires OneCommand(queue, behind)
    ensures if queue[0].Record?
      then OneCommand(queue[1..], behind) && queue[1..][|queue| - 2 - behind] == queue[|queue| - 1 - behind]
            else OnlyRecords(queue[1..]) && |queue| == behind + 1
  {
  }

  /** A record taken into the buffer, or lost for want of room. */
  lemma BufferKeeps(y: System, ok: bool)
    requires BufferingInv(y) && y.queue != [] && y.queue[0].Record?
    ensures BufferingInv(Step(y, Write(ok)))
  {
    var w := y.writer;
    var p := |w.buffer| + w.lost;
    assert Queued(y.queue) == [y.queue[0].entry] + Queued(y.queue[1..]);
    assert p < y.step;
    FirstStep(p, y.step);
    assert y.queue[0].entry == Queued(y.queue)[0] == Handled(p + 1);
    assert Queued(y.queue[1..]) == Queued(y.queue)[1..] == Steps(p + 1, y.step);
  }

  /** An inserted record moves from the queue to the rows. */
  lemma InsertKeeps(y: System, ok: bool)
    requires OpenInv(y) && y.queue != [] && y.queue[0].Record?
    ensures var z := Step(y, Write(ok)); OpenInv(z) && Stored(z) == Stored(y) && z.results == y.results
  {
    var z := Step(y, Write(ok));
    assert Queued(y.queue) == [y.queue[0].entry] + Queued(y.queue[1..]);
    assert Stored(z) == y.writer.rows + ([y.queue[0].entry] + Queued(y.queue[1..]));
    assert z.results == y.results;
  }

  /** Opening stores the buffer, counts it, and leaves the steps since then queued. */
  lemma OpenKeeps(y: System)
    requires BufferingInv(y) && y.queue != [] && y.queue[0] == OpenStore && OnlyRecords(y.queue[1..])
    requires 1 <= y.openStep <= y.step && |y.queue| == y.step - y.openStep + 1
    ensures var z := Step(y, Write(true));
      && OpenInv(z) && OnlyRecords(z.queue) && |Stored(z)| >= z.step - z.openStep && Stored(z) == All(z)
      && (|| z.results == [Opened(|Stored(z)| - (z.step - z.openStep))]
          || (|z.results| == 2 && z.results[0].EntriesLost?
              && z.results[1] == Opened(|Stored(z)| - (z.step - z.openStep))))
  {
    var z := Step(y, Write(true));
    var w := y.writer;
    InsertAllSucceeds(w, w.buffer);
    hide InsertAll;
    QueuedCount(y.queue[1..]);
    assert Queued(y.queue) == Queued(y.queue[1..]);
    assert |w.buffer| + w.lost == y.openStep;
    assert w.buffer != [];
    assert Least(y.openStep, BUFFER_LIMIT) == |w.buffer|;
    assert z.writer == Writer(Ready, w.rows + w.buffer, [], 0) && z.queue == y.queue[1..];
    assert z.results == Lost(w.lost) + [Opened(|w.rows + w.buffer|)];
    assert z.step == y.step && z.openStep == y.openStep && z.earlier == y.earlier;
    hide Queued, Step, Process, OnlyRecords;
    assert Stored(z) == All(z);
  }

  lemma TrimKeeps(y: System, ok: bool, behind: nat)
    requires OpenInv(y) && y.queue != [] && y.queue[0].TrimTo? && OnlyRecords(y.queue[1..]) && |y.queue| == behind + 1
    requires y.results == []
    ensures var z := Step(y, Write(ok));
      && OpenInv(z) && OnlyRecords(z.queue)
      && (if ok then |Stored(z)| >= behind && z.results == [Trimmed(|Stored(z)| - behind)]
          else z.results == [TrimFailed] && Stored(z) == Stored(y))
  {
    var z := Step(y, Write(ok));
    QueuedCount(y.queue[1..]);
    assert Queued(y.queue) == Queued(y.queue[1..]);
    assert z.queue == y.queue[1..] && z.openStep == y.openStep && z.step == y.step && z.earlier == y.earlier;
    hide Queued, OnlyRecords, Steps;
    assert All(z) == All(y);
    if ok {
      assert z.writer.rows == Newest(y.writer.rows, y.queue[0].keep) && z.results == [Trimmed(|z.writer.rows|)];
      TrimmedSuffix(y.writer.rows, y.queue[0].keep, Queued(y.queue));
      SuffixTrans(Stored(z), Stored(y), All(y));
    } else {
      assert z.writer == y.writer && z.results == [TrimFailed];
    }
    hide All, IsSuffix;
  }

  lemma TrimmedSuffix(rows: seq<Entry>, keep: nat, queued: seq<Entry>)
    ensures IsSuffix(Newest(rows, keep) + queued, rows + queued)
  {
  }

  lemma SuffixTrans(a: seq<Entry>, b: seq<Entry>, c: seq<Entry>)
    requires IsSuffix(a, b) && IsSuffix(b, c)
    ensures IsSuffix(a, c)
  {
  }

  lemma WriteWhileQueued(y: System, ok: bool)
    requires 1 <= y.openStep <= y.step && OpenQueued(y) && y.queue != []
    ensures var z := Step(y, Write(ok));
      z.openStep == y.openStep && z.step == y.step && (OpenQueued(z) || JustOpened(z) || OpenBroke(z))
  {
    PopOne(y.queue, y.step - y.openStep);
    hide OneCommand, Steps;
    var z := Step(y, Write(ok));
    assert z.queue == y.queue[1..] && z.openStep == y.openStep && z.step == y.step;
    if y.queue[0].Record? {
      BufferKeeps(y, ok);
      hide BufferingInv, OpenInv, OnlyRecords, Step;
    } else if ok {
      OpenKeeps(y);
      hide BufferingInv, OpenInv, OnlyRecords, Step;
    } else {
      assert y.results == [] && z.results == [OpenFailed] && z.writer.store.Broken?;
      hide BufferingInv, OpenInv, OnlyRecords, Step;
    }
  }

  lemma WriteWhileOpening(y: System, ok: bool)
    requires Inv(y) && y.core.Opening? && y.queue != []
    ensures Inv(Step(y, Write(ok)))
  {
    var z := Step(y, Write(ok));
    assert z.core == y.core && z.openStep == y.openStep && z.step == y.step;
    if OpenQueued(y) {
      WriteWhileQueued(y, ok);
      hide OpenQueued, JustOpened, OpenBroke, Step;
    } else if JustOpened(y) {
      InsertKeeps(y, ok);
      assert OnlyRecords(z.queue);
      hide OpenInv, Stored, OnlyRecords, Step;
      assert JustOpened(z);
    } else {
      assert OnlyRecords(z.queue) && z.results == y.results && z.writer.store.Broken?;
      hide Step, OnlyRecords;
      assert OpenBroke(z);
    }
  }

  /** A trim that is carried out but not counted: what is left, and what was deleted, make up what there was. */
  lemma UncountedTrimKeeps(y: System, behind: nat)
    requires OpenInv(y) && y.queue != [] && y.queue[0].TrimTo? && OnlyRecords(y.queue[1..]) && |y.queue| == behind + 1
    requires y.results == [] && y.uncounted == 0
    ensures var z := Step(y, WriteUncounted);
      && OpenInv(z) && OnlyRecords(z.queue) && z.results == [TrimFailed] && |Stored(y)| == |Stored(z)| + z.uncounted
  {
    TrimKeeps(y, true, behind);
    var counted, z := Step(y, Write(true)), Step(y, WriteUncounted);
    assert z == counted.(results := [TrimFailed], uncounted := Minus(|y.writer.rows|, |counted.writer.rows|));
    assert Queued(y.queue) == Queued(y.queue[1..]) && |counted.writer.rows| <= |y.writer.rows|;
    assert OpenInv(z) && Stored(z) == Stored(counted);
  }

  /** A record does not care whether counting would work. */
  lemma UncountedRecord(y: System)
    requires y.queue != [] && y.queue[0].Record?
    ensures Step(y, WriteUncounted) == Step(y, Write(true))
  {
  }

  lemma UncountedOpenBreaks(y: System)
    requires 1 <= y.openStep <= y.step && OpenQueued(y) && y.queue != [] && !y.queue[0].Record?
    ensures var z := Step(y, WriteUncounted);
      OpenBroke(z) && z == y.(queue := z.queue, writer := z.writer, results := z.results)
  {
    PopOne(y.queue, y.step - y.openStep);
    InsertAllSucceeds(y.writer, y.writer.buffer);
    hide InsertAll, OneCommand, Steps, Queued;
  }

  lemma WriteUncountedKeeps(y: System)
    requires Inv(y)
    ensures Inv(Step(y, WriteUncounted))
  {
    if y.queue != [] && !y.core.Unavailable? {
      if y.queue[0].Record? {
        UncountedRecord(y);
        WriteKeeps(y, true);
        hide Inv, Step;
      } else if y.core.Opening? {
        UncountedCommandOpens(y);
        UncountedOpenBreaks(y);
        hide OpenQueued, JustOpened, OpenBroke, Step;
      } else {
        UncountedCommandTrims(y);
        UncountedTrimKeeps(y, y.step - y.core.trim.since);
        assert Step(y, WriteUncounted).core == y.core && Step(y, WriteUncounted).step == y.step;
        hide OpenInv, OnlyRecords, OneCommand, Stored, Step;
      }
    }
  }

  lemma UncountedCommandOpens(y: System)
    requires Inv(y) && y.core.Opening? && y.queue != [] && !y.queue[0].Record?
    ensures OpenQueued(y)
  {
    hide BufferingInv, OpenInv, Stored;
  }

  lemma UncountedCommandTrims(y: System)
    requires Inv(y) && (y.core.Closed? || y.core.Open?) && y.queue != [] && !y.queue[0].Record?
    ensures y.core.Open? && y.core.trim.Pending? && y.core.trim.since <= y.step && OpenInv(y)
    ensures y.queue[0].TrimTo? && OnlyRecords(y.queue[1..]) && |y.queue| == y.step - y.core.trim.since + 1
    ensures y.results == [] && y.uncounted == 0 && y.core.retained == |Stored(y)|
  {
    hide OpenInv, Stored, BufferingInv;
    if y.core.Open? && y.core.trim.Pending? && y.results == [] {
      PopOne(y.queue, y.step - y.core.trim.since);
    }
  }

  lemma WriteWhileOpen(y: System, ok: bool)
    requires Inv(y) && y.core.Open? && y.queue != []
    ensures Inv(Step(y, Write(ok)))
  {
    if y.queue[0].Record? { InsertKeeps(y, ok); }
    var trim := y.core.trim;
    if trim.Pending? && y.results == [] {
      PopOne(y.queue, y.step - trim.since);
      if !y.queue[0].Record? { TrimKeeps(y, ok, y.step - trim.since); }
    }
    hide OpenInv, OneCommand, Stored;
  }

  lemma WriteKeeps(y: System, ok: bool)
    requires Inv(y)
    ensures Inv(Step(y, Write(ok)))
  {
    if y.queue != [] {
      match y.core
      case Closed => BufferKeeps(y, ok);
      case Opening(s) => WriteWhileOpening(y, ok);
      case Open(retained, trim) => WriteWhileOpen(y, ok);
      case Unavailable =>
    }
  }

  // ---------- The runner's steps ----------

  /** The new step is recorded behind whatever else is queued. */
  lemma RunnerQueue(y: System, event: Option<Event>, opens: bool, limit: Option<nat>)
    ensures var z := RunnerStep(y, event, opens, limit); Queued(z.queue) == Queued(y.queue) + [Handled(z.step)]
  {
    var z := RunnerStep(y, event, opens, limit);
    var q := y.queue + [Record(Handled(z.step))];
    QueuedAppend(y.queue, [Record(Handled(z.step))]);
    assert Queued([Record(Handled(z.step))]) == [Handled(z.step)];
    var extra := z.queue[|q|..];
    assert z.queue == q + extra;
    QueuedAppend(q, extra);
    assert Queued(extra) == [];
  }

  lemma RunnerOpenInv(y: System, event: Option<Event>, opens: bool, limit: Option<nat>)
    requires OpenInv(y) && !y.core.Closed?
    ensures var z := RunnerStep(y, event, opens, limit);
      OpenInv(z) && Stored(z) == Stored(y) + [Handled(z.step)]
  {
    var z := RunnerStep(y, event, opens, limit);
    RunnerQueue(y, event, opens, limit);
    HandleNeverCloses(y.core, y.step + 1, event);
    assert z.openStep == y.openStep;
    hide RunnerStep;
    assert All(z) == All(y) + [Handled(z.step)];
    assert Stored(z) == Stored(y) + [Handled(z.step)];
  }

  lemma HandleNeverCloses(core: Core, step: nat, event: Option<Event>)
    requires !core.Closed?
    ensures !(if event.Some? then Handle(core, step, event.value) else core).Closed?
  {
  }

  lemma AddRecord(queue: seq<Command>, c: Command, behind: nat)
    requires c.Record?
    ensures OnlyRecords(queue) ==> OnlyRecords(queue + [c])
    ensures OneCommand(queue, behind) ==>
      OneCommand(queue + [c], behind + 1) && (queue + [c])[|queue| - 1 - behind] == queue[|queue| - 1 - behind]
  {
  }

  lemma AddCommand(queue: seq<Command>, c: Command)
    requires OnlyRecords(queue) && !c.Record?
    ensures OneCommand(queue + [c], 0)
  {
  }

  lemma OtherWhileClosed(y: System, opens: bool, limit: Option<nat>)
    requires Inv(y) && y.core.Closed?
    ensures Inv(Step(y, Other(opens, limit)))
  {
    var z := Step(y, Other(opens, limit));
    var r := Record(Handled(z.step));
    RunnerQueue(y, None, opens, limit);
    AddRecord(y.queue, r, 0);
    assert z.core == if opens then Opening(z.step) else Closed;
    if opens {
      AddCommand(y.queue + [r], OpenStore);
    } else {
      assert z.queue == y.queue + [r];
    }
    assert BufferingInv(z);
    hide RunnerStep, BufferingInv, OnlyRecords, OneCommand, Queued;
  }

  /**
   * A step that is about something else, once opening was asked for: it is counted, recorded, and may
   * ask for a trim.
   */
  lemma OtherParts(y: System, opens: bool, limit: Option<nat>)
    requires !y.core.Closed?
    ensures var z := Step(y, Other(opens, limit)); var (core, keep) := AfterStep(y.core, y.step + 1, limit);
      z == y.(step := y.step + 1, core := core,
        queue := y.queue + [Record(Handled(y.step + 1))] + Dispatched(false, keep))
  {
  }

  lemma BufferingGrows(y: System, z: System)
    requires BufferingInv(y) && z.writer == y.writer && z.results == y.results && z.earlier == y.earlier
    requires z.step == y.step + 1 && Queued(z.queue) == Queued(y.queue) + [Handled(z.step)]
    ensures BufferingInv(z)
  {
  }

  lemma OtherWhileOpening(y: System, opens: bool, limit: Option<nat>)
    requires Inv(y) && y.core.Opening?
    ensures Inv(Step(y, Other(opens, limit)))
  {
    var z := Step(y, Other(opens, limit));
    var r := Record(Handled(z.step));
    OtherParts(y, opens, limit);
    RunnerQueue(y, None, opens, limit);
    assert Queued(z.queue) == Queued(y.queue) + [Handled(z.step)];
    if JustOpened(y) { RunnerOpenInv(y, None, opens, limit); }
    assert JustOpened(y) ==> OpenInv(z) && |Stored(z)| == |Stored(y)| + 1;
    AddRecord(y.queue, r, y.step - y.core.requested);
    hide Step, RunnerStep, OpenInv, Stored, Queued, OnlyRecords, OneCommand, Steps, All;
    assert z.queue == y.queue + [r];
    if OpenQueued(y) {
      BufferingGrows(y, z);
      hide BufferingInv;
      assert OpenQueued(z);
    } else if JustOpened(y) {
      assert JustOpened(z);
    } else {
      assert OpenBroke(z);
    }
  }

  lemma OtherWhileOpen(y: System, opens: bool, limit: Option<nat>)
    requires Inv(y) && y.core.Open?
    ensures Inv(Step(y, Other(opens, limit)))
  {
    var z := Step(y, Other(opens, limit));
    var r := Record(Handled(z.step));
    OtherParts(y, opens, limit);
    RunnerOpenInv(y, None, opens, limit);
    assert OpenInv(z) && |Stored(z)| == |Stored(y)| + 1;
    AddRecord(y.queue, r, if y.core.trim.Pending? then y.step - y.core.trim.since else 0);
    hide Step, RunnerStep, OpenInv, Stored, Queued, OneCommand, Steps, All, OnlyRecords;
    var (core, keep) := AfterStep(y.core, z.step, limit);
    if keep.Some? {
      AddCommand(y.queue + [r], TrimTo(keep.value));
    } else {
      assert z.queue == y.queue + [r];
    }
  }

  lemma OtherKeeps(y: System, opens: bool, limit: Option<nat>)
    requires Inv(y)
    ensures Inv(Step(y, Other(opens, limit)))
  {
    match y.core
    case Closed => OtherWhileClosed(y, opens, limit);
    case Opening(_) => OtherWhileOpening(y, opens, limit);
    case Open(_, _) => OtherWhileOpen(y, opens, limit);
    case Unavailable =>
  }

  /** What a report tells: a gap before opening is not counted yet; any other report gives the exact count. */
  lemma ReportCounts(y: System)
    requires Inv(y) && y.results != [] && (y.core.Opening? || y.core.Open?) && y.writer.store.Ready?
    ensures OnlyRecords(y.queue) && OpenInv(y)
    ensures var core := Handle(y.core, y.step + 1, y.results[0]);
      || (core == y.core && core.Opening? && core.requested == y.openStep && 1 <= y.openStep <= y.step
          && |Stored(y)| >= y.step - y.openStep
          && y.results[1..] == [Opened(|Stored(y)| - (y.step - y.openStep))])
      || (core.Open? && core.retained == |Stored(y)| + y.uncounted && !core.trim.Pending? && y.results[1..] == []
          && (!core.trim.Failed? ==> y.uncounted == 0))
  {
    hide OpenInv, OnlyRecords, OneCommand, Stored, Queued, Steps;
  }

  /** A report handled while the writer is open: the core's count becomes that of what is stored and queued. */
  lemma DeliverWhileReady(y: System, limit: Option<nat>)
    requires Inv(y) && y.results != [] && (y.core.Opening? || y.core.Open?) && y.writer.store.Ready?
    ensures Inv(Step(y, Deliver(limit)))
  {
    var before := y.(results := y.results[1..]);
    var z := Step(y, Deliver(limit));
    var r := Record(Handled(z.step));
    ReportCounts(y);
    assert Stored(before) == Stored(y) && All(before) == All(y);
    RunnerOpenInv(before, Some(y.results[0]), false, limit);
    AddRecord(y.queue, r, 0);
    var core := Handle(y.core, z.step, y.results[0]);
    var (after, keep) := AfterStep(core, z.step, limit);
    assert z.core == after && z.openStep == y.openStep && z.results == y.results[1..];
    assert z.queue == y.queue + [r] + Dispatched(false, keep);
    assert |Stored(z)| == |Stored(y)| + 1;
    hide RunnerStep, OpenInv, Stored, Queued, OneCommand, BufferingInv, Handle, Steps, All;
    if keep.Some? {
      AddCommand(y.queue + [r], TrimTo(keep.value));
    } else {
      assert z.queue == y.queue + [r];
    }
  }

  lemma DeliverWhileBroken(y: System, limit: Option<nat>)
    requires Inv(y) && y.results != [] && y.core.Opening? && !y.writer.store.Ready?
    ensures Inv(Step(y, Deliver(limit)))
  {
    var z := Step(y, Deliver(limit));
    var r := Record(Handled(z.step));
    assert OpenBroke(y);
    AddRecord(y.queue, r, 0);
    if y.results[0].EntriesLost? {
      assert z.core == y.core && z.queue == y.queue + [r] && z.results == [OpenFailed];
      hide OnlyRecords, Step;
      assert OpenBroke(z);
    }
  }

  lemma DeliverKeeps(y: System, limit: Option<nat>)
    requires Inv(y)
    ensures Inv(Step(y, Deliver(limit)))
  {
    if y.results != [] && (y.core.Opening? || y.core.Open?) && y.writer.store.Ready? {
      DeliverWhileReady(y, limit);
    } else if y.results != [] && y.core.Opening? {
      DeliverWhileBroken(y, limit);
    }
  }

  lemma {:induction false} RunKeeps(earlier: seq<Entry>, labels: seq<Label>)
    ensures Inv(Run(earlier, labels))
  {
    if labels != [] {
      var y := Run(earlier, labels[..|labels| - 1]);
      RunKeeps(earlier, labels[..|labels| - 1]);
      match labels[|labels| - 1]
      case Other(opens, limit) => OtherKeeps(y, opens, limit);
      case Deliver(limit) => DeliverKeeps(y, limit);
      case Write(ok) => WriteKeeps(y, ok);
      case WriteUncounted => WriteUncountedKeeps(y);
    }
  }

  /**
   * The count is exact: whenever history is open and no trim is outstanding, the core's count is
   * what is stored plus what is queued, and that is the newest part of everything recorded. Only
   * after a trim that worked and could not be counted is it more, by exactly the rows deleted.
   */
  lemma CountIsExact(earlier: seq<Entry>, labels: seq<Label>)
    ensures var y := Run(earlier, labels);
      y.core.Open? && !y.core.trim.Pending? ==>
        && y.core.retained == |y.writer.rows| + |Queued(y.queue)| + y.uncounted
        && (y.uncounted > 0 ==> y.core.trim.Failed?)
        && IsSuffix(y.writer.rows + Queued(y.queue), All(y))
  {
    RunKeeps(earlier, labels);
  }

  lemma {:induction false} EarlierStays(earlier: seq<Entry>, labels: seq<Label>)
    ensures Run(earlier, labels).earlier == earlier
  {
    if labels != [] { EarlierStays(earlier, labels[..|labels| - 1]); }
  }

  lemma SuffixOfSuffix(a: seq<Entry>, b: seq<Entry>, all: seq<Entry>)
    requires IsSuffix(b, all) && |a| <= |b|
    ensures IsSuffix(a, b) <==> IsSuffix(a, all)
  {
  }

  /**
   * What a run recorded and every event it handled share the steps since opening, and no more when the
   * buffer overflowed.
   */
  lemma SharedSteps(y: System)
    requires y.openStep <= y.step
    ensures var every := y.earlier + Steps(0, y.step); var since := Steps(y.openStep, y.step);
      && IsSuffix(since, All(y)) && IsSuffix(since, every)
      && (y.openStep <= BUFFER_LIMIT ==> All(y) == every)
      && (y.openStep > BUFFER_LIMIT ==>
            |All(y)| > |since| && All(y)[|All(y)| - |since| - 1] != every[|every| - |since| - 1])
  {
    var every, since := y.earlier + Steps(0, y.step), Steps(y.openStep, y.step);
    StepsSplit(0, y.openStep, y.step);
    assert every == (y.earlier + Steps(0, y.openStep)) + since;
    if y.openStep > BUFFER_LIMIT {
      assert Steps(0, BUFFER_LIMIT)[BUFFER_LIMIT - 1] == Handled(BUFFER_LIMIT);
      assert Steps(0, y.openStep)[y.openStep - 1] == Handled(y.openStep);
    }
  }

  /**
   * In every run, while history is open and no trim is outstanding, what is stored and queued is
   * an unbroken part of the earlier rows and every handled event, up to the newest, exactly when
   * opening came within the buffer's room or no more is kept than the steps since then.
   */
  lemma UnbrokenIff(earlier: seq<Entry>, labels: seq<Label>)
    ensures var y := Run(earlier, labels);
      y.core.Open? && !y.core.trim.Pending? ==>
        (IsSuffix(y.writer.rows + Queued(y.queue), earlier + Steps(0, y.step)) <==>
           y.openStep <= 1000 || |y.writer.rows + Queued(y.queue)| <= y.step - y.openStep)
  {
    var y := Run(earlier, labels);
    CountIsExact(earlier, labels);
    RunKeeps(earlier, labels);
    EarlierStays(earlier, labels);
    if y.core.Open? && !y.core.trim.Pending? {
      assert y.openStep <= y.step;
      var kept := y.writer.rows + Queued(y.queue);
      var every, since := y.earlier + Steps(0, y.step), Steps(y.openStep, y.step);
      SharedSteps(y);
      hide Run, Inv, All, Steps, Queued;
      if |kept| <= |since| {
        SuffixOfSuffix(kept, since, All(y));
        SuffixOfSuffix(kept, since, every);
      } else if y.openStep > BUFFER_LIMIT {
        assert kept[|kept| - |since| - 1] == All(y)[|All(y)| - |since| - 1];
      }
    }
  }

  // ---------- A run that overflowed ----------

  /** Steps handled, each recorded at once, before anything opens history. */
  function Early(steps: nat): seq<Label> {
    if steps == 0 then [] else Early(steps - 1) + [Other(false, None), Write(true)]
  }

  function AfterEarly(steps: nat): System {
    var kept := Least(steps, BUFFER_LIMIT);
    System(steps, Closed, [], Writer(Buffering, [], Steps(0, kept), steps - kept), [], 0, [], 0)
  }

  lemma EarlyStep(steps: nat)
    ensures Step(Step(AfterEarly(steps), Other(false, None)), Write(true)) == AfterEarly(steps + 1)
  {
    var y := AfterEarly(steps);
    assert steps < BUFFER_LIMIT ==> Steps(0, steps + 1) == Steps(0, steps) + [Handled(steps + 1)];
    hide Steps, InsertAll, Newest;
    var handled := Step(y, Other(false, None));
    assert handled == y.(step := steps + 1, queue := [Record(Handled(steps + 1))]);
    assert handled.queue[1..] == [];
  }

  lemma {:induction false} EarlySteps(steps: nat)
    ensures Run([], Early(steps)) == AfterEarly(steps)
  {
    hide Step;
    if steps > 0 {
      var before, all := Early(steps - 1), Early(steps);
      EarlySteps(steps - 1);
      EarlyStep(steps - 1);
      hide AfterEarly;
      assert all[..|all| - 1] == before + [Other(false, None)];
      assert (before + [Other(false, None)])[..|before|] == before;
      assert Run([], before + [Other(false, None)]) == Step(Run([], before), Other(false, None));
    }
  }

  /** The overflowing run: open at step 1001, let the writer catch up, and hear its two reports. */
  const OVERFLOWING: seq<Label> :=
    Early(BUFFER_LIMIT) + [Other(true, None), Write(true), Write(true), Deliver(None), Deliver(None)]

  function RunFrom(y: System, labels: seq<Label>): System
    decreases |labels|
  {
    if labels == [] then y else RunFrom(Step(y, labels[0]), labels[1..])
  }

  lemma {:induction false} RunsOn(earlier: seq<Entry>, a: seq<Label>, b: seq<Label>)
    ensures Run(earlier, a + b) == RunFrom(Run(earlier, a), b)
    decreases |b|
  {
    hide Step;
    if b == [] {
      assert a + b == a;
    } else {
      assert a + b == (a + [b[0]]) + b[1..];
      assert (a + [b[0]])[..|a|] == a;
      RunsOn(earlier, a + [b[0]], b[1..]);
    }
  }

  lemma OverflowOpens(y: System)
    requires y == System(BUFFER_LIMIT, Closed, [], Writer(Buffering, [], Steps(0, BUFFER_LIMIT), 0), [], 0, [], 0)
    ensures var n := BUFFER_LIMIT; var z := Step(Step(Step(y, Other(true, None)), Write(true)), Write(true));
      z == System(n + 1, Opening(n + 1), [], Writer(Ready, Steps(0, n), [], 0), [EntriesLost(1), Opened(n)], n + 1,
        [], 0)
  {
    var n := BUFFER_LIMIT;
    hide Steps;
    var a := Step(y, Other(true, None));
    assert a.queue == [Record(Handled(n + 1)), OpenStore];
    var b := Step(a, Write(true));
    assert b == System(n + 1, Opening(n + 1), [OpenStore], Writer(Buffering, [], Steps(0, n), 1), [], n + 1, [], 0);
    InsertAllSucceeds(b.writer, Steps(0, n));
    hide InsertAll;
    assert [] + Steps(0, n) == Steps(0, n);
  }

  /** The count comes out right after a loss, and what is stored has a gap: step 1001 is missing. */
  lemma OverflowBreaks()
    ensures var y := Run([], OVERFLOWING);
      && y.core == Open(BUFFER_LIMIT + 2, Idle) && y.openStep == BUFFER_LIMIT + 1
      && y.core.retained == |y.writer.rows| + |Queued(y.queue)|
      && !IsSuffix(y.writer.rows + Queued(y.queue), [] + Steps(0, y.step))
  {
    var n := BUFFER_LIMIT;
    EarlySteps(n);
    var y := Run([], Early(n));
    var tail := [Other(true, None), Write(true), Write(true), Deliver(None), Deliver(None)];
    RunsOn([], Early(n), tail);
    OverflowOpens(y);
    var z := Step(Step(Step(y, Other(true, None)), Write(true)), Write(true));
    assert RunFrom(y, tail) == Step(Step(z, Deliver(None)), Deliver(None)) by {
      hide Step;
      var a := Step(y, Other(true, None));
      assert tail[1..] == [Write(true), Write(true), Deliver(None), Deliver(None)];
      assert tail[1..][1..] == [Write(true), Deliver(None), Deliver(None)];
      assert tail[1..][1..][1..] == [Deliver(None), Deliver(None)];
      assert RunFrom(y, tail) == RunFrom(a, tail[1..]) == RunFrom(Step(a, Write(true)), tail[1..][1..]) ==
        RunFrom(z, [Deliver(None), Deliver(None)]);
      assert [Deliver(None), Deliver(None)][1..] == [Deliver(None)];
      assert RunFrom(z, [Deliver(None), Deliver(None)]) == RunFrom(Step(z, Deliver(None)), [Deliver(None)]);
    }
    OverflowHears(z);
    CountIsExact([], OVERFLOWING);
    UnbrokenIff([], OVERFLOWING);
    hide Run, Steps, Queued, Step, RunFrom, Early;
  }

  lemma OverflowHears(z: System)
    requires var n := BUFFER_LIMIT;
      z == System(n + 1, Opening(n + 1), [], Writer(Ready, Steps(0, n), [], 0), [EntriesLost(1), Opened(n)], n + 1,
        [], 0)
    ensures var n := BUFFER_LIMIT; var end := Step(Step(z, Deliver(None)), Deliver(None));
      end == System(n + 3, Open(n + 2, Idle), [Record(Handled(n + 2)), Record(Handled(n + 3))],
                    Writer(Ready, Steps(0, n), [], 0), [], n + 1, [], 0)
  {
    hide Steps;
    var n := BUFFER_LIMIT;
    var a := Step(z, Deliver(None));
    assert a == System(n + 2, Opening(n + 1), [Record(Handled(n + 2))],
                       Writer(Ready, Steps(0, n), [], 0), [Opened(n)], n + 1, [], 0);
  }

  // ---------- A trim that could not be counted ----------

  /** Open, let the writer catch up, pass a limit of none, and trim without being able to count. */
  const MISCOUNTED: seq<Label> :=
    [Other(true, None), Write(true), Write(true), Deliver(Some(0)), Write(true), WriteUncounted, Deliver(None)]

  lemma MiscountOpens()
    ensures var z := Step(Step(Step(Start([]), Other(true, None)), Write(true)), Write(true));
      z == System(1, Opening(1), [], Writer(Ready, [Handled(1)], [], 0), [Opened(1)], 1, [], 0)
  {
    var a := Step(Start([]), Other(true, None));
    assert a.queue == [Record(Handled(1)), OpenStore];
    var b := Step(a, Write(true));
    assert b == System(1, Opening(1), [OpenStore], Writer(Buffering, [], [Handled(1)], 0), [], 1, [], 0);
    InsertAllSucceeds(b.writer, [Handled(1)]);
    hide InsertAll;
  }

  lemma MiscountAsksForTrim()
    ensures var y := System(1, Opening(1), [], Writer(Ready, [Handled(1)], [], 0), [Opened(1)], 1, [], 0);
      Step(y, Deliver(Some(0))) ==
        System(2, Open(2, Pending(2)), [Record(Handled(2)), TrimTo(0)], Writer(Ready, [Handled(1)], [], 0), [], 1,
          [], 0)
  {
  }

  lemma MiscountTrims()
    ensures var a := System(2, Open(2, Pending(2)), [Record(Handled(2)), TrimTo(0)],
      Writer(Ready, [Handled(1)], [], 0), [], 1, [], 0);
      Step(Step(a, Write(true)), WriteUncounted) ==
        System(2, Open(2, Pending(2)), [], Writer(Ready, [], [], 0), [TrimFailed], 1, [], 2)
  {
    hide InsertAll, RunnerStep;
    var a := System(2, Open(2, Pending(2)), [Record(Handled(2)), TrimTo(0)], Writer(Ready, [Handled(1)], [], 0), [],
      1, [], 0);
    var b := Step(a, Write(true));
    var rows := [Handled(1), Handled(2)];
    assert a.queue[1..] == [TrimTo(0)] && [Handled(1)] + [Handled(2)] == rows;
    assert b == System(2, Open(2, Pending(2)), [TrimTo(0)], Writer(Ready, rows, [], 0), [], 1, [], 0);
    assert b.queue[1..] == [] && Newest(rows, 0) == [];
  }

  lemma MiscountHears()
    ensures var y := System(2, Open(2, Pending(2)), [], Writer(Ready, [], [], 0), [TrimFailed], 1, [], 2);
      Step(y, Deliver(None)) ==
        System(3, Open(3, Failed), [Record(Handled(3))], Writer(Ready, [], [], 0), [], 1, [], 2)
  {
  }

  /**
   * A run in which the core counts three entries where one is left: the trim deleted two, and was
   * reported as failed.
   */
  lemma UncountedTrimMiscounts()
    ensures var y := Run([], MISCOUNTED);
      && y.core == Open(3, Failed) && y.uncounted == 2 && y.writer.rows == [] && y.queue == [Record(Handled(3))]
  {
    var y := Start([]);
    RunsOn([], [], MISCOUNTED);
    assert [] + MISCOUNTED == MISCOUNTED;
    MiscountOpens();
    MiscountAsksForTrim();
    MiscountTrims();
    MiscountHears();
    var ready := Step(Step(Step(y, Other(true, None)), Write(true)), Write(true));
    var trimmed := Step(Step(Step(ready, Deliver(Some(0))), Write(true)), WriteUncounted);
    assert RunFrom(y, MISCOUNTED) == Step(trimmed, Deliver(None)) by {
      hide Step;
      RunFromThree(y, MISCOUNTED);
      assert MISCOUNTED[3..] == [Deliver(Some(0)), Write(true), WriteUncounted, Deliver(None)];
      RunFromThree(ready, MISCOUNTED[3..]);
      assert MISCOUNTED[3..][3..] == [Deliver(None)];
      assert [Deliver(None)][1..] == [];
    }
    hide Step, RunFrom, Run;
  }

  lemma RunFromThree(y: System, labels: seq<Label>)
    requires |labels| >= 3
    ensures RunFrom(y, labels) == RunFrom(Step(Step(Step(y, labels[0]), labels[1]), labels[2]), labels[3..])
  {
    hide Step;
    var one := Step(y, labels[0]);
    var two := Step(one, labels[1]);
    assert labels[1..][1..] == labels[2..] && labels[2..][1..] == labels[3..];
    assert RunFrom(y, labels) == RunFrom(one, labels[1..]);
    assert RunFrom(one, labels[1..]) == RunFrom(two, labels[2..]);
    assert RunFrom(two, labels[2..]) == RunFrom(Step(two, labels[2]), labels[3..]);
  }

  // ---------- What a trim leaves ----------

  /** A trim that works leaves the last `keep` of the rows, or all when there are no more, and reports their number. */
  lemma TrimLeavesTheNewest(w: Writer, keep: nat, counts: bool, fails: set<nat>)
    requires w.store == Ready
    ensures var n := Least(keep, |w.rows|); var (t, events) := Process(w, TrimTo(keep), Calls(true, counts, fails));
      && t == w.(rows := w.rows[|w.rows| - n..])
      && events == [if counts then Trimmed(n) else TrimFailed]
  {
  }

  /** Every limit in these steps is at least this. */
  ghost predicate LimitsAtLeast(labels: seq<Label>, least: nat) {
    forall i :: 0 <= i < |labels| ==>
      && (labels[i].Other? && labels[i].limit.Some? ==> labels[i].limit.value >= least)
      && (labels[i].Deliver? && labels[i].limit.Some? ==> labels[i].limit.value >= least)
  }

  /** Queued trims keep nine tenths of the least limit or more. */
  ghost predicate TrimsKeep(queue: seq<Command>, least: nat) {
    forall i :: 0 <= i < |queue| && queue[i].TrimTo? ==> queue[i].keep >= least * 9 / 10
  }

  ghost predicate KeepsEnough(y: System, least: nat) {
    && TrimsKeep(y.queue, least)
    && (y.writer.store.Ready? && !y.core.Unavailable? ==> |Stored(y)| >= Least(|All(y)|, least * 9 / 10))
  }

  lemma TargetGrows(least: nat, limit: nat)
    requires least <= limit
    ensures least * 9 / 10 <= limit * 9 / 10
  {
  }

  lemma RunnerTrims(y: System, event: Option<Event>, opens: bool, limit: Option<nat>, least: nat)
    requires TrimsKeep(y.queue, least) && (limit.Some? ==> limit.value >= least)
    ensures TrimsKeep(RunnerStep(y, event, opens, limit).queue, least)
  {
    if limit.Some? { TargetGrows(least, limit.value); }
  }

  lemma RunnerEnough(y: System, event: Option<Event>, opens: bool, limit: Option<nat>, least: nat)
    requires KeepsEnough(y, least) && (y.writer.store.Ready? && !y.core.Unavailable? ==> OpenInv(y) && !y.core.Closed?)
    requires limit.Some? ==> limit.value >= least
    ensures KeepsEnough(RunnerStep(y, event, opens, limit), least)
  {
    var z := RunnerStep(y, event, opens, limit);
    RunnerTrims(y, event, opens, limit, least);
    assert y.core.Unavailable? ==> z.core.Unavailable?;
    if y.writer.store.Ready? && !y.core.Unavailable? {
      RunnerOpenInv(y, event, opens, limit);
      HandleNeverCloses(y.core, y.step + 1, event);
      assert z.openStep == y.openStep && z.step == y.step + 1 && z.earlier == y.earlier && z.writer == y.writer;
      assert All(z) == All(y) + [Handled(z.step)];
    }
    hide RunnerStep, All, Stored, TrimsKeep;
  }

  lemma ReadyMeansOpen(y: System)
    requires Inv(y) && y.writer.store.Ready? && !y.core.Unavailable?
    ensures OpenInv(y) && !y.core.Closed?
  {
    hide Stored, OnlyRecords, OneCommand, IsSuffix;
  }

  lemma EnoughLeft(keep: nat, target: nat, rows: nat, queued: nat, all: nat)
    requires keep >= target && rows + queued >= Least(all, target)
    ensures Least(keep, rows) + queued >= Least(all, target)
  {
  }

  /** A trim that works takes what is kept down to its target, or leaves it when there is less. */
  lemma TrimEnough(y: System, counts: bool, least: nat)
    requires OpenInv(y) && KeepsEnough(y, least) && !y.core.Unavailable? && y.queue != [] && y.queue[0].TrimTo?
    ensures KeepsEnough(Step(y, if counts then Write(true) else WriteUncounted), least)
  {
    var l := if counts then Write(true) else WriteUncounted;
    var z := Step(y, l);
    WriteTrims(y, l, least);
    var keep, target := y.queue[0].keep, least * 9 / 10;
    assert keep >= target;
    TrimLeavesTheNewest(y.writer, keep, counts, {});
    assert z.writer.rows == y.writer.rows[|y.writer.rows| - Least(keep, |y.writer.rows|)..] && z.core == y.core;
    assert Queued(y.queue) == Queued(y.queue[1..]) && z.queue == y.queue[1..] && All(z) == All(y);
    hide Queued, All, Steps, Step, TrimsKeep, IsSuffix, Process;
    EnoughLeft(keep, target, |y.writer.rows|, |Queued(y.queue)|, |All(y)|);
  }

  lemma OpensWithAll(y: System)
    requires Inv(y) && y.core.Opening? && y.writer.store.Buffering? && y.queue != [] && !y.queue[0].Record?
    ensures Stored(Step(y, Write(true))) == All(Step(y, Write(true)))
  {
    UncountedCommandOpens(y);
    PopOne(y.queue, y.step - y.openStep);
    OpenKeeps(y);
    hide OpenInv, Stored, All, OneCommand, OnlyRecords;
  }

  lemma WriteTrims(y: System, l: Label, least: nat)
    requires TrimsKeep(y.queue, least) && (l.Write? || l.WriteUncounted?)
    ensures TrimsKeep(Step(y, l).queue, least)
  {
    if y.queue != [] {
      assert Step(y, l).queue == y.queue[1..];
      hide Step;
    }
  }

  lemma WriteEnough(y: System, l: Label, least: nat)
    requires Inv(y) && KeepsEnough(y, least) && (l.Write? || l.WriteUncounted?)
    ensures KeepsEnough(Step(y, l), least)
  {
    WriteTrims(y, l, least);
    hide TrimsKeep;
    if y.queue != [] && !y.core.Unavailable? {
      if y.queue[0].Record? {
        RecordEnough(y, l);
      } else if y.writer.store.Ready? {
        ReadyWriteEnough(y, l, least);
      } else if y.core.Opening? && y.writer.store.Buffering? && l == Write(true) {
        OpensWithAll(y);
      } else {
        NotReadyStays(y, l);
      }
      hide Step, Stored, All, Inv;
    }
  }

  lemma ReadyWriteEnough(y: System, l: Label, least: nat)
    requires Inv(y) && KeepsEnough(y, least) && (l.Write? || l.WriteUncounted?) && TrimsKeep(Step(y, l).queue, least)
    requires y.queue != [] && !y.core.Unavailable? && !y.queue[0].Record? && y.writer.store.Ready?
    ensures KeepsEnough(Step(y, l), least)
  {
    hide TrimsKeep;
    ReadyMeansOpen(y);
    ReadyCommandTrims(y);
    if l == Write(true) || l.WriteUncounted? {
      TrimEnough(y, l.Write?, least);
    } else {
      var z := Step(y, l);
      assert Queued(y.queue) == Queued(y.queue[1..]);
      assert Stored(z) == Stored(y) && All(z) == All(y);
    }
  }

  lemma RecordEnough(y: System, l: Label)
    requires Inv(y) && !y.core.Unavailable? && y.queue != [] && y.queue[0].Record? && (l.Write? || l.WriteUncounted?)
    ensures var z := Step(y, l);
      && (y.writer.store.Ready? ==> Stored(z) == Stored(y) && All(z) == All(y))
      && (!y.writer.store.Ready? ==> !z.writer.store.Ready?)
  {
    if y.writer.store.Ready? {
      ReadyMeansOpen(y);
      InsertKeeps(y, true);
      assert Step(y, l) == Step(y, Write(true));
      hide Inv, OpenInv, Stored, Queued;
    }
  }

  lemma ReadyCommandTrims(y: System)
    requires Inv(y) && y.writer.store.Ready? && !y.core.Unavailable? && y.queue != [] && !y.queue[0].Record?
    ensures y.queue[0].TrimTo?
  {
    if y.core.Open? {
      UncountedCommandTrims(y);
    }
    hide OpenInv, Stored;
  }

  lemma NotReadyStays(y: System, l: Label)
    requires Inv(y) && !y.core.Unavailable? && y.queue != [] && !y.queue[0].Record? && !y.writer.store.Ready?
    requires (l.Write? || l.WriteUncounted?) && !(y.core.Opening? && y.writer.store.Buffering? && l == Write(true))
    ensures !Step(y, l).writer.store.Ready?
  {
    hide Stored, IsSuffix, InsertAll, Queued, Steps;
  }

  lemma StepEnough(y: System, l: Label, least: nat)
    requires Inv(y) && KeepsEnough(y, least) && LimitsAtLeast([l], least)
    ensures KeepsEnough(Step(y, l), least)
  {
    assert [l][0] == l;
    if y.writer.store.Ready? && !y.core.Unavailable? { ReadyMeansOpen(y); }
    match l
    case Other(opens, limit) => RunnerEnough(y, None, opens, limit, least);
    case Deliver(limit) =>
      if y.results != [] {
        var before := y.(results := y.results[1..]);
        assert Stored(before) == Stored(y) && All(before) == All(y);
        RunnerEnough(before, Some(y.results[0]), false, limit, least);
      }
    case _ => WriteEnough(y, l, least);
  }

  /**
   * A trim never takes too much: over every run, whatever fails, while history is open at least
   * nine tenths of the least limit ever set is kept, or else everything recorded.
   */
  lemma {:induction false} NineTenthsStay(earlier: seq<Entry>, labels: seq<Label>, least: nat)
    requires LimitsAtLeast(labels, least)
    ensures var y := Run(earlier, labels);
      KeepsEnough(y, least) && (y.core.Open? ==> |Stored(y)| >= Least(|All(y)|, least * 9 / 10))
  {
    RunKeeps(earlier, labels);
    if labels != [] {
      var n := |labels| - 1;
      NineTenthsStay(earlier, labels[..n], least);
      RunKeeps(earlier, labels[..n]);
      assert LimitsAtLeast([labels[n]], least);
      StepEnough(Run(earlier, labels[..n]), labels[n], least);
    }
    assert Run(earlier, labels).core.Open? ==> Run(earlier, labels).writer.store.Ready?;
  }

  /** After a step with loaded settings and no trim outstanding or failed, the count is within the limit. */
  lemma WithinLimit(earlier: seq<Entry>, labels: seq<Label>, l: Label, limit: nat)
    requires l == Deliver(Some(limit)) || exists opens :: l == Other(opens, Some(limit))
    requires l.Deliver? ==> Run(earlier, labels).results != []
    ensures var y := Run(earlier, labels + [l]);
      y.core.Open? && y.core.trim.Idle? ==> |y.writer.rows| + |Queued(y.queue)| <= limit
  {
    assert (labels + [l])[..|labels|] == labels;
    CountIsExact(earlier, labels + [l]);
  }
}
