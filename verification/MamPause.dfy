/** The MAM pause preference: a pause applies at once, enabling waits for durable storage. */
module MamPause {
  import opened Basics

  datatype Mode = Paused | Enabled

  datatype Update = Set(mode: Mode) | Delete {
    function Stored(): Option<Mode> {
      if Set? then Some(mode) else None
    }

    function ModeOf(): Mode {
      if Set? then mode else Paused
    }
  }

  datatype Persistence = Idle | Pending(update: Update) | Failed

  datatype Preference = Preference(saved: Option<Mode>, requested: Update, effective: Mode, persistence: Persistence)

  datatype Core =
    | NotStarted
    | OpeningStorage(wish: Option<Update>)
    | Reading(wish: Option<Update>)
    | Ready(preference: Preference)
    | StartupFailed

  datatype Completion = Written | WriteFailed | Deleted | DeleteFailed

  /** A new request, and the update to persist, if any. */
  function Request(p: Preference, change: Update): (Preference, Option<Update>) {
    var q := p.(requested := change, effective := if change.ModeOf().Paused? then Paused else p.effective);
    if p.persistence.Pending? then (q, None)
    else if change.Stored() == p.saved then (q.(effective := change.ModeOf(), persistence := Idle), None)
    else (q.(persistence := Pending(change)), Some(change))
  }

  /** Whether this completion answers this update, and with success. */
  function Outcome(update: Update, c: Completion): Option<bool> {
    match (update, c)
    case (Set(_), Written) => Some(true)
    case (Delete, Deleted) => Some(true)
    case (Set(_), WriteFailed) => Some(false)
    case (Delete, DeleteFailed) => Some(false)
    case _ => None
  }

  function Complete(p: Preference, c: Completion): (Preference, Option<Update>) {
    if !p.persistence.Pending? || Outcome(p.persistence.update, c).None? then (p, None)
    else
      var pending := p.persistence.update;
      var success := Outcome(pending, c).value;
      var q := p.(
        saved := if success then pending.Stored() else p.saved,
        persistence := if success then Idle else Failed,
        effective := if success && pending == p.requested then pending.ModeOf() else Paused);
      if pending != p.requested then Request(q, p.requested) else (q, None)
  }

  /** The preference read at startup; a wish made meanwhile is applied on top of it. */
  function Loaded(saved: Option<Mode>, wish: Option<Update>): (Preference, Option<Update>) {
    var mode := if saved.Some? then saved.value else Paused;
    var p := Preference(saved, Set(mode), if wish.Some? then Paused else mode, Idle);
    if wish.Some? then Request(p, wish.value) else (p, None)
  }

  /** Whether Windlass may contact MAM as far as this preference goes. */
  function Effective(core: Core): Mode {
    if core.Ready? then core.preference.effective else Paused
  }

  // ---------- The preference as the object the core updates ----------

  class MamPreference {
    var saved: Option<Mode>
    var requested: Update
    var effective: Mode
    var persistence: Persistence

    ghost function View(): Preference
      reads this
    {
      Preference(saved, requested, effective, persistence)
    }

    constructor (stored: Option<Mode>, wish: Option<Update>)
      ensures View() ==
        Loaded(stored, None).0.(effective := if wish.Some? then Paused else Loaded(stored, None).0.effective)
    {
      var mode := if stored.Some? then stored.value else Paused;
      saved := stored;
      requested := Set(mode);
      effective := if wish.Some? then Paused else mode;
      persistence := Idle;
    }

    method UpdatePreference(change: Update) returns (write: Option<Update>)
      modifies this
      ensures (View(), write) == Request(old(View()), change)
    {
      requested := change;
      if change.ModeOf() == Paused {
        effective := Paused;
      }
      if persistence.Pending? {
        return None;
      }
      if change.Stored() == saved {
        effective := change.ModeOf();
        persistence := Idle;
        return None;
      }
      persistence := Pending(change);
      return Some(change);
    }

    method CompleteUpdate(c: Completion) returns (write: Option<Update>)
      modifies this
      ensures (View(), write) == Complete(old(View()), c)
    {
      if !persistence.Pending? {
        return None;
      }
      var pending := persistence.update;
      var outcome := Outcome(pending, c);
      if outcome.None? {
        return None;
      }
      var success := outcome.value;
      if success {
        saved := pending.Stored();
      }
      persistence := if success then Idle else Failed;
      effective := if success && pending == requested then pending.ModeOf() else Paused;
      if pending != requested {
        write := UpdatePreference(requested);
        return;
      }
      return None;
    }
  }

  // ---------- The core with its storage, failures and crashes ----------

  datatype Operation = Open | Read | Write(update: Update)

  datatype Answer = Opened | OpenFailed | ReadBack(mode: Option<Mode>) | ReadFailed | Completed(completion: Completion)

  /** A storage operation the shell runs, then its one answer. */
  datatype Flight = Running(op: Operation) | Answered(answer: Answer)

  /** `lastFailed` says whether the last write answered did not succeed. */
  datatype System = System(core: Core, stored: Option<Mode>, flights: seq<Flight>, lastFailed: bool)

  datatype Label = Start | Ask(change: Update) | Perform(i: nat, ok: bool) | Deliver(j: nat) | Crash

  function Writes(write: Option<Update>): seq<Flight> {
    if write.Some? then [Running(Write(write.value))] else []
  }

  function Settle(y: System, result: (Preference, Option<Update>)): System {
    y.(core := Ready(result.0), flights := y.flights + Writes(result.1))
  }

  /** What running an operation answers, and the preference stored after it; a failure stores nothing. */
  function Performed(stored: Option<Mode>, op: Operation, ok: bool): (Option<Mode>, Answer) {
    match op
    case Open => (stored, if ok then Opened else OpenFailed)
    case Read => (stored, if ok then ReadBack(stored) else ReadFailed)
    case Write(Set(mode)) => if ok then (Some(mode), Completed(Written)) else (stored, Completed(WriteFailed))
    case Write(Delete) => if ok then (None, Completed(Deleted)) else (stored, Completed(DeleteFailed))
  }

  function Handle(y: System, answer: Answer): System {
    match answer
    case Opened =>
      if y.core.OpeningStorage? then y.(core := Reading(y.core.wish), flights := y.flights + [Running(Read)]) else y
    case OpenFailed =>
      if y.core.OpeningStorage? then y.(core := StartupFailed) else y
    case ReadBack(mode) =>
      if y.core.Reading? then Settle(y, Loaded(mode, y.core.wish)) else y
    case ReadFailed =>
      if y.core.Reading? then y.(core := StartupFailed) else y
    case Completed(c) =>
      if y.core.Ready? then Settle(y, Complete(y.core.preference, c)) else y
  }

  function Without<T>(s: seq<T>, i: nat): seq<T>
    requires i < |s|
  {
    s[..i] + s[i + 1..]
  }

  /** One step; a step that is not enabled changes nothing. */
  function Step(y: System, l: Label): System {
    match l
    case Start =>
      if y.core.NotStarted? then y.(core := OpeningStorage(None), flights := y.flights + [Running(Open)]) else y
    case Ask(change) =>
      (match y.core
       case OpeningStorage(_) => y.(core := OpeningStorage(Some(change)))
       case Reading(_) => y.(core := Reading(Some(change)))
       case Ready(p) => Settle(y, Request(p, change))
       case _ => y)
    case Perform(i, ok) =>
      if i < |y.flights| && y.flights[i].Running? then
        var (stored, answer) := Performed(y.stored, y.flights[i].op, ok);
        y.(stored := stored, flights := y.flights[i := Answered(answer)])
      else y
    case Deliver(i) =>
      if i < |y.flights| && y.flights[i].Answered?
      then
        var answer := y.flights[i].answer;
        var failed := if answer.Completed? then answer.completion in {WriteFailed, DeleteFailed} else y.lastFailed;
        Handle(y.(flights := Without(y.flights, i), lastFailed := failed), answer)
      else y
    case Crash => y.(core := NotStarted, flights := [])
  }

  function Run(y: System, labels: seq<Label>): System {
    if labels == [] then y else Step(Run(y, labels[..|labels| - 1]), labels[|labels| - 1])
  }

  function Begin(stored: Option<Mode>): System {
    System(NotStarted, stored, [], false)
  }

  function ModeStored(stored: Option<Mode>): Mode {
    if stored.Some? then stored.value else Paused
  }

  /** The flight that a core in this state waits for, given what storage holds. */
  ghost predicate WaitsFor(core: Core, stored: Option<Mode>, flights: seq<Flight>) {
    match core
    case NotStarted => flights == []
    case StartupFailed => flights == []
    case OpeningStorage(_) => |flights| == 1 && flights[0] in {Running(Open), Answered(Opened), Answered(OpenFailed)}
    case Reading(_) => |flights| == 1 && flights[0] in {Running(Read), Answered(ReadBack(stored)), Answered(ReadFailed)}
    case Ready(p) =>
      match p.persistence
      case Pending(u) =>
        && |flights| == 1
        && p.effective == Paused
        && (|| (flights[0] == Running(Write(u)) && stored == p.saved)
            || (flights[0].Answered? && flights[0].answer.Completed?
                && Outcome(u, flights[0].answer.completion) == Some(true)
                && stored == u.Stored())
            || (flights[0].Answered? && flights[0].answer.Completed?
                && Outcome(u, flights[0].answer.completion) == Some(false)
                && stored == p.saved))
      case Idle =>
        flights == [] && stored == p.saved && p.effective == p.requested.ModeOf() == ModeStored(stored)
      case Failed =>
        flights == [] && stored == p.saved && p.effective == Paused
  }

  ghost predicate Inv(y: System) {
    && WaitsFor(y.core, y.stored, y.flights)
    && (y.core.Ready? && y.core.preference.persistence.Failed? ==> y.lastFailed)
  }

  lemma StepKeeps(y: System, l: Label)
    requires Inv(y)
    ensures Inv(Step(y, l))
  {
    match l
    case Deliver(i) =>
      if i < |y.flights| { assert Without(y.flights, i) == []; }
    case _ =>
  }

  /**
   * Over every run, with any requests, write failures and crashes: MAM requests are enabled only
   * while storage durably holds "enabled", at most one storage operation is outstanding, and idle
   * persistence means that what applies, what was asked and what is stored agree.
   */
  lemma {:induction false} FailSafe(stored: Option<Mode>, labels: seq<Label>)
    ensures var y := Run(Begin(stored), labels);
      && Inv(y)
      && (Effective(y.core) == Enabled ==> y.stored == Some(Enabled))
      && |y.flights| <= 1
      && (y.core.Ready? && y.core.preference.persistence.Idle? ==>
            y.core.preference.effective == y.core.preference.requested.ModeOf() == ModeStored(y.stored))
      && (y.core.Ready? && y.core.preference.persistence.Failed? ==> y.lastFailed)
  {
    if labels != [] {
      FailSafe(stored, labels[..|labels| - 1]);
      StepKeeps(Run(Begin(stored), labels[..|labels| - 1]), labels[|labels| - 1]);
    }
    hide Step;
  }

  // ---------- Wishes take effect ----------

  /** The outstanding operation is performed with success and its answer delivered; nothing when none is. */
  function Round(y: System): System {
    Step(Step(y, Perform(0, true)), Deliver(0))
  }

  /** No answer on its way tells of a failure. */
  ghost predicate NoneFailed(y: System) {
    forall i :: 0 <= i < |y.flights| && y.flights[i].Answered? ==>
      y.flights[i].answer !in {OpenFailed, ReadFailed, Completed(WriteFailed), Completed(DeleteFailed)}
  }

  /** The wish is stored, applies, and nothing is left to do. */
  ghost predicate Settled(y: System, change: Update) {
    && y.core == Ready(Preference(change.Stored(), change, change.ModeOf(), Idle))
    && Effective(y.core) == change.ModeOf() && y.stored == change.Stored() && y.flights == []
  }

  /** The wish itself is being written, and the write has not failed. */
  ghost predicate WritingWish(y: System, change: Update) {
    && Inv(y) && y.core.Ready? && y.core.preference.requested == change && NoneFailed(y)
    && y.core.preference.persistence == Pending(change)
  }

  lemma OneWriteSettles(y: System, change: Update)
    requires WritingWish(y, change)
    ensures Settled(Round(y), change)
  {
    var p := Step(y, Perform(0, true));
    assert |p.flights| == 1 && p.flights[0].Answered? && Without(p.flights, 0) == [];
  }

  /** A successful round of an older wish either settles the newer one or starts writing it. */
  lemma OlderWriteGivesWay(y: System, change: Update)
    requires Inv(y) && y.core.Ready? && y.core.preference.requested == change && NoneFailed(y)
    requires y.core.preference.persistence.Pending? && y.core.preference.persistence.update != change
    ensures Settled(Round(y), change) || WritingWish(Round(y), change)
  {
    var p := Step(y, Perform(0, true));
    StepKeeps(y, Perform(0, true));
    StepKeeps(p, Deliver(0));
    assert |p.flights| == 1 && p.flights[0].Answered? && Without(p.flights, 0) == [];
  }

  lemma SettledStays(y: System, change: Update)
    requires Settled(y, change)
    ensures Settled(Round(y), change)
  {
  }

  /**
   * From every reachable ready state, after the last wish at most two successful writes store it
   * and make it apply; an enable too, once it is stored.
   */
  lemma TwoWritesSettle(stored: Option<Mode>, labels: seq<Label>, change: Update)
    requires Run(Begin(stored), labels).core.Ready? && NoneFailed(Run(Begin(stored), labels))
    ensures Settled(Round(Round(Step(Run(Begin(stored), labels), Ask(change)))), change)
  {
    var y := Run(Begin(stored), labels);
    FailSafe(stored, labels);
    hide Run;
    var z := Step(y, Ask(change));
    StepKeeps(y, Ask(change));
    AskedOrSettled(y, change);
    hide Step, Inv;
    if Settled(z, change) {
      SettledStays(z, change);
      SettledStays(Round(z), change);
    } else if WritingWish(z, change) {
      OneWriteSettles(z, change);
      SettledStays(Round(z), change);
    } else {
      OlderWriteGivesWay(z, change);
      if WritingWish(Round(z), change) {
        OneWriteSettles(Round(z), change);
      } else {
        SettledStays(Round(z), change);
      }
    }
  }

  lemma AskedOrSettled(y: System, change: Update)
    requires Inv(y) && y.core.Ready? && NoneFailed(y)
    ensures var z := Step(y, Ask(change));
      && Inv(z) && z.core.Ready? && z.core.preference.requested == change && NoneFailed(z)
      && (Settled(z, change) || WritingWish(z, change) ||
          (z.core.preference.persistence.Pending? && z.core.preference.persistence.update != change))
  {
    StepKeeps(y, Ask(change));
  }

  /** Startup: what was stored is read back and applies; a wish made meanwhile is applied on top of it. */
  lemma StartupRestores(stored: Option<Mode>, wish: Option<Update>)
    ensures var asked := if wish.Some? then [Start, Ask(wish.value)] else [Start];
      var z := Round(Round(Run(Begin(stored), asked)));
      && z.core.Ready? && Inv(z) && NoneFailed(z)
      && (wish == None ==>
            && z.core.preference == Preference(stored, Set(ModeStored(stored)), ModeStored(stored), Idle)
            && z.flights == [])
      && (wish != None ==> Settled(Round(z), wish.value))
  {
    var asked := if wish.Some? then [Start, Ask(wish.value)] else [Start];
    StartupOpens(stored, wish);
    var y := System(OpeningStorage(wish), stored, [Running(Open)], false);
    hide Run;
    StartupReads(stored, wish);
    var z := Settle(System(Reading(wish), stored, [], false), Loaded(stored, wish));
    assert Round(Round(y)) == z;
    hide Round;
    if wish.Some? {
      if z.flights == [] {
        SettledStays(z, wish.value);
      } else {
        OneWriteSettles(z, wish.value);
      }
    }
  }

  lemma StartupOpens(stored: Option<Mode>, wish: Option<Update>)
    ensures Run(Begin(stored), if wish.Some? then [Start, Ask(wish.value)] else [Start]) ==
      System(OpeningStorage(wish), stored, [Running(Open)], false)
  {
    assert Run(Begin(stored), []) == Begin(stored);
    assert [Start][..0] == [];
    var begun := System(OpeningStorage(None), stored, [Running(Open)], false);
    assert Run(Begin(stored), [Start]) == begun;
    if wish.Some? {
      var asked := [Start, Ask(wish.value)];
      assert asked[..1] == [Start];
      assert Run(Begin(stored), asked) == Step(begun, Ask(wish.value));
    }
  }

  lemma StartupReads(stored: Option<Mode>, wish: Option<Update>)
    ensures Round(Round(System(OpeningStorage(wish), stored, [Running(Open)], false))) ==
      Settle(System(Reading(wish), stored, [], false), Loaded(stored, wish))
  {
    var y := System(OpeningStorage(wish), stored, [Running(Open)], false);
    assert Without([Answered(Opened)], 0) == [] && Without([Answered(ReadBack(stored))], 0) == [];
    assert Round(y) == System(Reading(wish), stored, [Running(Read)], false);
    hide Loaded;
  }
}
