/** A dashboard setting: one save at a time, converging to the last request. */
module Settings {
  import opened Basics

  datatype Persistence<T> = Idle | Pending(value: T) | Failed

  datatype Setting<T> = Setting(saved: T, requested: T, persistence: Persistence<T>)

  /** A new request, and the value to save, if any. */
  function Request<T(==)>(s: Setting<T>, value: T): (Setting<T>, Option<T>) {
    var q := s.(requested := value);
    if s.persistence.Pending? then (q, None)
    else if value == s.saved then (q.(persistence := Idle), None)
    else (q.(persistence := Pending(value)), Some(value))
  }

  function Complete<T(==)>(s: Setting<T>, succeeded: bool): (Setting<T>, Option<T>) {
    if !s.persistence.Pending? then (s, None)
    else
      var pending := s.persistence.value;
      var q := s.(saved := if succeeded then pending else s.saved, persistence := if succeeded then Idle else Failed);
      if pending == s.requested then (q, None) else Request(q, s.requested)
  }

  /** Saving a replacement failed: the saved value stays in use, unless the owner asked for another meanwhile. */
  function ReplacementFailed<T(==)>(s: Setting<T>): (Setting<T>, Option<T>) {
    if s.persistence.Pending? && s.persistence.value == s.requested
    then (s.(requested := s.saved, persistence := Idle), None)
    else Complete(s, false)
  }

  /** The API cookie that may be used: saved, with no replacement pending or failed. */
  function UsableCookie<C>(s: Setting<Option<C>>): Option<C> {
    if s.persistence.Idle? then s.saved else None
  }

  // ---------- The setting as the object the core updates ----------

  class SettingCell<T(==)> {
    var saved: T
    var requested: T
    var persistence: Persistence<T>

    ghost function View(): Setting<T>
      reads this
    {
      Setting(saved, requested, persistence)
    }

    constructor (value: T)
      ensures View() == Setting(value, value, Idle)
    {
      saved, requested, persistence := value, value, Idle;
    }

    method RequestValue(value: T) returns (save: Option<T>)
      modifies this
      ensures (View(), save) == Request(old(View()), value)
    {
      requested := value;
      if persistence.Pending? {
        return None;
      }
      if value == saved {
        persistence := Idle;
        return None;
      }
      persistence := Pending(value);
      return Some(value);
    }

    method CompleteSave(succeeded: bool) returns (save: Option<T>)
      modifies this
      ensures (View(), save) == Complete(old(View()), succeeded)
    {
      if !persistence.Pending? {
        return None;
      }
      var pending := persistence.value;
      if succeeded {
        saved := pending;
      }
      persistence := if succeeded then Idle else Failed;
      if pending == requested {
        return None;
      }
      save := RequestValue(requested);
    }

    method FailReplacement() returns (save: Option<T>)
      modifies this
      ensures (View(), save) == ReplacementFailed(old(View()))
    {
      if persistence.Pending? && persistence.value == requested {
        requested := saved;
        persistence := Idle;
        return None;
      }
      save := CompleteSave(false);
    }
  }

  // ---------- The setting with its storage, failures and crashes ----------

  /** A save the shell runs, then its one answer; a rotated cookie's save answers by its own events. */
  datatype Flight<T> = Running(value: T, rotated: bool) | Done(ok: bool, rotated: bool)

  datatype System<T> = System(setting: Setting<T>, stored: T, flights: seq<Flight<T>>)

  datatype Label<T> = Ask(value: T) | Rotate(value: T) | Perform(i: nat, succeeds: bool) | Deliver(i: nat) | Restart

  function Emit<T>(y: System<T>, result: (Setting<T>, Option<T>), rotated: bool): System<T> {
    y.(setting := result.0, flights := y.flights + (if result.1.Some? then [Running(result.1.value, rotated)] else []))
  }

  function Step<T(==)>(y: System<T>, l: Label<T>): System<T> {
    match l
    case Ask(value) => Emit(y, Request(y.setting, value), false)
    case Rotate(value) => Emit(y, Request(y.setting, value), true)
    case Perform(i, ok) =>
      if i < |y.flights| && y.flights[i].Running? then
        var f := y.flights[i];
        y.(stored := if ok then f.value else y.stored, flights := y.flights[i := Done(ok, f.rotated)])
      else y
    case Deliver(i) =>
      if i < |y.flights| && y.flights[i].Done? then
        var f := y.flights[i];
        var z := y.(flights := y.flights[..i] + y.flights[i + 1..]);
        if f.rotated && !f.ok then Emit(z, ReplacementFailed(z.setting), false)
        else Emit(z, Complete(z.setting, f.ok), false)
      else y
    case Restart => System(Setting(y.stored, y.stored, Idle), y.stored, [])
  }

  function Run<T(==)>(y: System<T>, labels: seq<Label<T>>): System<T> {
    if labels == [] then y else Step(Run(y, labels[..|labels| - 1]), labels[|labels| - 1])
  }

  ghost predicate Inv<T>(y: System<T>) {
    match y.setting.persistence
    case Pending(v) =>
      && |y.flights| == 1
      && (match y.flights[0]
          case Running(w, _) => w == v && y.stored == y.setting.saved
          case Done(ok, _) => y.stored == if ok then v else y.setting.saved)
    case Idle => y.flights == [] && y.stored == y.setting.saved == y.setting.requested
    case Failed => y.flights == [] && y.stored == y.setting.saved
  }

  lemma StepKeeps<T>(y: System<T>, l: Label<T>)
    requires Inv(y)
    ensures Inv(Step(y, l))
  {
    match l
    case Deliver(i) =>
      if i < |y.flights| { assert y.flights[..i] + y.flights[i + 1..] == []; }
    case _ =>
  }

  /**
   * Over every run: one save at a time, and without one `saved` is what storage holds; idle means saved
   * as requested.
   */
  lemma {:induction false} SavedIsStored<T>(value: T, labels: seq<Label<T>>)
    ensures var y := Run(System(Setting(value, value, Idle), value, []), labels);
      && Inv(y)
      && |y.flights| <= 1
      && (!y.setting.persistence.Pending? ==> y.setting.saved == y.stored)
      && (y.setting.persistence.Idle? ==> y.setting.saved == y.setting.requested)
  {
    if labels != [] {
      SavedIsStored(value, labels[..|labels| - 1]);
      StepKeeps(Run(System(Setting(value, value, Idle), value, []), labels[..|labels| - 1]), labels[|labels| - 1]);
    }
    hide Step;
  }

  /**
   * A usable cookie is both the stored and the requested one, whatever failed before; and whenever no
   * replacement is pending or failed the stored cookie is usable.
   */
  lemma UsableCookieIsStored<C>(cookie: Option<C>, labels: seq<Label<Option<C>>>)
    ensures var y := Run(System(Setting(cookie, cookie, Idle), cookie, []), labels);
      && (UsableCookie(y.setting).Some? ==> y.stored == y.setting.requested == UsableCookie(y.setting))
      && (y.setting.persistence.Idle? ==> UsableCookie(y.setting) == y.stored)
  {
    SavedIsStored(cookie, labels);
  }

  /** A save that succeeds and whose completion is handled; nothing when none is outstanding. */
  function Round<T(==)>(y: System<T>): System<T> {
    Step(Step(y, Perform(0, true)), Deliver(0))
  }

  /** The save outstanding, if any, has not failed. */
  ghost predicate NoneFailed<T>(y: System<T>) {
    forall i :: 0 <= i < |y.flights| && y.flights[i].Done? ==> y.flights[i].ok
  }

  /** After the last request, at most two successful saves store it and leave the setting idle. */
  lemma TwoSavesSettle<T>(y: System<T>, value: T)
    requires Inv(y) && NoneFailed(y)
    ensures var z := Round(Round(Step(y, Ask(value))));
      z.setting == Setting(value, value, Idle) && z.stored == value && z.flights == []
  {
    var a := Step(y, Ask(value));
    StepKeeps(y, Ask(value));
    RoundSettles(a);
    StepKeeps(a, Perform(0, true));
    StepKeeps(Step(a, Perform(0, true)), Deliver(0));
    RoundSettles(Round(a));
  }

  /** One successful save either settles the setting or starts saving the request itself. */
  lemma RoundSettles<T>(y: System<T>)
    requires Inv(y) && !y.setting.persistence.Failed? && NoneFailed(y)
    ensures var z := Round(y);
      && z.setting.requested == y.setting.requested
      && (z.setting.persistence.Idle? || z.setting.persistence == Pending(y.setting.requested))
      && (y.setting.persistence.Idle? || y.setting.persistence == Pending(y.setting.requested) ==>
          z.setting.persistence.Idle?)
      && NoneFailed(z)
  {
    if y.setting.persistence.Pending? {
      var p := Step(y, Perform(0, true));
      assert p.flights[0].Done? && p.flights[0].ok;
      assert p.flights[..0] + p.flights[1..] == [];
    }
  }

  /** A save that fails and whose failure is handled. */
  function FailingRound<T(==)>(y: System<T>): System<T> {
    Step(Step(y, Perform(0, false)), Deliver(0))
  }

  /**
   * When a rotated cookie cannot be saved, the saved one stays requested and in use; unless the
   * owner asked for another meanwhile, which is then saved instead.
   */
  lemma FailedRotationKeepsCookie<T>(value: T, rotated: T)
    requires rotated != value
    ensures var y := System(Setting(value, value, Idle), value, []);
      FailingRound(Step(y, Rotate(rotated))) == y
    ensures forall other ::
      var y := System(Setting(value, value, Idle), value, []);
      var z := FailingRound(Step(Step(y, Rotate(rotated)), Ask(other)));
      other != rotated && other != value ==>
        z.setting == Setting(value, other, Pending(other)) && z.flights == [Running(other, false)]
  {
  }

  /** A save that fails is reported as failed and changes neither what is saved nor what was asked for. */
  lemma FailedSaveIsReported<T>(value: T, asked: T)
    requires asked != value
    ensures var y := System(Setting(value, value, Idle), value, []);
      FailingRound(Step(y, Ask(asked))) == System(Setting(value, asked, Failed), value, [])
  {
  }
}
