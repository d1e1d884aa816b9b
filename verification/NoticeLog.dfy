/** The numbered notifications log: ids given in the order notices are decided, and the stored rows. */
module NoticeLog {
  import opened Basics
  import opened Notices

  const LOG_KEPT: nat := 1000

  datatype Dated = Dated(at: Time, notice: Notice)
  datatype Push = Push(entry: Option<nat>, notice: Notice)
  datatype Save = Save(id: nat, dated: Dated, forgetThrough: Option<nat>)

  datatype Log = Waiting(notices: seq<Dated>) | Ready(next: nat) | Unavailable

  /** What recording gives: the log after, the pushes to queue and the rows to save, in order. */
  datatype Recorded = Recorded(log: Log, pushes: seq<Push>, saves: seq<Save>)

  /** The ids forgotten when this one is saved; ids count from 1. */
  function ForgetThrough(id: nat): Option<nat> {
    if id > LOG_KEPT then Some(id - LOG_KEPT) else None
  }

  function Record(log: Log, d: Dated): Recorded {
    match log
    case Waiting(notices) => Recorded(Waiting(notices + [d]), [], [])
    case Ready(next) =>
      Recorded(Ready(next + 1), if d.notice.urgent then [Push(Some(next), d.notice)] else [],
               [Save(next, d, ForgetThrough(next))])
    case Unavailable => Recorded(Unavailable, if d.notice.urgent then [Push(None, d.notice)] else [], [])
  }

  function RecordAll(log: Log, notices: seq<Dated>): Recorded {
    if notices == [] then Recorded(log, [], [])
    else
      var r := RecordAll(log, notices[..|notices| - 1]);
      var last := Record(r.log, notices[|notices| - 1]);
      Recorded(last.log, r.pushes + last.pushes, r.saves + last.saves)
  }

  /** The log's newest id arrives; it is read once. */
  function LogRead(log: Log, last: Option<nat>): Recorded {
    if !log.Waiting? then Recorded(log, [], [])
    else RecordAll(Ready(match last case None => 1 case Some(id) => id + 1), log.notices)
  }

  /** The log cannot be used: urgent waiting notices are pushed without an entry. */
  function LogLost(log: Log): Recorded {
    if log.Waiting? then RecordAll(Unavailable, log.notices) else Recorded(Unavailable, [], [])
  }

  datatype Event = Other | Read(last: Option<nat>) | Lost

  function Handle(log: Log, e: Event): Recorded {
    match e
    case Other => Recorded(log, [], [])
    case Read(last) => LogRead(log, last)
    case Lost => LogLost(log)
  }

  // ---------- Runs ----------

  /** `decided` lists every notice in the order decided; `pushes` and `saves` everything asked for. */
  datatype System = System(log: Log, last: nat, decided: seq<Dated>, pushes: seq<Push>, saves: seq<Save>)

  /** One step: its event, then the notices it decided. */
  datatype Label = Label(event: Event, notices: seq<Dated>)

  function Start(last: nat): System {
    System(Waiting([]), last, [], [], [])
  }

  /** What the store answers when the log is read: its newest id, none when it is empty. */
  function Newest(last: nat): Option<nat> {
    if last == 0 then None else Some(last)
  }

  function Step(y: System, l: Label): System {
    if l.event.Read? && l.event.last != Newest(y.last) then y
    else
      var a := Handle(y.log, l.event);
      var b := RecordAll(a.log, l.notices);
      System(b.log, y.last, y.decided + l.notices, y.pushes + a.pushes + b.pushes, y.saves + a.saves + b.saves)
  }

  function Run(last: nat, labels: seq<Label>): System {
    if labels == [] then Start(last) else Step(Run(last, labels[..|labels| - 1]), labels[|labels| - 1])
  }

  /** The rows saved for these notices when the first takes id `first`. */
  function Numbered(first: nat, notices: seq<Dated>): (saves: seq<Save>)
    ensures |saves| == |notices|
  {
    if notices == [] then []
    else
      var n := |notices| - 1;
      Numbered(first, notices[..n]) + [Save(first + n, notices[n], ForgetThrough(first + n))]
  }

  /** The pushes of the urgent among these notices, the first `numbered` of which have entries from `first` on. */
  function PushesFor(first: nat, notices: seq<Dated>, numbered: nat): seq<Push> {
    if notices == [] then []
    else
      var n := |notices| - 1;
      PushesFor(first, notices[..n], numbered)
        + if !notices[n].notice.urgent then []
          else [Push(if n < numbered then Some(first + n) else None, notices[n].notice)]
  }

  /** Notices after those that were numbered are pushed without an entry. */
  lemma {:induction false} PushesAppend(first: nat, a: seq<Dated>, b: seq<Dated>, numbered: nat)
    requires numbered <= |a|
    ensures PushesFor(first, a + b, numbered) == PushesFor(first, a, numbered) + PushesFor(first + |a|, b, 0)
  {
    if b == [] {
      assert a + b == a;
    } else {
      PushesAppend(first, a, b[..|b| - 1], numbered);
      assert (a + b)[..|a + b| - 1] == a + b[..|b| - 1];
    }
  }

  /** Numbered notices go on from where the numbers were. */
  lemma {:induction false} PushesJoin(first: nat, a: seq<Dated>, b: seq<Dated>)
    ensures PushesFor(first, a + b, |a| + |b|) == PushesFor(first, a, |a|) + PushesFor(first + |a|, b, |b|)
  {
    if b == [] {
      assert a + b == a;
    } else {
      var init := b[..|b| - 1];
      PushesJoin(first, a, init);
      assert (a + b)[..|a + b| - 1] == a + init;
      PushesBeyond(first, a + init, |a| + |init|, |a| + |b|);
      PushesBeyond(first + |a|, init, |init|, |b|);
    }
  }

  /** Entries past the last notice make no difference. */
  lemma {:induction false} PushesBeyond(first: nat, notices: seq<Dated>, a: nat, b: nat)
    requires a >= |notices| && b >= |notices|
    ensures PushesFor(first, notices, a) == PushesFor(first, notices, b)
  {
    if notices != [] { PushesBeyond(first, notices[..|notices| - 1], a, b); }
  }

  lemma {:induction false} NumberedAppend(first: nat, a: seq<Dated>, b: seq<Dated>)
    ensures Numbered(first, a + b) == Numbered(first, a) + Numbered(first + |a|, b)
  {
    if b == [] {
      assert a + b == a;
    } else {
      NumberedAppend(first, a, b[..|b| - 1]);
      assert (a + b)[..|a + b| - 1] == a + b[..|b| - 1];
    }
  }

  lemma {:induction false} NumberedAt(first: nat, notices: seq<Dated>, i: nat)
    requires i < |notices|
    ensures Numbered(first, notices)[i] == Save(first + i, notices[i], ForgetThrough(first + i))
  {
    if i < |notices| - 1 { NumberedAt(first, notices[..|notices| - 1], i); }
  }

  /** A ready log numbers what it is given in order, from its next id. */
  lemma {:induction false} ReadyNumbers(next: nat, notices: seq<Dated>)
    ensures RecordAll(Ready(next), notices) ==
      Recorded(Ready(next + |notices|), PushesFor(next, notices, |notices|), Numbered(next, notices))
  {
    if notices != [] {
      var init, d := notices[..|notices| - 1], notices[|notices| - 1];
      ReadyNumbers(next, init);
      var last := Record(Ready(next + |init|), d);
      var r := RecordAll(Ready(next), init);
      assert RecordAll(Ready(next), notices) == Recorded(last.log, r.pushes + last.pushes, r.saves + last.saves);
      PushesBeyond(next, init, |init|, |notices|);
      hide RecordAll;
    }
  }

  lemma {:induction false} UnavailablePushes(first: nat, notices: seq<Dated>)
    ensures RecordAll(Unavailable, notices) == Recorded(Unavailable, PushesFor(first, notices, 0), [])
  {
    if notices != [] {
      var init, d := notices[..|notices| - 1], notices[|notices| - 1];
      UnavailablePushes(first, init);
      var last := Record(Unavailable, d);
      var r := RecordAll(Unavailable, init);
      assert RecordAll(Unavailable, notices) == Recorded(last.log, r.pushes + last.pushes, r.saves + last.saves);
      hide RecordAll;
      assert r.saves + last.saves == [];
    }
  }

  lemma {:induction false} WaitingKeeps(waiting: seq<Dated>, notices: seq<Dated>)
    ensures RecordAll(Waiting(waiting), notices) == Recorded(Waiting(waiting + notices), [], [])
  {
    if notices == [] {
      assert waiting + [] == waiting;
    } else {
      WaitingKeeps(waiting, notices[..|notices| - 1]);
      assert waiting + notices == waiting + notices[..|notices| - 1] + [notices[|notices| - 1]];
    }
  }

  /** Notices numbered so far are a prefix of those decided, all of them while the log is ready. */
  ghost predicate Inv(y: System) {
    && |y.saves| <= |y.decided| && y.saves == Numbered(y.last + 1, y.decided[..|y.saves|])
    && (y.log.Waiting? ==> y.log.notices == y.decided && y.saves == [] && y.pushes == [])
    && (y.log.Ready? ==> |y.saves| == |y.decided| && y.log.next == y.last + 1 + |y.decided|)
    && (!y.log.Waiting? ==> y.pushes == PushesFor(y.last + 1, y.decided, |y.saves|))
  }

  function Extended(y: System, notices: seq<Dated>, r: Recorded): System {
    System(r.log, y.last, y.decided + notices, y.pushes + r.pushes, y.saves + r.saves)
  }

  lemma RecordWaiting(y: System, notices: seq<Dated>)
    requires Inv(y) && y.log.Waiting?
    ensures Inv(Extended(y, notices, RecordAll(y.log, notices)))
  {
    WaitingKeeps(y.decided, notices);
    hide RecordAll, PushesFor;
    assert (y.decided + notices)[..0] == [];
  }

  /** The state of a ready log is a function of what was decided. */
  function ReadyAfter(last: nat, decided: seq<Dated>): System {
    System(Ready(last + 1 + |decided|), last, decided, PushesFor(last + 1, decided, |decided|),
           Numbered(last + 1, decided))
  }

  lemma ReadyAfterHolds(last: nat, decided: seq<Dated>)
    ensures Inv(ReadyAfter(last, decided))
  {
    hide PushesFor, Numbered;
    assert decided[..|decided|] == decided;
  }

  lemma ReadyIsReadyAfter(y: System)
    requires Inv(y) && y.log.Ready?
    ensures y == ReadyAfter(y.last, y.decided)
  {
    hide PushesFor, Numbered;
    assert y.decided[..|y.decided|] == y.decided;
  }

  lemma ReadyGrows(last: nat, decided: seq<Dated>, notices: seq<Dated>)
    ensures var y := ReadyAfter(last, decided);
      Extended(y, notices, RecordAll(y.log, notices)) == ReadyAfter(last, decided + notices)
  {
    ReadyNumbers(last + 1 + |decided|, notices);
    NumberedAppend(last + 1, decided, notices);
    PushesJoin(last + 1, decided, notices);
    hide RecordAll, PushesFor, Numbered;
  }

  lemma RecordReady(y: System, notices: seq<Dated>)
    requires Inv(y) && y.log.Ready?
    ensures Inv(Extended(y, notices, RecordAll(y.log, notices)))
  {
    ReadyIsReadyAfter(y);
    ReadyGrows(y.last, y.decided, notices);
    ReadyAfterHolds(y.last, y.decided + notices);
    hide RecordAll, PushesFor, Numbered, Inv, ReadyAfter, Extended;
  }

  lemma RecordUnavailable(y: System, notices: seq<Dated>)
    requires Inv(y) && y.log.Unavailable?
    ensures Inv(Extended(y, notices, RecordAll(y.log, notices)))
  {
    var r := RecordAll(y.log, notices);
    UnavailablePushes(y.last + 1 + |y.decided|, notices);
    PushesAppend(y.last + 1, y.decided, notices, |y.saves|);
    assert r.pushes == PushesFor(y.last + 1 + |y.decided|, notices, 0) && r.saves == [];
    hide RecordAll, PushesFor, Numbered;
    assert y.saves + r.saves == y.saves;
    assert (y.decided + notices)[..|y.saves|] == y.decided[..|y.saves|];
  }

  /** Recording more notices keeps the invariant. */
  lemma RecordKeeps(y: System, notices: seq<Dated>)
    requires Inv(y)
    ensures Inv(Extended(y, notices, RecordAll(y.log, notices)))
  {
    match y.log
    case Waiting(_) => RecordWaiting(y, notices);
    case Ready(_) => RecordReady(y, notices);
    case Unavailable => RecordUnavailable(y, notices);
  }

  /** Reading the log numbers what waited; losing it pushes the urgent of it. */
  lemma HandleWaiting(y: System, e: Event)
    requires Inv(y) && y.log.Waiting? && !e.Other? && (e.Read? ==> e.last == Newest(y.last))
    ensures Extended(y, [], Handle(y.log, e)) ==
      if e.Read? then ReadyAfter(y.last, y.decided)
      else System(Unavailable, y.last, y.decided, PushesFor(y.last + 1, y.decided, 0), [])
  {
    ReadyNumbers(y.last + 1, y.decided);
    UnavailablePushes(y.last + 1, y.decided);
    hide RecordAll, PushesFor, Numbered;
    assert y.decided + [] == y.decided;
    var r := Handle(y.log, e);
    assert [] + r.pushes == r.pushes && [] + r.saves == r.saves;
  }

  /** So does the event, which records what waited. */
  lemma HandleKeeps(y: System, e: Event)
    requires Inv(y) && (e.Read? ==> e.last == Newest(y.last))
    ensures Inv(Extended(y, [], Handle(y.log, e)))
  {
    if y.log.Waiting? && !e.Other? {
      HandleWaiting(y, e);
      ReadyAfterHolds(y.last, y.decided);
      assert y.decided[..0] == [] && Numbered(y.last + 1, []) == [];
      hide RecordAll, PushesFor, Numbered, ReadyAfter, Handle, Extended;
    } else {
      var r := Handle(y.log, e);
      assert r.pushes == [] && r.saves == [];
      hide RecordAll, PushesFor, Numbered;
      assert y.pushes + r.pushes == y.pushes && y.saves + r.saves == y.saves && y.decided + [] == y.decided;
    }
  }

  lemma {:induction false} RunKeeps(last: nat, labels: seq<Label>)
    ensures Inv(Run(last, labels)) && Run(last, labels).last == last
  {
    if labels != [] {
      var y, l := Run(last, labels[..|labels| - 1]), labels[|labels| - 1];
      RunKeeps(last, labels[..|labels| - 1]);
      if !(l.event.Read? && l.event.last != Newest(y.last)) {
        var a := Handle(y.log, l.event);
        HandleKeeps(y, l.event);
        assert y.decided + [] == y.decided;
        RecordKeeps(Extended(y, [], a), l.notices);
      }
    }
  }

  /**
   * Over every run: saved notices take consecutive ids from the last stored one, in the order
   * decided, including those that waited; none is skipped while the log is ready; and once the log
   * is read or given up every urgent notice has been queued for pushing, once and in order, with the
   * id its own entry has, if it has one.
   */
  lemma NoticesAreNumberedInOrder(last: nat, labels: seq<Label>)
    ensures var y := Run(last, labels);
      && |y.saves| <= |y.decided|
      && (forall i :: 0 <= i < |y.saves| ==> y.saves[i].id == last + 1 + i && y.saves[i].dated == y.decided[i])
      && (y.log.Ready? ==> |y.saves| == |y.decided|)
      && (!y.log.Waiting? ==> y.pushes == PushesFor(last + 1, y.decided, |y.saves|))
  {
    RunKeeps(last, labels);
    var y := Run(last, labels);
    hide Run, PushesFor;
    forall i | 0 <= i < |y.saves|
      ensures y.saves[i].id == last + 1 + i && y.saves[i].dated == y.decided[i]
    {
      NumberedAt(last + 1, y.decided[..|y.saves|], i);
    }
  }

  // ---------- The stored rows ----------

  type Rows = map<nat, Dated>

  /** Insert the row, and delete the forgotten ones, in one transaction. */
  function SaveNotice(rows: Rows, s: Save): Rows {
    var added := rows[s.id := s.dated];
    match s.forgetThrough
    case None => added
    case Some(through) => map id | id in added && id > through :: added[id]
  }

  function SaveAll(rows: Rows, saves: seq<Save>): Rows {
    if saves == [] then rows else SaveNotice(SaveAll(rows, saves[..|saves| - 1]), saves[|saves| - 1])
  }

  /** The log holds exactly the newest 1000 of the ids up to `last`. */
  ghost predicate HoldsNewest(rows: Rows, last: nat) {
    forall id: nat :: id in rows <==> 1 <= id <= last && id + 1000 > last
  }

  lemma SaveKeepsNewest(rows: Rows, last: nat, d: Dated)
    requires HoldsNewest(rows, last)
    ensures HoldsNewest(SaveNotice(rows, Save(last + 1, d, ForgetThrough(last + 1))), last + 1)
  {
  }

  lemma SaveAllOneMore(rows: Rows, first: nat, notices: seq<Dated>)
    requires notices != []
    ensures var n := |notices| - 1;
      SaveAll(rows, Numbered(first, notices))
      == SaveNotice(SaveAll(rows, Numbered(first, notices[..n])), Save(first + n, notices[n], ForgetThrough(first + n)))
  {
    var n := |notices| - 1;
    assert Numbered(first, notices)[..n] == Numbered(first, notices[..n]);
  }

  /** Saves applied in order leave exactly the newest 1000. */
  lemma {:induction false} LogHoldsTheNewest(rows: Rows, last: nat, notices: seq<Dated>)
    requires HoldsNewest(rows, last)
    ensures HoldsNewest(SaveAll(rows, Numbered(last + 1, notices)), last + |notices|)
  {
    if notices == [] {
      assert Numbered(last + 1, notices) == [];
    } else {
      var init, n := notices[..|notices| - 1], |notices| - 1;
      LogHoldsTheNewest(rows, last, init);
      SaveKeepsNewest(SaveAll(rows, Numbered(last + 1, init)), last + n, notices[n]);
      SaveAllOneMore(rows, last + 1, notices);
      hide Numbered, SaveAll, SaveNotice, HoldsNewest;
    }
  }

  lemma SavedValue(rows: Rows, s: Save, id: nat)
    requires id in SaveNotice(rows, s)
    ensures if id == s.id then SaveNotice(rows, s)[id] == s.dated else id in rows && SaveNotice(rows, s)[id] == rows[id]
  {
  }

  /** And each row kept is the notice that was given its id. */
  lemma {:induction false} LogKeepsWhatWasSaved(rows: Rows, last: nat, notices: seq<Dated>, id: nat)
    requires id in SaveAll(rows, Numbered(last + 1, notices))
    ensures var after := SaveAll(rows, Numbered(last + 1, notices));
      if last < id <= last + |notices| then after[id] == notices[id - last - 1] else id in rows && after[id] == rows[id]
  {
    if notices == [] {
      assert Numbered(last + 1, notices) == [];
    } else {
      var init := notices[..|notices| - 1];
      SaveAllOneMore(rows, last + 1, notices);
      hide Numbered, SaveAll;
      var n, before := |init|, SaveAll(rows, Numbered(last + 1, init));
      SavedValue(before, Save(last + 1 + n, notices[n], ForgetThrough(last + 1 + n)), id);
      hide SaveNotice;
      if id != last + 1 + n {
        LogKeepsWhatWasSaved(rows, last, init, id);
      }
    }
  }

  /**
   * Whatever order saves are applied in, and whichever fail: a saved id stays exactly as long as no
   * save with an id 1000 or more above it is applied after it, and it keeps its notice.
   */
  lemma {:induction false} SavedIdStaysIff(rows: Rows, saves: seq<Save>, i: nat)
    requires forall k :: 0 <= k < |saves| ==> saves[k].forgetThrough == ForgetThrough(saves[k].id)
    requires forall j, k :: 0 <= j < k < |saves| ==> saves[j].id != saves[k].id
    requires i < |saves| && saves[i].id > 0
    ensures saves[i].id in SaveAll(rows, saves) <==>
      forall j :: i < j < |saves| ==> saves[j].id < saves[i].id + 1000
    ensures saves[i].id in SaveAll(rows, saves) ==> SaveAll(rows, saves)[saves[i].id] == saves[i].dated
  {
    var init, last := saves[..|saves| - 1], saves[|saves| - 1];
    var before := SaveAll(rows, init);
    assert SaveAll(rows, saves) == SaveNotice(before, last);
    hide SaveAll;
    if i < |init| {
      SavedIdStaysIff(rows, init, i);
      assert saves[i].id != last.id;
      assert forall j :: 0 <= j < |init| ==> init[j] == saves[j];
    }
  }

  /** So none of the newest 1000 saved is lost. */
  lemma NewestSurviveAnyOrder(rows: Rows, saves: seq<Save>, newest: nat, i: nat)
    requires forall k :: 0 <= k < |saves| ==>
      saves[k].id <= newest && saves[k].forgetThrough == ForgetThrough(saves[k].id)
    requires forall j, k :: 0 <= j < k < |saves| ==> saves[j].id != saves[k].id
    requires i < |saves| && saves[i].id > 0 && saves[i].id + 1000 > newest
    ensures saves[i].id in SaveAll(rows, saves) && SaveAll(rows, saves)[saves[i].id] == saves[i].dated
  {
    SavedIdStaysIff(rows, saves, i);
  }
}
