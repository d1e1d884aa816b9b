/**
 * Lasting conditions: each is told to the owner once it has held for its grace period, and again
 * when it clears; one timer wakes the core when the earliest grace ends.
 */
module Alarms {
  import opened Basics
  import opened Notices

  datatype Condition =
    | VpnProtection | FailoverBlocked | ForwardedPort | QbittorrentReachable | QbittorrentVersion
    | TorrentErrors | FilesMissing | TorrentsMissing | RegistrySave | MamSession | SeedboxRegistration
    | MamIp | Ratio | UnsatisfiedLimit | UnsatisfiedNotSeeding | MamFlags | MamMessages | DownloadsHeld
    | Wedges | PointsReserve | VipEnding | DownloadsRefused | SeedingBehind | MamClient | Connectable
    | PurchaseUnresolved

  /** How long a condition must hold before the owner is told. */
  function Grace(c: Condition): (g: Time)
    ensures g >= 0
  {
    match c
    case MamIp => 15 * MINUTE
    case UnsatisfiedNotSeeding => 30 * MINUTE
    case DownloadsHeld => 30 * MINUTE
    case RegistrySave => 2 * MINUTE
    case ForwardedPort => 5 * MINUTE
    case QbittorrentReachable => 5 * MINUTE
    case TorrentErrors => 5 * MINUTE
    case FilesMissing => 10 * MINUTE
    case TorrentsMissing => 10 * MINUTE
    case _ => 0
  }

  /** Nine conditions are given time before the owner is told; the others are told at once. */
  lemma GracePeriods(c: Condition)
    ensures Grace(c) == 2 * MINUTE <==> c == RegistrySave
    ensures Grace(c) == 5 * MINUTE <==> c in {ForwardedPort, QbittorrentReachable, TorrentErrors}
    ensures Grace(c) == 10 * MINUTE <==> c in {FilesMissing, TorrentsMissing}
    ensures Grace(c) == 15 * MINUTE <==> c == MamIp
    ensures Grace(c) == 30 * MINUTE <==> c in {UnsatisfiedNotSeeding, DownloadsHeld}
    ensures Grace(c) in {0, 2 * MINUTE, 5 * MINUTE, 10 * MINUTE, 15 * MINUTE, 30 * MINUTE}
  {
  }

  datatype Status = Active(notice: Notice) | Clear(cleared: Option<Notice>) | Unchanged
  datatype Phase = Pending(since: Time) | Raised

  type Conditions = map<Condition, Phase>

  function PhaseOf(conditions: Conditions, c: Condition): Option<Phase> {
    if c in conditions then Some(conditions[c]) else None
  }

  function With(conditions: Conditions, c: Condition, phase: Option<Phase>): Conditions {
    match phase
    case Some(p) => conditions[c := p]
    case None => conditions - {c}
  }

  /** Follow one condition through one step. */
  function Next(phase: Option<Phase>, grace: Time, now: Time, status: Status): Option<Phase> {
    match (phase, status)
    case (None, Active(_)) => Some(if grace == 0 then Raised else Pending(now))
    case (Some(Pending(since)), Active(_)) => Some(if Since(now, since) >= grace then Raised else Pending(since))
    case (_, Clear(_)) => None
    case _ => phase
  }

  /** What the owner is told of it. */
  function Told(phase: Option<Phase>, grace: Time, now: Time, status: Status): Option<Notice> {
    match status
    case Active(notice) =>
      if phase != Some(Raised) && Next(phase, grace, now, status) == Some(Raised) then Some(notice) else None
    case Clear(notice) => if phase == Some(Raised) then notice else None
    case Unchanged => None
  }

  datatype Assessment = Assessment(condition: Condition, status: Status)

  function TrackOne(conditions: Conditions, now: Time, a: Assessment): Conditions {
    With(conditions, a.condition, Next(PhaseOf(conditions, a.condition), Grace(a.condition), now, a.status))
  }

  function Track(conditions: Conditions, now: Time, seen: seq<Assessment>): Conditions {
    if seen == [] then conditions
    else TrackOne(Track(conditions, now, seen[..|seen| - 1]), now, seen[|seen| - 1])
  }

  /** The notices given while tracking, in order. */
  function Tells(conditions: Conditions, now: Time, seen: seq<Assessment>): seq<Notice> {
    if seen == [] then []
    else
      var a := seen[|seen| - 1];
      var before := PhaseOf(Track(conditions, now, seen[..|seen| - 1]), a.condition);
      Tells(conditions, now, seen[..|seen| - 1])
        + (match Told(before, Grace(a.condition), now, a.status) case Some(n) => [n] case None => [])
  }

  // ---------- One condition's whole history ----------

  datatype Seen = Seen(at: Time, status: Status)

  function PhaseAfter(grace: Time, h: seq<Seen>): Option<Phase> {
    if h == [] then None
    else
      var last := h[|h| - 1];
      Next(PhaseAfter(grace, h[..|h| - 1]), grace, last.at, last.status)
  }

  /** Where the current episode may start: after the last time the condition was seen clear. */
  function AfterClear(h: seq<Seen>): (k: nat)
    ensures k <= |h|
    ensures forall i :: k <= i < |h| ==> !h[i].status.Clear?
    ensures k > 0 ==> h[k - 1].status.Clear?
  {
    if h == [] then 0 else if h[|h| - 1].status.Clear? then |h| else AfterClear(h[..|h| - 1])
  }

  /** The first sighting from `from` on that the condition holds. */
  function FirstActive(h: seq<Seen>, from: nat): (k: nat)
    requires from <= |h|
    ensures from <= k <= |h|
    ensures forall i :: from <= i < k ==> !h[i].status.Active?
    ensures k < |h| ==> h[k].status.Active?
    decreases |h| - from
  {
    if from == |h| || h[from].status.Active? then from else FirstActive(h, from + 1)
  }

  /** It was seen to hold at or after `first`, its grace period or more after `first`. */
  ghost predicate HeldThrough(grace: Time, h: seq<Seen>, first: nat)
    requires first < |h|
  {
    exists i :: first <= i < |h| && h[i].status.Active? && Since(h[i].at, h[first].at) >= grace
  }

  lemma FirstActiveOfPrefix(h: seq<Seen>, from: nat)
    requires from < |h|
    ensures var init, last := h[..|h| - 1], h[|h| - 1];
      FirstActive(h, from) == if FirstActive(init, from) < |init| || last.status.Active?
        then FirstActive(init, from) else |h|
    decreases |h| - from
  {
    var init := h[..|h| - 1];
    var k := FirstActive(init, from);
    assert forall i :: 0 <= i < |init| ==> init[i] == h[i];
  }

  lemma HeldThroughOfPrefix(grace: Time, h: seq<Seen>, first: nat)
    requires first < |h| - 1
    ensures var init, last := h[..|h| - 1], h[|h| - 1];
      HeldThrough(grace, h, first) <==>
        HeldThrough(grace, init, first) || (last.status.Active? && Since(last.at, h[first].at) >= grace)
  {
    var init := h[..|h| - 1];
    assert forall i :: 0 <= i < |init| ==> init[i] == h[i];
    if HeldThrough(grace, init, first) {
      var i :| first <= i < |init| && init[i].status.Active? && Since(init[i].at, init[first].at) >= grace;
      assert h[i].status.Active?;
    }
  }

  /**
   * A condition is raised exactly when, since it was last seen clear, it was first seen to hold
   * at some moment and seen to hold again its grace or more later; until then it is pending from
   * that first moment; and it is neither exactly when it was not seen to hold since it last cleared.
   */
  lemma {:induction false} RaisedExactlyWhenHeld(grace: Time, h: seq<Seen>)
    requires grace >= 0
    ensures var first := FirstActive(h, AfterClear(h));
      PhaseAfter(grace, h) ==
        if first == |h| then None else if HeldThrough(grace, h, first) then Some(Raised) else Some(Pending(h[first].at))
  {
    if h != [] {
      var init, last := h[..|h| - 1], h[|h| - 1];
      RaisedExactlyWhenHeld(grace, init);
      if !last.status.Clear? {
        var b := AfterClear(init);
        FirstActiveOfPrefix(h, b);
        var first := FirstActive(h, b);
        if first < |h| - 1 {
          HeldThroughOfPrefix(grace, h, first);
        } else if first == |h| - 1 {
          assert HeldThrough(grace, h, first) <==> grace == 0 by {
            if grace == 0 { assert h[first].status.Active? && Since(h[first].at, h[first].at) >= grace; }
          }
        }
      }
    }
  }

  predicate RaisedAt(grace: Time, h: seq<Seen>, i: nat)
    requires i < |h|
  {
    PhaseAfter(grace, h[..i]) != Some(Raised) && PhaseAfter(grace, h[..i + 1]) == Some(Raised)
  }

  predicate ClearedAt(grace: Time, h: seq<Seen>, i: nat)
    requires i < |h|
  {
    PhaseAfter(grace, h[..i]) == Some(Raised) && PhaseAfter(grace, h[..i + 1]) != Some(Raised)
  }

  /** How often it was raised, and cleared after that. */
  function Raises(grace: Time, h: seq<Seen>, n: nat): nat
    requires n <= |h|
  {
    if n == 0 then 0 else Raises(grace, h, n - 1) + if RaisedAt(grace, h, n - 1) then 1 else 0
  }

  function Clears(grace: Time, h: seq<Seen>, n: nat): nat
    requires n <= |h|
  {
    if n == 0 then 0 else Clears(grace, h, n - 1) + if ClearedAt(grace, h, n - 1) then 1 else 0
  }

  /** Raises and clears alternate, a raise first: at every moment the raises lead by one exactly while raised. */
  lemma {:induction false} RaisesAndClearsAlternate(grace: Time, h: seq<Seen>, n: nat)
    requires n <= |h|
    ensures Raises(grace, h, n) == Clears(grace, h, n) + if PhaseAfter(grace, h[..n]) == Some(Raised) then 1 else 0
  {
    if n == 0 {
      assert h[..0] == [];
    } else {
      RaisesAndClearsAlternate(grace, h, n - 1);
    }
  }

  /** A raise is announced with the notice of that sighting, exactly once, and nothing else is until it clears. */
  lemma ToldOnRaiseAndClear(grace: Time, h: seq<Seen>, i: nat)
    requires i < |h|
    ensures var told := Told(PhaseAfter(grace, h[..i]), grace, h[i].at, h[i].status);
      && (RaisedAt(grace, h, i) ==> h[i].status.Active? && told == Some(h[i].status.notice))
      && (ClearedAt(grace, h, i) ==> h[i].status.Clear? && told == h[i].status.cleared)
      && (!RaisedAt(grace, h, i) && !ClearedAt(grace, h, i) ==> told == None)
  {
    assert h[..i + 1][..i] == h[..i];
  }

  // ---------- All conditions together ----------

  datatype Sighting = Sighting(now: Time, seen: seq<Assessment>)

  function TrackRun(steps: seq<Sighting>): Conditions {
    if steps == [] then map[]
    else
      var last := steps[|steps| - 1];
      Track(TrackRun(steps[..|steps| - 1]), last.now, last.seen)
  }

  /** What one step saw of a condition. */
  function SeenOf(c: Condition, now: Time, seen: seq<Assessment>): seq<Seen> {
    if seen == [] then []
    else
      var a := seen[|seen| - 1];
      SeenOf(c, now, seen[..|seen| - 1]) + if a.condition == c then [Seen(now, a.status)] else []
  }

  function HistoryOf(c: Condition, steps: seq<Sighting>): seq<Seen> {
    if steps == [] then []
    else
      var last := steps[|steps| - 1];
      HistoryOf(c, steps[..|steps| - 1]) + SeenOf(c, last.now, last.seen)
  }

  lemma TrackOneAlone(c: Condition, conditions: Conditions, now: Time, a: Assessment)
    ensures PhaseOf(TrackOne(conditions, now, a), c) ==
      if a.condition == c then Next(PhaseOf(conditions, c), Grace(c), now, a.status) else PhaseOf(conditions, c)
  {
    hide Grace, Next;
  }

  lemma {:induction false} TrackFollows(
      c: Condition, conditions: Conditions, now: Time, seen: seq<Assessment>, h: seq<Seen>)
    requires PhaseOf(conditions, c) == PhaseAfter(Grace(c), h)
    ensures PhaseOf(Track(conditions, now, seen), c) == PhaseAfter(Grace(c), h + SeenOf(c, now, seen))
  {
    hide Grace, Next;
    if seen == [] {
      assert h + [] == h;
    } else {
      var a, init := seen[|seen| - 1], seen[..|seen| - 1];
      TrackFollows(c, conditions, now, init, h);
      TrackOneAlone(c, Track(conditions, now, init), now, a);
      hide TrackOne, PhaseOf;
      var before := h + SeenOf(c, now, init);
      if a.condition == c {
        assert h + SeenOf(c, now, seen) == before + [Seen(now, a.status)];
        hide SeenOf;
        assert (before + [Seen(now, a.status)])[..|before|] == before;
      } else {
        assert SeenOf(c, now, seen) == SeenOf(c, now, init);
        hide SeenOf, PhaseAfter;
      }
    }
  }

  /** Conditions do not disturb each other: each one's phase is its own history's. */
  lemma {:induction false} EachConditionAlone(c: Condition, steps: seq<Sighting>)
    ensures PhaseOf(TrackRun(steps), c) == PhaseAfter(Grace(c), HistoryOf(c, steps))
  {
    if steps != [] {
      var last := steps[|steps| - 1];
      EachConditionAlone(c, steps[..|steps| - 1]);
      TrackFollows(c, TrackRun(steps[..|steps| - 1]), last.now, last.seen, HistoryOf(c, steps[..|steps| - 1]));
    }
  }

  /** What the owner is told when this is seen after these sightings of a condition. */
  function ToldAfter(grace: Time, h: seq<Seen>, next: Seen): seq<Notice> {
    var all := h + [next];
    if next.status.Active? && RaisedAt(grace, all, |h|) then [next.status.notice]
    else if next.status.Clear? && ClearedAt(grace, all, |h|) && next.status.cleared.Some?
    then [next.status.cleared.value]
    else []
  }

  /**
   * In every run the owner is told of each sighting, in order, what the condition's own sightings up
   * to it warrant: that it was raised, or that it cleared.
   */
  lemma OwnerIsToldInOrder(steps: seq<Sighting>, now: Time, seen: seq<Assessment>, k: nat)
    requires k < |seen|
    ensures var a := seen[k]; var h := HistoryOf(a.condition, steps) + SeenOf(a.condition, now, seen[..k]);
      Tells(TrackRun(steps), now, seen[..k + 1]) ==
        Tells(TrackRun(steps), now, seen[..k]) + ToldAfter(Grace(a.condition), h, Seen(now, a.status))
  {
    var a, conditions := seen[k], TrackRun(steps);
    var c := a.condition;
    var h := HistoryOf(c, steps) + SeenOf(c, now, seen[..k]);
    EachConditionAlone(c, steps);
    TrackFollows(c, conditions, now, seen[..k], HistoryOf(c, steps));
    assert seen[..k + 1][..k] == seen[..k];
    var all := h + [Seen(now, a.status)];
    assert all[..|h|] == h && all[..|h| + 1] == all;
    ToldOnRaiseAndClear(Grace(c), all, |h|);
    hide Grace, Next, Told, PhaseAfter, Track, SeenOf, HistoryOf;
  }

  // ---------- The grace timer ----------

  function Due(conditions: Conditions, c: Condition): Option<Time> {
    match PhaseOf(conditions, c)
    case Some(Pending(since)) => Some(since + Grace(c))
    case _ => None
  }

  function Earlier(a: Option<Time>, b: Option<Time>): Option<Time> {
    match (a, b)
    case (None, _) => b
    case (_, None) => a
    case (Some(x), Some(y)) => Some(if x <= y then x else y)
  }

  /** `due` is the earliest end of grace among these conditions. */
  ghost predicate IsEarliest(conditions: Conditions, among: set<Condition>, due: Option<Time>) {
    && (forall c :: c in among && Due(conditions, c).Some? ==> due.Some? && due.value <= Due(conditions, c).value)
    && (due.Some? ==> exists c :: c in among && Due(conditions, c) == due)
  }

  ghost function Earliest(conditions: Conditions): (due: Option<Time>)
    ensures IsEarliest(conditions, conditions.Keys, due)
  {
    EarliestAmong(conditions, conditions.Keys)
  }

  ghost function EarliestAmong(conditions: Conditions, among: set<Condition>): (due: Option<Time>)
    ensures IsEarliest(conditions, among, due)
  {
    if among == {} then None
    else
      var c :| c in among;
      var rest := EarliestAmong(conditions, among - {c});
      EarliestWith(conditions, among - {c}, rest, c);
      assert among == (among - {c}) + {c};
      Earlier(rest, Due(conditions, c))
  }

  lemma EarliestWith(conditions: Conditions, among: set<Condition>, due: Option<Time>, c: Condition)
    requires IsEarliest(conditions, among, due)
    ensures IsEarliest(conditions, among + {c}, Earlier(due, Due(conditions, c)))
  {
    hide Due;
    if due.Some? {
      var d :| d in among && Due(conditions, d) == due;
      assert d in among + {c};
    }
    assert c in among + {c};
  }

  lemma EarliestUnique(conditions: Conditions, among: set<Condition>, a: Option<Time>, b: Option<Time>)
    requires IsEarliest(conditions, among, a) && IsEarliest(conditions, among, b)
    ensures a == b
  {
    hide Due;
  }

  datatype GraceTimer = GraceTimer(id: nat, due: Time)

  /** `next` is the next timer identity. */
  datatype Watch = Watch(conditions: Conditions, timer: Option<GraceTimer>, next: nat)

  /** A timer running in the shell: when it was started and when it rings. */
  datatype Live = Live(id: nat, armed: Time, at: Time)

  function Expired(w: Watch, id: nat): Watch {
    if w.timer.Some? && w.timer.value.id == id then w.(timer := None) else w
  }

  ghost predicate Schedules(w: Watch) {
    Earliest(w.conditions).Some? && !(w.timer.Some? && w.timer.value.due == Earliest(w.conditions).value)
  }

  ghost function Schedule(w: Watch): Watch {
    if Schedules(w)
    then w.(timer := Some(GraceTimer(w.next, Earliest(w.conditions).value)), next := w.next + 1)
    else w
  }

  /** The timer a scheduling step starts: due at the end of the earliest grace, or at once. */
  ghost function Starts(w: Watch, now: Time): Live
    requires Schedules(w)
  {
    var due := Earliest(w.conditions).value;
    Live(w.next, now, now + Since(due, now))
  }

  datatype System = System(watch: Watch, live: Option<Live>, rung: set<nat>)

  datatype Label =
    | Sees(now: Time, expired: Option<nat>, seen: seq<Assessment>)
    | Rings
    | Spends(ids: nat)

  /** The shell's one grace timer rings, and its expiry waits in the queue; starting a timer replaces it. */
  ghost function Step(y: System, l: Label): System {
    match l
    case Rings =>
      (match y.live case None => y case Some(t) => y.(live := None, rung := y.rung + {t.id}))
    case Spends(ids) => y.(watch := y.watch.(next := y.watch.next + ids))
    case Sees(now, expired, seen) =>
      if expired.Some? && expired.value !in y.rung then y
      else
        var rung := if expired.Some? then y.rung - {expired.value} else y.rung;
        var w := if expired.Some? then Expired(y.watch, expired.value) else y.watch;
        var tracked := w.(conditions := Track(w.conditions, now, seen));
        System(Schedule(tracked), if Schedules(tracked) then Some(Starts(tracked, now)) else y.live, rung)
  }

  const START: System := System(Watch(map[], None, 0), None, {})

  ghost function Run(labels: seq<Label>): System {
    if labels == [] then START else Step(Run(labels[..|labels| - 1]), labels[|labels| - 1])
  }

  /**
   * The timer will still wake the core: it rang already, or it runs and rings when due, or at once if
   * started later.
   */
  ghost predicate Wakes(y: System, timer: GraceTimer) {
    || timer.id in y.rung
    || (y.live.Some? && y.live.value.id == timer.id
        && y.live.value.at == if timer.due >= y.live.value.armed then timer.due else y.live.value.armed)
  }

  ghost predicate Inv(y: System) {
    && (forall id :: id in y.rung ==> id < y.watch.next)
    && (y.live.Some? ==> y.live.value.id < y.watch.next)
    && (y.watch.timer.Some? ==> y.watch.timer.value.id < y.watch.next && Wakes(y, y.watch.timer.value))
    && (Earliest(y.watch.conditions).Some? ==>
        y.watch.timer.Some? && y.watch.timer.value.due == Earliest(y.watch.conditions).value)
  }

  lemma StepKeeps(y: System, l: Label)
    requires Inv(y)
    ensures Inv(Step(y, l))
  {
    hide Earliest, Track;
  }

  lemma {:induction false} RunKeeps(labels: seq<Label>)
    ensures Inv(Run(labels))
  {
    if labels == [] {
      assert Earliest(START.watch.conditions) == None;
    } else {
      RunKeeps(labels[..|labels| - 1]);
      StepKeeps(Run(labels[..|labels| - 1]), labels[|labels| - 1]);
    }
  }

  /**
   * Over every run, while any condition is pending the grace timer stands for the earliest end of
   * grace among them, and it wakes the core then, or at once when it was started later than that.
   */
  lemma PendingAlarmsAreWatched(labels: seq<Label>, c: Condition)
    requires PhaseOf(Run(labels).watch.conditions, c).Some? && PhaseOf(Run(labels).watch.conditions, c).value.Pending?
    ensures var y := Run(labels);
      && y.watch.timer.Some? && Wakes(y, y.watch.timer.value)
      && y.watch.timer.value.due <= Due(y.watch.conditions, c).value
      && IsEarliest(y.watch.conditions, y.watch.conditions.Keys, Some(y.watch.timer.value.due))
  {
    RunKeeps(labels);
    var y := Run(labels);
    assert IsEarliest(y.watch.conditions, y.watch.conditions.Keys, Earliest(y.watch.conditions));
    assert c in y.watch.conditions.Keys && Due(y.watch.conditions, c).Some?;
  }

  // ---------- A condition no longer reported ----------

  /** Nothing new is known of the condition in this step. */
  ghost predicate OnlyUnchanged(seen: seq<Assessment>, c: Condition) {
    forall i :: 0 <= i < |seen| && seen[i].condition == c ==> seen[i].status.Unchanged?
  }

  lemma {:induction false} UnchangedStays(conditions: Conditions, now: Time, seen: seq<Assessment>, c: Condition)
    requires OnlyUnchanged(seen, c)
    ensures PhaseOf(Track(conditions, now, seen), c) == PhaseOf(conditions, c)
  {
    if seen != [] {
      var init, last := seen[..|seen| - 1], seen[|seen| - 1];
      UnchangedStays(conditions, now, init, c);
      TrackOneAlone(c, Track(conditions, now, init), now, last);
      hide TrackOne, PhaseOf;
    }
  }

  lemma DueNextWasUnchanged(phase: Option<Phase>, grace: Time, now: Time, status: Status, since: Time)
    requires Next(phase, grace, now, status) == Some(Pending(since)) && since + grace <= now && grace >= 0
    ensures status.Unchanged? && phase == Some(Pending(since))
  {
  }

  /** A condition due after a step was due before it, and the step learnt nothing of it. */
  lemma {:induction false} DueWasUnchanged(
      conditions: Conditions, now: Time, seen: seq<Assessment>, c: Condition, since: Time)
    requires PhaseOf(Track(conditions, now, seen), c) == Some(Pending(since)) && since + Grace(c) <= now
    ensures OnlyUnchanged(seen, c) && PhaseOf(conditions, c) == Some(Pending(since))
  {
    if seen != [] {
      var init, last := seen[..|seen| - 1], seen[|seen| - 1];
      var before := Track(conditions, now, init);
      TrackOneAlone(c, before, now, last);
      assert Track(conditions, now, seen) == TrackOne(before, now, last);
      hide TrackOne, PhaseOf, Grace, Track, Next;
      if last.condition == c {
        DueNextWasUnchanged(PhaseOf(before, c), Grace(c), now, last.status, since);
      }
      DueWasUnchanged(conditions, now, init, c, since);
      forall i | 0 <= i < |seen| && seen[i].condition == c ensures seen[i].status.Unchanged? {
        if i < |init| { assert init[i] == seen[i]; }
      }
    }
  }

  /** The conditions pending before a step whose grace has ended, and of which the step says nothing. */
  ghost predicate OverdueAndUnchanged(conditions: Conditions, now: Time, seen: seq<Assessment>, c: Condition) {
    Due(conditions, c).Some? && Due(conditions, c).value <= now && OnlyUnchanged(seen, c)
  }

  /**
   * A step that hears the current grace timer starts another that rings at once exactly when some
   * condition pending before it has its grace end at or before this step, and the step says
   * nothing of it.
   */
  lemma RearmsAtOnceIff(labels: seq<Label>, id: nat, now: Time, seen: seq<Assessment>)
    requires id in Run(labels).rung && Run(labels).watch.timer.Some? && Run(labels).watch.timer.value.id == id
    ensures var y, z := Run(labels), Step(Run(labels), Sees(now, Some(id), seen));
      z.live == Some(Live(y.watch.next, now, now)) <==>
        exists c :: OverdueAndUnchanged(y.watch.conditions, now, seen, c)
  {
    RunKeeps(labels);
    var y, z := Run(labels), Step(Run(labels), Sees(now, Some(id), seen));
    var due := Earliest(z.watch.conditions);
    assert z.watch.conditions == Track(y.watch.conditions, now, seen)
      && z.live == if due.Some? then Some(Live(y.watch.next, now, now + Since(due.value, now))) else y.live by {
      hide Track, Earliest;
    }
    assert y.live.Some? ==> y.live.value.id < y.watch.next;
    hide Run, Step, Inv;
    DueAfterIffOverdue(y.watch.conditions, now, seen);
    hide Earliest, Track, OverdueAndUnchanged;
  }

  /** The earliest grace end after a step has passed exactly when one was overdue before it and went unreported. */
  lemma DueAfterIffOverdue(conditions: Conditions, now: Time, seen: seq<Assessment>)
    ensures var due := Earliest(Track(conditions, now, seen));
      due.Some? && due.value <= now <==> exists c :: OverdueAndUnchanged(conditions, now, seen, c)
  {
    var after := Track(conditions, now, seen);
    var due := Earliest(after);
    assert IsEarliest(after, after.Keys, due);
    hide Earliest, Track, Grace;
    if due.Some? && due.value <= now {
      var c :| c in after.Keys && Due(after, c) == due;
      DueWasUnchanged(conditions, now, seen, c, after[c].since);
      assert OverdueAndUnchanged(conditions, now, seen, c);
    }
    if c :| OverdueAndUnchanged(conditions, now, seen, c) {
      UnchangedStays(conditions, now, seen, c);
      assert c in after.Keys && Due(after, c) == Due(conditions, c);
    }
  }

  const NOTICE: Notice := Notice("torrents in an error state", true)

  /**
   * Torrents are in an error state and the session is then lost, so that nothing new is known: the
   * grace timer rings and the condition is reported unchanged, over and over at one instant.
   */
  function SpinLabels(rounds: nat): seq<Label> {
    if rounds == 0 then [SPIN_START] else SpinLabels(rounds - 1) + [Rings, SpinLabel(rounds - 1)]
  }

  const SPINNING: Conditions := map[TorrentErrors := Pending(0)]

  lemma SpinningDue()
    ensures Earliest(SPINNING) == Some(5 * MINUTE)
  {
    assert Due(SPINNING, TorrentErrors) == Some(5 * MINUTE);
    EarliestUnique(SPINNING, SPINNING.Keys, Earliest(SPINNING), Some(5 * MINUTE));
  }

  lemma TrackErrors(conditions: Conditions, now: Time, status: Status)
    ensures Track(conditions, now, [Assessment(TorrentErrors, status)]) ==
      TrackOne(conditions, now, Assessment(TorrentErrors, status))
  {
    assert [Assessment(TorrentErrors, status)][..0] == [];
    assert Track(conditions, now, []) == conditions;
  }

  const SPIN_START: Label := Sees(0, None, [Assessment(TorrentErrors, Active(NOTICE))])

  function SpinLabel(id: nat): Label {
    Sees(5 * MINUTE, Some(id), [Assessment(TorrentErrors, Unchanged)])
  }

  function Spun(rounds: nat): System {
    System(Watch(SPINNING, Some(GraceTimer(rounds, 5 * MINUTE)), rounds + 1),
           Some(Live(rounds, if rounds == 0 then 0 else 5 * MINUTE, 5 * MINUTE)), {})
  }

  lemma SpinStarts()
    ensures Step(START, SPIN_START) == Spun(0)
  {
    SpinningDue();
    TrackErrors(map[], 0, Active(NOTICE));
    hide Earliest;
  }

  lemma SpinsOnce(rounds: nat)
    ensures Step(Step(Spun(rounds), Rings), SpinLabel(rounds)) == Spun(rounds + 1)
  {
    SpinningDue();
    TrackErrors(SPINNING, 5 * MINUTE, Unchanged);
    assert TrackOne(SPINNING, 5 * MINUTE, Assessment(TorrentErrors, Unchanged)) == SPINNING;
    hide Earliest, Track;
    var rung := Step(Spun(rounds), Rings);
    assert rung == System(Spun(rounds).watch, None, {rounds});
    assert {rounds} - {rounds} == {};
  }

  /**
   * An input: a condition pending past its grace and reported unchanged is never raised, and each
   * expiry starts another timer that rings at the same instant, any number of times.
   */
  lemma {:induction false} UnchangedAlarmSpins(rounds: nat)
    ensures Run(SpinLabels(rounds)) == Spun(rounds)
  {
    hide Step;
    if rounds == 0 {
      SpinStarts();
      assert SpinLabels(0)[..0] == [] && Run([]) == START;
    } else {
      var before, labels := SpinLabels(rounds - 1), SpinLabels(rounds);
      UnchangedAlarmSpins(rounds - 1);
      SpinsOnce(rounds - 1);
      hide Spun;
      assert labels == before + [Rings, SpinLabel(rounds - 1)];
      assert labels[..|labels| - 1] == before + [Rings];
      assert (before + [Rings])[..|before|] == before;
      assert Run(before + [Rings]) == Step(Run(before), Rings);
    }
  }

  // ---------- Phases in a run with its timer ----------

  /** What the steps of a run saw, in order; a step that is not enabled sees nothing. */
  ghost function Sightings(labels: seq<Label>): seq<Sighting> {
    if labels == [] then []
    else
      var before, l := labels[..|labels| - 1], labels[|labels| - 1];
      Sightings(before) +
        if l.Sees? && (l.expired.None? || l.expired.value in Run(before).rung) then [Sighting(l.now, l.seen)] else []
  }

  lemma StepTracks(y: System, l: Label)
    ensures Step(y, l).watch.conditions ==
      if l.Sees? && (l.expired.None? || l.expired.value in y.rung)
        then Track(y.watch.conditions, l.now, l.seen) else y.watch.conditions
  {
    hide Earliest, Track;
  }

  lemma {:induction false} RunTracks(labels: seq<Label>)
    ensures Run(labels).watch.conditions == TrackRun(Sightings(labels))
  {
    if labels != [] {
      var before, l := labels[..|labels| - 1], labels[|labels| - 1];
      RunTracks(before);
      StepTracks(Run(before), l);
      hide Step, Track;
      var all := Sightings(labels);
      if l.Sees? && (l.expired.None? || l.expired.value in Run(before).rung) {
        assert all == Sightings(before) + [Sighting(l.now, l.seen)];
        assert all[..|all| - 1] == Sightings(before);
      } else {
        assert all == Sightings(before);
      }
      hide Sightings;
    }
  }

  /** In every run each condition's phase is exactly what its own sightings make it. */
  lemma RunPhasesAreExact(labels: seq<Label>, c: Condition)
    ensures var h := HistoryOf(c, Sightings(labels)); var first := FirstActive(h, AfterClear(h));
      PhaseOf(Run(labels).watch.conditions, c) ==
        if first == |h| then None else if HeldThrough(Grace(c), h, first)
          then Some(Raised) else Some(Pending(h[first].at))
  {
    RunTracks(labels);
    EachConditionAlone(c, Sightings(labels));
    RaisedExactlyWhenHeld(Grace(c), HistoryOf(c, Sightings(labels)));
  }
}
