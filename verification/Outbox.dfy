/**
 * Pushes to the owner: a bounded outbox, one delivery at a time, and retries. The outbox is generic
 * in what it carries, so that a run can be followed by queue position as well as by content.
 */
module Outbox {
  import opened Basics

  const OUTBOX_LIMIT: nat := 50
  const RETRY_FIRST: Time := 30 * SECOND
  const RETRY_MAX: Time := 10 * MINUTE

  datatype Delivery<+P> = Idle | Sending(push: P) | Retrying(push: P, timer: nat)

  /** `outbox` holds the oldest first; `dropped` and `failures` are the counters shown to the owner. */
  datatype Mail<+P> = Mail(outbox: seq<P>, delivery: Delivery<P>, dropped: nat, failures: nat)

  /** What settings say of the topic: nothing yet, no topic (or unreadable), or one. */
  datatype Topic = NotRead | Absent | Present(name: nat)

  function Power(n: nat): (p: nat)
    ensures p >= 1
  {
    if n == 0 then 1 else 2 * Power(n - 1)
  }

  /** The wait before the next attempt, after `failures` in a row. */
  function RetryAfter(failures: nat): Time {
    var after := RETRY_FIRST * Power(if failures > 0 then failures - 1 else 0);
    if after < RETRY_MAX then after else RETRY_MAX
  }

  function Enqueue<P>(m: Mail<P>, push: P): Mail<P> {
    if |m.outbox| >= OUTBOX_LIMIT
    then m.(outbox := m.outbox[1..] + [push], dropped := m.dropped + 1)
    else m.(outbox := m.outbox + [push])
  }

  function EnqueueAll<P>(m: Mail<P>, pushes: seq<P>): Mail<P> {
    if pushes == [] then m
    else Enqueue(EnqueueAll(m, pushes[..|pushes| - 1]), pushes[|pushes| - 1])
  }

  /** The shell's answer to a send; `timer` is the identity a retry would be given. */
  function Answered<P>(m: Mail<P>, delivered: bool, timer: nat): Mail<P> {
    if !m.delivery.Sending? then m
    else if delivered then m.(delivery := Idle, failures := 0)
    else m.(delivery := Retrying(m.delivery.push, timer), failures := m.failures + 1)
  }

  function RetryDue<P>(m: Mail<P>, timer: nat): Mail<P> {
    if m.delivery.Retrying? && m.delivery.timer == timer
    then m.(outbox := [m.delivery.push] + m.outbox, delivery := Idle)
    else m
  }

  /** The push handed to the shell, if any. */
  function Sends<P>(m: Mail<P>, topic: Topic): Option<P> {
    if topic.Present? && m.delivery.Idle? && m.outbox != [] then Some(m.outbox[0]) else None
  }

  function Send<P>(m: Mail<P>, topic: Topic): Mail<P> {
    match topic
    case NotRead => m
    case Absent => m.(outbox := [], delivery := if m.delivery.Retrying? then Idle else m.delivery)
    case Present(_) =>
      if m.delivery.Idle? && m.outbox != []
      then m.(outbox := m.outbox[1..], delivery := Sending(m.outbox[0]))
      else m
  }

  /** Only an answer changes the count of failures. */
  lemma {:induction false} FailuresStay<P>(m: Mail<P>, pushes: seq<P>, topic: Topic)
    ensures EnqueueAll(m, pushes).failures == m.failures && Send(EnqueueAll(m, pushes), topic).failures == m.failures
  {
    if pushes != [] { FailuresStay(m, pushes[..|pushes| - 1], topic); }
  }

  datatype Event = Nothing | Result(delivered: bool, retry: nat) | Expired(timer: nat)

  function Handle<P>(m: Mail<P>, e: Event): Mail<P> {
    match e
    case Nothing => m
    case Result(delivered, retry) => Answered(m, delivered, retry)
    case Expired(timer) => RetryDue(m, timer)
  }

  /** One step of the core, as the outbox sees it: the event, then the pushes it queued, then sending. */
  function Step<P>(m: Mail<P>, e: Event, pushes: seq<P>, topic: Topic): Mail<P> {
    Send(EnqueueAll(Handle(m, e), pushes), topic)
  }

  /** Waits of 30 seconds, then 1, 2, 4 and 8 minutes, then 10 for good; never shorter after one more failure. */
  lemma RetryWaits(failures: nat)
    ensures RetryAfter(1) == 30 * SECOND && RetryAfter(2) == MINUTE && RetryAfter(3) == 2 * MINUTE
    ensures RetryAfter(4) == 4 * MINUTE && RetryAfter(5) == 8 * MINUTE
    ensures failures > 5 ==> RetryAfter(failures) == 10 * MINUTE
    ensures RetryAfter(failures) <= RetryAfter(failures + 1) <= RETRY_MAX
  {
    assert Power(4) == 16;
    if failures > 5 { PowerGrows(5, failures - 1); }
    assert Power(5) == 32;
  }

  lemma {:induction false} PowerGrows(a: nat, b: nat)
    requires a <= b
    ensures Power(a) <= Power(b)
  {
    if a < b { PowerGrows(a, b - 1); }
  }

  // ---------- Runs ----------

  /**
   * The same outbox carrying queue positions. `queued` lists every push ever queued; `sending` is
   * what the shell has in flight; `delivered`, `dropped` and `discarded` are where positions went;
   * `results` is what came of each send, in order.
   */
  datatype Post<P> = Post(
    mail: Mail<nat>, topic: Topic, queued: seq<P>, sending: seq<nat>,
    delivered: seq<nat>, dropped: seq<nat>, discarded: seq<nat>, results: seq<bool>)

  /** How many sends failed since the last that was delivered. */
  function FailedSince(results: seq<bool>): (n: nat)
    ensures n <= |results| && (forall i :: |results| - n <= i < |results| ==> !results[i])
    ensures n < |results| ==> results[|results| - n - 1]
  {
    if results == [] || results[|results| - 1] then 0 else 1 + FailedSince(results[..|results| - 1])
  }

  datatype Label<P> = Label(event: Event, pushes: seq<P>, topic: Topic)

  function InDelivery(m: Mail<nat>): seq<nat> {
    if m.delivery.Idle? then [] else [m.delivery.push]
  }

  /** A result comes only from a send in flight, and settings once read stay read. */
  predicate Enabled<P>(y: Post<P>, l: Label<P>) {
    && (l.event.Result? ==> y.sending != [])
    && (l.topic.NotRead? ==> y.topic.NotRead?)
  }

  function PostHandle<P>(y: Post<P>, e: Event): Post<P>
    requires e.Result? ==> y.sending != []
  {
    var z := y.(mail := Handle(y.mail, e));
    if e.Result?
    then z.(sending := y.sending[1..], results := y.results + [e.delivered],
            delivered := if e.delivered then y.delivered + [y.sending[0]] else y.delivered)
    else z
  }

  function PostEnqueue<P>(y: Post<P>, push: P): Post<P> {
    y.(mail := Enqueue(y.mail, |y.queued|), queued := y.queued + [push],
       dropped := if |y.mail.outbox| >= OUTBOX_LIMIT then y.dropped + [y.mail.outbox[0]] else y.dropped)
  }

  function PostEnqueueAll<P>(y: Post<P>, pushes: seq<P>): Post<P> {
    if pushes == [] then y
    else PostEnqueue(PostEnqueueAll(y, pushes[..|pushes| - 1]), pushes[|pushes| - 1])
  }

  /** The push waiting for its retry, if any. */
  function Waiting(m: Mail<nat>): seq<nat> {
    if m.delivery.Retrying? then [m.delivery.push] else []
  }

  function PostSend<P>(y: Post<P>, topic: Topic): Post<P> {
    y.(mail := Send(y.mail, topic), topic := topic,
       sending := y.sending + (match Sends(y.mail, topic) case None => [] case Some(p) => [p]),
       discarded := if topic.Absent? then y.discarded + y.mail.outbox + Waiting(y.mail) else y.discarded)
  }

  function PostStep<P>(y: Post<P>, l: Label<P>): Post<P> {
    if !Enabled(y, l) then y else PostSend(PostEnqueueAll(PostHandle(y, l.event), l.pushes), l.topic)
  }

  function Begin<P>(): Post<P> {
    Post(Mail([], Idle, 0, 0), NotRead, [], [], [], [], [], [])
  }

  function Run<P>(labels: seq<Label<P>>): Post<P> {
    if labels == [] then Begin() else PostStep(Run(labels[..|labels| - 1]), labels[|labels| - 1])
  }

  // ---------- Conservation ----------

  /** Positions in the order delivered, then the one in delivery, then those waiting. */
  function Line<P>(y: Post<P>): seq<nat> {
    y.delivered + InDelivery(y.mail) + y.mail.outbox
  }

  ghost predicate Increasing(s: seq<nat>) {
    forall i, j :: 0 <= i < j < |s| ==> s[i] < s[j]
  }

  function Positions(n: nat): (s: seq<nat>)
    ensures |s| == n
  {
    if n == 0 then [] else Positions(n - 1) + [n - 1]
  }

  /** All the places a queued push can be, counted together: delivered, in delivery or waiting, dropped, discarded. */
  function Places<P>(y: Post<P>): multiset<nat> {
    multiset(Line(y)) + multiset(y.dropped) + multiset(y.discarded)
  }

  ghost predicate Conserved<P>(y: Post<P>) {
    Places(y) == multiset(Positions(|y.queued|))
  }

  ghost predicate InOrder<P>(y: Post<P>) {
    Increasing(Line(y)) && forall i :: 0 <= i < |Line(y)| ==> Line(y)[i] < |y.queued|
  }

  ghost predicate Counted<P>(y: Post<P>) {
    && y.sending == (if y.mail.delivery.Sending? then [y.mail.delivery.push] else [])
    && y.mail.dropped == |y.dropped| && y.mail.failures == FailedSince(y.results)
  }

  /** Within a step the outbox may hold one more, when a due retry went back to its front. */
  ghost predicate Bounded<P>(y: Post<P>, topic: Topic) {
    && |y.mail.outbox| <= OUTBOX_LIMIT + 1
    && (|y.mail.outbox| == OUTBOX_LIMIT + 1 ==> y.mail.delivery.Idle? && !topic.NotRead?)
    && (!y.mail.delivery.Idle? ==> !topic.NotRead?)
  }

  /** With a topic nothing waits while the shell is free; without one nothing waits at all. */
  ghost predicate KeepsSending<P>(y: Post<P>) {
    && (y.topic.Present? && y.mail.outbox != [] ==> !y.mail.delivery.Idle?)
    && (y.topic.Absent? ==> y.mail.outbox == [] && !y.mail.delivery.Retrying?)
  }

  ghost predicate Inv<P>(y: Post<P>) {
    && Conserved(y) && InOrder(y) && Counted(y)
    && Bounded(y, y.topic) && |y.mail.outbox| <= OUTBOX_LIMIT && KeepsSending(y)
  }

  lemma HandleKeepsLine<P>(y: Post<P>, e: Event)
    requires Counted(y) && (e.Result? ==> y.sending != [])
    ensures Line(PostHandle(y, e)) == Line(y)
  {
  }

  lemma HandleKeeps<P>(y: Post<P>, e: Event)
    requires Inv(y) && (e.Result? ==> y.sending != [])
    ensures var z := PostHandle(y, e);
      Conserved(z) && InOrder(z) && Counted(z) && Bounded(z, y.topic) && z.queued == y.queued && z.topic == y.topic
  {
    var z := PostHandle(y, e);
    HandleKeepsLine(y, e);
    assert Conserved(z) && InOrder(z) by {
      hide Line, Counted, Bounded, Positions, Increasing, Handle;
    }
    hide Line, Conserved, InOrder, KeepsSending;
    if e.Result? {
      assert FailedSince(z.results) == if e.delivered then 0 else FailedSince(y.results) + 1 by {
        assert z.results[..|y.results|] == y.results;
        hide Counted, Bounded, Handle;
      }
      hide FailedSince;
    }
  }

  lemma EnqueueKeeps<P>(y: Post<P>, push: P, topic: Topic)
    requires Conserved(y) && InOrder(y) && Counted(y) && Bounded(y, topic)
    ensures var z := PostEnqueue(y, push);
      Conserved(z) && InOrder(z) && Counted(z) && Bounded(z, topic) && z.topic == y.topic
  {
    EnqueueConserves(y, push);
    EnqueueInOrder(y, push);
    hide Conserved, InOrder;
  }

  lemma Moved(a: seq<nat>, x: nat, b: seq<nat>, n: nat)
    ensures multiset(a + ([x] + b)) + multiset([n]) == multiset(a + (b + [n])) + multiset([x])
  {
  }

  lemma Balanced(
      was: multiset<nat>, now: multiset<nat>, x: multiset<nat>, n: multiset<nat>, dropped: multiset<nat>,
      discarded: multiset<nat>)
    requires was + n == now + x
    ensures now + (dropped + x) + discarded == was + dropped + discarded + n
  {
    assert now + (dropped + x) + discarded == (now + x) + dropped + discarded;
  }

  lemma EnqueueFullConserves<P>(y: Post<P>, push: P)
    requires |y.mail.outbox| >= OUTBOX_LIMIT
    ensures Places(PostEnqueue(y, push)) == Places(y) + multiset([|y.queued|])
  {
    var z := PostEnqueue(y, push);
    var front := y.delivered + InDelivery(y.mail);
    var n, x, rest := |y.queued|, y.mail.outbox[0], y.mail.outbox[1..];
    assert y.mail.outbox == [x] + rest;
    assert Line(y) == front + ([x] + rest) && Line(z) == front + (rest + [n]);
    hide Line;
    Moved(front, x, rest, n);
    Balanced(multiset(Line(y)), multiset(Line(z)), multiset([x]), multiset([n]), multiset(y.dropped),
      multiset(y.discarded));
    assert multiset(z.dropped) == multiset(y.dropped) + multiset([x]);
  }

  lemma Added(line: seq<nat>, n: nat, dropped: multiset<nat>, discarded: multiset<nat>)
    ensures multiset(line + [n]) + dropped + discarded == multiset(line) + dropped + discarded + multiset([n])
  {
  }

  lemma EnqueueRoomConserves<P>(y: Post<P>, push: P)
    requires |y.mail.outbox| < OUTBOX_LIMIT
    ensures Places(PostEnqueue(y, push)) == Places(y) + multiset([|y.queued|])
  {
    var z := PostEnqueue(y, push);
    assert Line(z) == Line(y) + [|y.queued|] && z.dropped == y.dropped && z.discarded == y.discarded;
    hide Line, PostEnqueue;
    Added(Line(y), |y.queued|, multiset(y.dropped), multiset(y.discarded));
  }

  lemma EnqueueConserves<P>(y: Post<P>, push: P)
    requires Conserved(y)
    ensures Conserved(PostEnqueue(y, push))
  {
    hide Line, Places;
    var n := |y.queued|;
    if |y.mail.outbox| >= OUTBOX_LIMIT {
      EnqueueFullConserves(y, push);
    } else {
      EnqueueRoomConserves(y, push);
    }
    assert multiset(Positions(n + 1)) == multiset(Positions(n)) + multiset([n]);
  }

  lemma EnqueueInOrder<P>(y: Post<P>, push: P)
    requires InOrder(y)
    ensures InOrder(PostEnqueue(y, push))
  {
    var z := PostEnqueue(y, push);
    var front := y.delivered + InDelivery(y.mail);
    if |y.mail.outbox| >= OUTBOX_LIMIT {
      assert Line(z) == Line(y)[..|front|] + Line(y)[|front| + 1..] + [|y.queued|];
    } else {
      assert Line(z) == Line(y) + [|y.queued|];
    }
  }

  lemma {:induction false} EnqueueAllKeeps<P>(y: Post<P>, pushes: seq<P>, topic: Topic)
    requires Conserved(y) && InOrder(y) && Counted(y) && Bounded(y, topic)
    ensures var z := PostEnqueueAll(y, pushes);
      Conserved(z) && InOrder(z) && Counted(z) && Bounded(z, topic) && z.topic == y.topic
  {
    if pushes != [] {
      EnqueueAllKeeps(y, pushes[..|pushes| - 1], topic);
      EnqueueKeeps(PostEnqueueAll(y, pushes[..|pushes| - 1]), pushes[|pushes| - 1], topic);
    }
  }

  lemma Regrouped(a: seq<nat>, b: seq<nat>, c: seq<nat>, d: seq<nat>)
    ensures multiset(a + b + c) + multiset(d) == multiset(a) + multiset(d + c + b)
  {
  }

  lemma Rebalanced(
      was: multiset<nat>, now: multiset<nat>, dropped: multiset<nat>, before: multiset<nat>, after: multiset<nat>)
    requires was + before == now + after
    ensures was + dropped + before == now + dropped + after
  {
    assert was + dropped + before == (was + before) + dropped;
    assert now + dropped + after == (now + after) + dropped;
  }

  /** Without a topic what waits is discarded, and so is a push waiting for its retry. */
  lemma DiscardConserves<P>(y: Post<P>)
    ensures Places(PostSend(y, Absent)) == Places(y)
  {
    var z := PostSend(y, Absent);
    var front := y.delivered + if y.mail.delivery.Sending? then InDelivery(y.mail) else [];
    var back := if y.mail.delivery.Sending? then [] else InDelivery(y.mail);
    assert Line(y) == front + back + y.mail.outbox && Line(z) == front;
    assert z.discarded == y.discarded + y.mail.outbox + back && z.dropped == y.dropped;
    hide Line, PostSend;
    Regrouped(front, back, y.mail.outbox, y.discarded);
    Rebalanced(multiset(Line(y)), multiset(Line(z)), multiset(y.dropped), multiset(y.discarded), multiset(z.discarded));
  }

  lemma SendConserves<P>(y: Post<P>, topic: Topic)
    requires Conserved(y)
    ensures Conserved(PostSend(y, topic))
  {
    hide Positions;
    var z := PostSend(y, topic);
    if topic.Absent? {
      DiscardConserves(y);
      assert z.queued == y.queued;
      hide Places, PostSend;
    } else {
      assert Line(z) == Line(y);
      hide Line;
    }
  }

  lemma SendInOrder<P>(y: Post<P>, topic: Topic)
    requires InOrder(y)
    ensures InOrder(PostSend(y, topic))
  {
    var z := PostSend(y, topic);
    if topic.Absent? {
      assert Line(z) == Line(y)[..|Line(z)|];
    } else {
      assert Line(z) == Line(y);
    }
    hide Line;
  }

  lemma SendCounts<P>(y: Post<P>, topic: Topic)
    requires Counted(y) && Bounded(y, y.topic) && (topic.NotRead? ==> y.topic.NotRead?)
    ensures var z := PostSend(y, topic);
      Counted(z) && Bounded(z, z.topic) && |z.mail.outbox| <= OUTBOX_LIMIT && KeepsSending(z)
  {
    hide FailedSince;
  }

  lemma SendKeeps<P>(y: Post<P>, topic: Topic)
    requires Conserved(y) && InOrder(y) && Counted(y) && Bounded(y, y.topic)
    requires topic.NotRead? ==> y.topic.NotRead?
    ensures Inv(PostSend(y, topic))
  {
    SendConserves(y, topic);
    SendInOrder(y, topic);
    SendCounts(y, topic);
    hide Conserved, InOrder, Counted, Bounded, PostSend, KeepsSending;
  }

  lemma StepKeeps<P>(y: Post<P>, l: Label<P>)
    requires Inv(y)
    ensures Inv(PostStep(y, l))
  {
    if Enabled(y, l) {
      HandleKeeps(y, l.event);
      EnqueueAllKeeps(PostHandle(y, l.event), l.pushes, y.topic);
      SendKeeps(PostEnqueueAll(PostHandle(y, l.event), l.pushes), l.topic);
    }
  }

  lemma {:induction false} RunKeeps<P>(labels: seq<Label<P>>)
    ensures Inv(Run(labels))
  {
    if labels != [] {
      RunKeeps(labels[..|labels| - 1]);
      StepKeeps(Run(labels[..|labels| - 1]), labels[|labels| - 1]);
    }
  }

  lemma {:induction false} PositionsOnce(n: nat, k: nat)
    ensures multiset(Positions(n))[k] == if k < n then 1 else 0
  {
    if n > 0 { PositionsOnce(n - 1, k); }
  }

  /**
   * Over every run each queued push is in exactly one place: delivered, in delivery, waiting,
   * dropped or discarded; pushes are delivered in the order queued; at most one send is in flight;
   * after every step at most 50 wait, and none while the shell is free to send it; and the failures
   * counted, which set the wait before a retry, are the sends failed since one was delivered.
   */
  lemma PushesAreConserved<P>(labels: seq<Label<P>>)
    ensures var y := Run(labels);
      && (forall k: nat :: Places(y)[k] == if k < |y.queued| then 1 else 0)
      && Increasing(y.delivered)
      && |y.sending| <= 1 && (y.sending != [] ==> y.mail.delivery == Sending(y.sending[0]))
      && |y.mail.outbox| <= 50 && KeepsSending(y)
      && y.mail.dropped == |y.dropped| && y.mail.failures == FailedSince(y.results)
  {
    var y := Run(labels);
    RunKeeps(labels);
    forall k: nat
      ensures Places(y)[k] == if k < |y.queued| then 1 else 0
    {
      PositionsOnce(|y.queued|, k);
    }
    assert y.delivered == Line(y)[..|y.delivered|];
  }

  /** How many of the oldest are dropped when `more` are queued behind `waiting`. */
  function Overflow(waiting: nat, more: nat): nat {
    if waiting + more <= 50 then 0 else if waiting >= 50 then more else waiting + more - 50
  }

  /** These positions, and then the next `more`. */
  function Further(waiting: seq<nat>, next: nat, more: nat): (all: seq<nat>)
    ensures |all| == |waiting| + more
  {
    if more == 0 then waiting else Further(waiting, next, more - 1) + [next + more - 1]
  }

  lemma {:induction false} FurtherAt(waiting: seq<nat>, next: nat, more: nat, i: nat)
    requires i < |waiting| + more
    ensures Further(waiting, next, more)[i] == if i < |waiting| then waiting[i] else next + i - |waiting|
  {
    if more > 0 && i < |waiting| + more - 1 { FurtherAt(waiting, next, more - 1, i); }
  }

  lemma OneMore(all: seq<nat>, x: nat, c: nat)
    requires c <= |all|
    ensures var more := all + [x];
      && more[c..] == all[c..] + [x] && more[..c] == all[..c]
      && more[c + 1..] == (all[c..] + [x])[1..] && more[..c + 1] == all[..c] + [(all[c..] + [x])[0]]
  {
  }

  /** Queueing keeps the newest and drops the oldest, only as many as there is no room for. */
  lemma {:induction false} NewestAreKept<P>(y: Post<P>, pushes: seq<P>)
    ensures var z := PostEnqueueAll(y, pushes); var d := Overflow(|y.mail.outbox|, |pushes|);
      var all := Further(y.mail.outbox, |y.queued|, |pushes|);
      && z.mail.outbox == all[d..] && z.dropped == y.dropped + all[..d] && z.mail.delivery == y.mail.delivery
      && |z.queued| == |y.queued| + |pushes| && z.sending == y.sending
  {
    if pushes != [] {
      var n := |pushes| - 1;
      NewestAreKept(y, pushes[..n]);
      var all := Further(y.mail.outbox, |y.queued|, n);
      var c, d := Overflow(|y.mail.outbox|, n), Overflow(|y.mail.outbox|, n + 1);
      OneMore(all, |y.queued| + n, c);
      var w := PostEnqueueAll(y, pushes[..n]);
      assert PostEnqueueAll(y, pushes) == PostEnqueue(w, pushes[n]);
      assert Further(y.mail.outbox, |y.queued|, n + 1) == all + [|y.queued| + n];
      assert d == if |w.mail.outbox| >= OUTBOX_LIMIT then c + 1 else c;
      hide PostEnqueueAll, Further, Overflow;
      if d == c + 1 {
        assert w.mail.outbox[0] == (w.mail.outbox + [|y.queued| + n])[0];
        assert w.mail.outbox[1..] + [|y.queued| + n] == (w.mail.outbox + [|y.queued| + n])[1..];
      }
    }
  }

  /** A push is dropped only when 50 others are kept: waiting, and the one on its way. */
  lemma DropsOnlyWhenFull<P>(y: Post<P>, l: Label<P>)
    requires Enabled(y, l) && !l.topic.Absent? && PostStep(y, l).dropped != y.dropped
    ensures var z := PostStep(y, l); |z.mail.outbox| + |z.sending| >= 50
  {
    NewestAreKept(PostHandle(y, l.event), l.pushes);
    hide PostEnqueueAll;
  }

  /**
   * When its wait ends a push is sent again, unless so much was queued meanwhile that there is no
   * room for it in front of the others: then it is the oldest, and is dropped.
   */
  lemma RetrySendsIff<P>(labels: seq<Label<P>>, pushes: seq<P>, name: nat)
    requires Run(labels).mail.delivery.Retrying?
    ensures var y := Run(labels); var Retrying(push, timer) := y.mail.delivery;
      var z := PostStep(y, Label(Expired(timer), pushes, Present(name)));
      z.sending == [push] <==> pushes == [] || |y.mail.outbox| + |pushes| < 50
  {
    RunKeeps(labels);
    RetriedIff(Run(labels), pushes, name);
  }

  lemma OldestIsFirst<P>(y: Post<P>, more: nat)
    requires InOrder(y) && y.mail.delivery.Retrying?
    ensures var all := Further([y.mail.delivery.push] + y.mail.outbox, |y.queued|, more);
      all[0] == y.mail.delivery.push && forall i :: 0 < i < |all| ==> all[i] != y.mail.delivery.push
  {
    var waiting := [y.mail.delivery.push] + y.mail.outbox;
    assert Line(y)[|y.delivered|] == y.mail.delivery.push;
    FurtherAt(waiting, |y.queued|, more, 0);
    forall i | 0 < i < |waiting| + more
      ensures Further(waiting, |y.queued|, more)[i] != y.mail.delivery.push
    {
      FurtherAt(waiting, |y.queued|, more, i);
      if i < |waiting| { assert waiting[i] == Line(y)[|y.delivered| + i]; }
    }
  }

  lemma RetriedIff<P>(y: Post<P>, pushes: seq<P>, name: nat)
    requires Inv(y) && y.mail.delivery.Retrying?
    ensures var Retrying(push, timer) := y.mail.delivery;
      var z := PostStep(y, Label(Expired(timer), pushes, Present(name)));
      z.sending == [push] <==> pushes == [] || |y.mail.outbox| + |pushes| < 50
  {
    var Retrying(push, timer) := y.mail.delivery;
    OldestIsFirst(y, |pushes|);
    var due := PostHandle(y, Expired(timer));
    NewestAreKept(due, pushes);
    var filled := PostEnqueueAll(due, pushes);
    assert PostStep(y, Label(Expired(timer), pushes, Present(name))) == PostSend(filled, Present(name));
    assert filled.sending == [] && filled.mail.delivery.Idle?;
    var d := Overflow(|due.mail.outbox|, |pushes|);
    assert filled.mail.outbox[0] == Further(due.mail.outbox, |y.queued|, |pushes|)[d];
    hide PostStep, PostEnqueueAll, Further, Inv;
  }

  // ---------- Positions stand for pushes ----------

  /** The pushes at these positions. */
  function At<P>(queued: seq<P>, positions: seq<nat>): (pushes: seq<P>)
    requires forall i :: 0 <= i < |positions| ==> positions[i] < |queued|
    ensures |pushes| == |positions|
    ensures forall i :: 0 <= i < |positions| ==> pushes[i] == queued[positions[i]]
  {
    if positions == [] then [] else [queued[positions[0]]] + At(queued, positions[1..])
  }

  /** Every position in the mail was queued. */
  ghost predicate Within(n: nat, m: Mail<nat>) {
    && (forall i :: 0 <= i < |m.outbox| ==> m.outbox[i] < n)
    && (!m.delivery.Idle? ==> m.delivery.push < n)
  }

  /** The mail the source holds: the same, carrying the pushes themselves. */
  ghost function Carried<P>(queued: seq<P>, m: Mail<nat>): Mail<P>
    requires Within(|queued|, m)
  {
    Mail(At(queued, m.outbox),
         match m.delivery
         case Idle => Idle
         case Sending(k) => Sending(queued[k])
         case Retrying(k, timer) => Retrying(queued[k], timer),
         m.dropped, m.failures)
  }

  lemma HandleCarries<P>(queued: seq<P>, m: Mail<nat>, e: Event)
    requires Within(|queued|, m)
    ensures Within(|queued|, Handle(m, e)) && Carried(queued, Handle(m, e)) == Handle(Carried(queued, m), e)
  {
    assert Carried(queued, Handle(m, e)).outbox == Handle(Carried(queued, m), e).outbox;
  }

  lemma EnqueueCarries<P>(y: Post<P>, push: P)
    requires Within(|y.queued|, y.mail)
    ensures var z := PostEnqueue(y, push);
      Within(|z.queued|, z.mail) && Carried(z.queued, z.mail) == Enqueue(Carried(y.queued, y.mail), push)
  {
    var z := PostEnqueue(y, push);
    assert Carried(z.queued, z.mail).outbox == Enqueue(Carried(y.queued, y.mail), push).outbox;
  }

  lemma {:induction false} EnqueueAllCarries<P>(y: Post<P>, pushes: seq<P>)
    requires Within(|y.queued|, y.mail)
    ensures var z := PostEnqueueAll(y, pushes);
      && z.queued == y.queued + pushes && Within(|z.queued|, z.mail)
      && Carried(z.queued, z.mail) == EnqueueAll(Carried(y.queued, y.mail), pushes)
  {
    if pushes != [] {
      var init := pushes[..|pushes| - 1];
      EnqueueAllCarries(y, init);
      EnqueueCarries(PostEnqueueAll(y, init), pushes[|pushes| - 1]);
      assert pushes == init + [pushes[|pushes| - 1]];
    }
  }

  lemma SendCarries<P>(queued: seq<P>, m: Mail<nat>, topic: Topic)
    requires Within(|queued|, m)
    ensures Within(|queued|, Send(m, topic)) && Carried(queued, Send(m, topic)) == Send(Carried(queued, m), topic)
  {
    assert Carried(queued, Send(m, topic)).outbox == Send(Carried(queued, m), topic).outbox;
  }

  /**
   * A step by positions is the source's step on the pushes they stand for, and it appends the
   * pushes it queued, so what holds of every run by position holds of the source's own runs.
   */
  lemma PositionsStandForPushes<P>(y: Post<P>, l: Label<P>)
    requires Enabled(y, l) && Within(|y.queued|, y.mail)
    ensures var z := PostStep(y, l);
      && z.queued == y.queued + l.pushes && Within(|z.queued|, z.mail)
      && Carried(z.queued, z.mail) == Step(Carried(y.queued, y.mail), l.event, l.pushes, l.topic)
  {
    var handled := PostHandle(y, l.event);
    HandleCarries(y.queued, y.mail, l.event);
    EnqueueAllCarries(handled, l.pushes);
    var filled := PostEnqueueAll(handled, l.pushes);
    SendCarries(filled.queued, filled.mail, l.topic);
  }

  lemma RunWithin<P>(labels: seq<Label<P>>)
    ensures Within(|Run(labels).queued|, Run(labels).mail)
  {
    RunKeeps(labels);
    var y := Run(labels);
    var front := |y.delivered| + |InDelivery(y.mail)|;
    forall i | 0 <= i < |y.mail.outbox| ensures y.mail.outbox[i] < |y.queued| {
      assert y.mail.outbox[i] == Line(y)[front + i];
    }
    if !y.mail.delivery.Idle? {
      assert y.mail.delivery.push == Line(y)[|y.delivered|];
    }
  }

  /** The source's own run: the mail itself, the topic, and how many sends are in flight. */
  datatype Desk<P> = Desk(mail: Mail<P>, topic: Topic, sending: nat)

  predicate DeskEnabled<P>(d: Desk<P>, l: Label<P>) {
    (l.event.Result? ==> d.sending > 0) && (l.topic.NotRead? ==> d.topic.NotRead?)
  }

  function DeskStep<P>(d: Desk<P>, l: Label<P>): Desk<P> {
    if !DeskEnabled(d, l) then d
    else
      var filled := EnqueueAll(Handle(d.mail, l.event), l.pushes);
      Desk(Send(filled, l.topic), l.topic,
           d.sending - (if l.event.Result? then 1 else 0) + (if Sends(filled, l.topic).Some? then 1 else 0))
  }

  function DeskRun<P>(labels: seq<Label<P>>): Desk<P> {
    if labels == [] then Desk(Mail([], Idle, 0, 0), NotRead, 0)
    else DeskStep(DeskRun(labels[..|labels| - 1]), labels[|labels| - 1])
  }

  /** Everything queued in the source's run, in order. */
  function QueuedIn<P>(labels: seq<Label<P>>): seq<P> {
    if labels == [] then []
    else
      var l := labels[|labels| - 1];
      QueuedIn(labels[..|labels| - 1]) + if DeskEnabled(DeskRun(labels[..|labels| - 1]), l) then l.pushes else []
  }

  lemma SendsCarried<P>(queued: seq<P>, m: Mail<nat>, topic: Topic)
    requires Within(|queued|, m)
    ensures Sends(m, topic).Some? == Sends(Carried(queued, m), topic).Some?
  {
  }

  lemma StepRefines<P>(y: Post<P>, d: Desk<P>, l: Label<P>)
    requires Within(|y.queued|, y.mail) && d == Desk(Carried(y.queued, y.mail), y.topic, |y.sending|)
    requires Within(|PostStep(y, l).queued|, PostStep(y, l).mail)
    ensures var z := PostStep(y, l); DeskStep(d, l) == Desk(Carried(z.queued, z.mail), z.topic, |z.sending|)
    ensures Enabled(y, l) <==> DeskEnabled(d, l)
    ensures PostStep(y, l).queued == y.queued + if Enabled(y, l) then l.pushes else []
  {
    if Enabled(y, l) {
      PositionsStandForPushes(y, l);
      var handled := PostHandle(y, l.event);
      HandleCarries(y.queued, y.mail, l.event);
      EnqueueAllCarries(handled, l.pushes);
      var filled := PostEnqueueAll(handled, l.pushes);
      EnqueueAllSending(handled, l.pushes);
      SendsCarried(filled.queued, filled.mail, l.topic);
      hide Carried, Within, Handle, EnqueueAll, PostEnqueueAll, Send, Sends;
    }
  }

  lemma {:induction false} EnqueueAllSending<P>(y: Post<P>, pushes: seq<P>)
    ensures PostEnqueueAll(y, pushes).sending == y.sending
  {
    if pushes != [] { EnqueueAllSending(y, pushes[..|pushes| - 1]); }
  }

  /**
   * Following positions is following the source: in every run the mail carried by positions is the
   * source's mail, with as many sends in flight, and the pushes queued are the same in order.
   */
  lemma {:induction false} RunRefines<P>(labels: seq<Label<P>>)
    ensures var y := Run(labels);
      && Within(|y.queued|, y.mail) && y.queued == QueuedIn(labels)
      && DeskRun(labels) == Desk(Carried(y.queued, y.mail), y.topic, |y.sending|)
  {
    RunWithin(labels);
    if labels != [] {
      var before, l := labels[..|labels| - 1], labels[|labels| - 1];
      RunRefines(before);
      StepRefines(Run(before), DeskRun(before), l);
      hide Carried, Within, PostStep, DeskStep, Enabled, DeskEnabled;
    }
  }
}
