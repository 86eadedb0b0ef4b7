/** The blocking queue as a system of atomic steps (mpmc_blocking_q.h). */
module BlockingQueue {
  import opened Wrappers
  import opened CircularQueue

  // ----- what one lock region does -----

  /** The queue object; each method is what happens while the mutex is held. */
  class MpmcBlockingQueue<T(0)> {
    const q: CircularQ<T>
    var discardCounter: nat

    ghost predicate Valid()
      reads this, q
    {
      q.Valid()
    }

    constructor (maxItems: nat)
      ensures Valid() && fresh(q) && fresh(q.v) && q.Model() == Queue([], maxItems + 1, 0) && discardCounter == 0
    {
      q := new CircularQ(maxItems);
      discardCounter := 0;
    }

    /** `enqueue`: one evaluation of the wait's predicate; the item goes in unless the queue is full. */
    method TryEnqueue(item: T) returns (pushed: bool)
      requires Valid()
      modifies q, q.v
      ensures Valid() && pushed == !old(q.Model()).Full()
      ensures q.Model() == if pushed then old(q.Model()).PushBack(item) else old(q.Model())
    {
      pushed := !q.Full();
      if pushed {
        q.PushBack(item);
      }
    }

    method EnqueueNowait(item: T)
      requires Valid()
      modifies q, q.v
      ensures Valid() && q.Model() == old(q.Model()).PushBack(item)
    {
      q.PushBack(item);
    }

    /** `dequeue` and `dequeue_for`: one evaluation of the wait's predicate. */
    method TryDequeue() returns (popped: Option<T>)
      requires Valid()
      modifies q
      ensures Valid()
      ensures var m := old(q.Model());
              if m.Empty() then popped == None && q.Model() == m
              else popped == Some(m.items[0]) && q.Model() == m.PopFront()
    {
      if q.Empty() {
        return None;
      }
      var item := q.Front();
      q.PopFront();
      popped := Some(item);
    }

    method CountDiscard()
      modifies this
      ensures discardCounter == old(discardCounter) + 1
    {
      discardCounter := discardCounter + 1;
    }
  }

  // ----- all threads together -----

  /**
    Threads are counted by where they are. A producer that waits carries its item.
    `offered` holds the items in the order their calls decided about them.
   */
  datatype State<T> = State(
    q: Queue<T>,
    discards: nat,
    /** Asleep in `dequeue`, asleep in `dequeue_for`, asleep in `enqueue`. */
    consumers: nat,
    timed: nat,
    producers: multiset<T>,
    /** Awake again, but not yet holding the mutex. */
    wokenConsumers: nat,
    wokenTimed: nat,
    expired: nat,
    wokenProducers: multiset<T>,
    /** `notify_one` calls and counter updates that are still to come after a lock region. */
    pushNotices: nat,
    popNotices: nat,
    pendingDiscards: nat,
    offered: seq<T>,
    dequeued: seq<T>)

  function Init<T>(maxItems: nat): State<T> {
    State(Queue([], maxItems + 1, 0), 0, 0, 0, multiset{}, 0, 0, 0, multiset{}, 0, 0, 0, [], [])
  }

  datatype Step<T> =
    | Enqueue(item: T)
    | EnqueueAgain(item: T)
    | EnqueueNowait(item: T)
    | EnqueueIfHaveRoom(item: T)
    | CountDiscard
    | Dequeue
    | DequeueAgain
    | DequeueFor
    | DequeueForAgain
    | DequeueForExpired
    | NotifyConsumer
    | NotifyTimed
    | NotifyNoConsumer
    | NotifyProducer(item: T)
    | NotifyNoProducer
    | WakeConsumer
    | WakeTimed
    | Expire
    | WakeProducer(item: T)

  predicate Can<T(==)>(s: State<T>, a: Step<T>) {
    match a
    case EnqueueAgain(x) => x in s.wokenProducers
    case CountDiscard => s.pendingDiscards > 0
    case DequeueAgain => s.wokenConsumers > 0
    case DequeueForAgain => s.wokenTimed > 0
    case DequeueForExpired => s.expired > 0
    case NotifyConsumer => s.pushNotices > 0 && s.consumers > 0
    case NotifyTimed => s.pushNotices > 0 && s.timed > 0
    case NotifyNoConsumer => s.pushNotices > 0 && s.consumers == 0 && s.timed == 0
    case NotifyProducer(x) => s.popNotices > 0 && x in s.producers
    case NotifyNoProducer => s.popNotices > 0 && s.producers == multiset{}
    case WakeConsumer => s.consumers > 0
    case WakeTimed => s.timed > 0
    case Expire => s.timed > 0
    case WakeProducer(x) => x in s.producers
    case _ => true
  }

  /** The item goes in; the producer still has to notify a consumer. */
  function Accept<T>(s: State<T>, x: T): State<T> {
    s.(q := s.q.PushBack(x), pushNotices := s.pushNotices + 1, offered := s.offered + [x])
  }

  /** The oldest item goes out; the consumer still has to notify a producer. */
  function Take<T>(s: State<T>): State<T>
    requires !s.q.Empty()
  {
    s.(q := s.q.PopFront(), popNotices := s.popNotices + 1, dequeued := s.dequeued + [s.q.items[0]])
  }

  function Do<T(==)>(s: State<T>, a: Step<T>): State<T>
    requires Can(s, a)
  {
    match a
    case Enqueue(x) => if s.q.Full() then s.(producers := s.producers + multiset{x}) else Accept(s, x)
    case EnqueueAgain(x) =>
      var r := s.(wokenProducers := s.wokenProducers - multiset{x});
      if s.q.Full() then r.(producers := r.producers + multiset{x}) else Accept(r, x)
    case EnqueueNowait(x) => Accept(s, x)
    case EnqueueIfHaveRoom(x) =>
      if s.q.Full() then s.(pendingDiscards := s.pendingDiscards + 1, offered := s.offered + [x]) else Accept(s, x)
    case CountDiscard => s.(pendingDiscards := s.pendingDiscards - 1, discards := s.discards + 1)
    case Dequeue => if s.q.Empty() then s.(consumers := s.consumers + 1) else Take(s)
    case DequeueAgain =>
      var r := s.(wokenConsumers := s.wokenConsumers - 1);
      if s.q.Empty() then r.(consumers := r.consumers + 1) else Take(r)
    case DequeueFor => if s.q.Empty() then s.(timed := s.timed + 1) else Take(s)
    case DequeueForAgain =>
      var r := s.(wokenTimed := s.wokenTimed - 1);
      if s.q.Empty() then r.(timed := r.timed + 1) else Take(r)
    case DequeueForExpired =>
      var r := s.(expired := s.expired - 1);
      if s.q.Empty() then r else Take(r)
    case NotifyConsumer =>
      s.(pushNotices := s.pushNotices - 1, consumers := s.consumers - 1, wokenConsumers := s.wokenConsumers + 1)
    case NotifyTimed => s.(pushNotices := s.pushNotices - 1, timed := s.timed - 1, wokenTimed := s.wokenTimed + 1)
    case NotifyNoConsumer => s.(pushNotices := s.pushNotices - 1)
    case NotifyProducer(x) =>
      s.(popNotices := s.popNotices - 1, producers := s.producers - multiset{x},
         wokenProducers := s.wokenProducers + multiset{x})
    case NotifyNoProducer => s.(popNotices := s.popNotices - 1)
    case WakeConsumer => s.(consumers := s.consumers - 1, wokenConsumers := s.wokenConsumers + 1)
    case WakeTimed => s.(timed := s.timed - 1, wokenTimed := s.wokenTimed + 1)
    case Expire => s.(timed := s.timed - 1, expired := s.expired + 1)
    case WakeProducer(x) =>
      s.(producers := s.producers - multiset{x}, wokenProducers := s.wokenProducers + multiset{x})
  }

  // ----- no lost wakeup -----

  /** Free slots of an enabled queue. */
  function Room<T>(q: Queue<T>): int {
    q.maxItems - 1 - |q.items|
  }

  function Woken<T>(s: State<T>): nat {
    s.wokenConsumers + s.wokenTimed + s.expired
  }

  /**
    While a consumer sleeps, every stored item has a notification still to come or a
    consumer already on its way; while a producer sleeps, every free slot has.
   */
  ghost predicate NoLostWakeup<T>(s: State<T>) {
    && (s.consumers + s.timed > 0 ==> |s.q.items| <= s.pushNotices + Woken(s))
    && (|s.producers| > 0 ==> s.q.maxItems > 0 && Room(s.q) <= s.popNotices + |s.wokenProducers|)
  }

  lemma WakeupsKept<T>(s: State<T>, a: Step<T>)
    requires Can(s, a) && s.q.Valid() && NoLostWakeup(s)
    ensures Do(s, a).q.Valid() && NoLostWakeup(Do(s, a))
  {
  }

  // ----- order and accounting -----

  predicate Subsequence<T(==)>(a: seq<T>, b: seq<T>)
    decreases |b|
  {
    if a == [] then true
    else if b == [] then false
    else
      || Subsequence(a, b[..|b| - 1])
      || (a[|a| - 1] == b[|b| - 1] && Subsequence(a[..|a| - 1], b[..|b| - 1]))
  }

  lemma SubsequenceExtends<T>(a: seq<T>, b: seq<T>, x: T)
    requires Subsequence(a, b)
    ensures Subsequence(a, b + [x]) && Subsequence(a + [x], b + [x])
  {
    assert (b + [x])[..|b|] == b && (a + [x])[..|a|] == a;
  }

  lemma {:induction false} SubsequenceDrops<T>(a: seq<T>, b: seq<T>, k: nat)
    requires Subsequence(a, b) && k < |a|
    ensures Subsequence(a[..k] + a[k + 1..], b)
    decreases |b|
  {
    var m, n := |a| - 1, |b| - 1;
    if Subsequence(a, b[..n]) {
      SubsequenceDrops(a, b[..n], k);
      SubsequenceExtends(a[..k] + a[k + 1..], b[..n], b[n]);
      assert b == b[..n] + [b[n]];
    } else if k == m {
      SubsequenceExtends(a[..m], b[..n], b[n]);
      assert b == b[..n] + [b[n]] && a[..k] + a[k + 1..] == a[..m];
    } else {
      SubsequenceDrops(a[..m], b[..n], k);
      var dropped := a[..m][..k] + a[..m][k + 1..];
      SubsequenceExtends(dropped, b[..n], b[n]);
      assert b == b[..n] + [b[n]] && a[..k] + a[k + 1..] == dropped + [a[m]];
    }
  }

  function Kept<T>(s: State<T>): seq<T> {
    s.dequeued + s.q.items
  }

  /** Items lost so far, of an enabled queue. */
  function Lost<T>(s: State<T>): nat {
    s.q.overruns + s.discards + s.pendingDiscards
  }

  /** First in, first out: what came out and what is stored are the offered items in their order, less the lost ones. */
  ghost predicate Accounted<T>(s: State<T>) {
    && Subsequence(Kept(s), s.offered)
    && (s.q.maxItems > 0 ==> |s.offered| == |Kept(s)| + Lost(s))
    && (s.q.maxItems > 0 && Lost(s) == 0 ==> Kept(s) == s.offered)
  }

  /** An overrun drops the oldest stored item and adds the new one. */
  lemma OverrunKept<T>(out: seq<T>, items: seq<T>, offered: seq<T>, x: T)
    requires Subsequence(out + items, offered)
    ensures Subsequence(out + (items + [x])[1..], offered + [x])
  {
    var all := out + items + [x];
    SubsequenceExtends(out + items, offered, x);
    SubsequenceDrops(all, offered + [x], |out|);
    assert out + (items + [x])[1..] == all[..|out|] + all[|out| + 1..];
  }

  lemma AcceptAccounted<T>(s: State<T>, x: T)
    requires s.q.Valid() && Accounted(s)
    ensures Accounted(Accept(s, x))
  {
    SubsequenceExtends(Kept(s), s.offered, x);
    if s.q.maxItems > 0 {
      OverrunKept(s.dequeued, s.q.items, s.offered, x);
      assert !s.q.Full() ==> Kept(Accept(s, x)) == Kept(s) + [x];
    }
  }

  lemma TakeAccounted<T>(s: State<T>)
    requires Accounted(s) && !s.q.Empty()
    ensures Accounted(Take(s))
  {
    assert Kept(Take(s)) == Kept(s);
  }

  lemma StepAccounted<T>(s: State<T>, a: Step<T>)
    requires Can(s, a) && s.q.Valid() && Accounted(s)
    ensures Accounted(Do(s, a))
  {
    match a {
      case Enqueue(x) =>
        if !s.q.Full() { AcceptAccounted(s, x); }
      case EnqueueAgain(x) =>
        if !s.q.Full() { AcceptAccounted(s.(wokenProducers := s.wokenProducers - multiset{x}), x); }
      case EnqueueNowait(x) => AcceptAccounted(s, x);
      case EnqueueIfHaveRoom(x) =>
        if s.q.Full() {
          SubsequenceExtends(Kept(s), s.offered, x);
        } else {
          AcceptAccounted(s, x);
        }
      case Dequeue => if !s.q.Empty() { TakeAccounted(s); }
      case DequeueAgain => if !s.q.Empty() { TakeAccounted(s.(wokenConsumers := s.wokenConsumers - 1)); }
      case DequeueFor => if !s.q.Empty() { TakeAccounted(s); }
      case DequeueForAgain => if !s.q.Empty() { TakeAccounted(s.(wokenTimed := s.wokenTimed - 1)); }
      case DequeueForExpired => if !s.q.Empty() { TakeAccounted(s.(expired := s.expired - 1)); }
      case _ =>
    }
  }

  // ----- runs -----

  ghost predicate Run<T>(maxItems: nat, states: seq<State<T>>, steps: seq<Step<T>>) {
    && |states| == |steps| + 1 && states[0] == Init(maxItems)
    && forall i :: 0 <= i < |steps| ==> Follows(states[i], steps[i], states[i + 1])
  }

  ghost predicate Follows<T>(s: State<T>, a: Step<T>, t: State<T>) {
    Can(s, a) && t == Do(s, a)
  }

  ghost predicate Inv<T>(s: State<T>, maxItems: nat) {
    s.q.Valid() && s.q.maxItems == maxItems + 1 && NoLostWakeup(s) && Accounted(s)
  }

  lemma {:induction false} RunInv<T>(maxItems: nat, states: seq<State<T>>, steps: seq<Step<T>>, i: nat)
    requires Run(maxItems, states, steps) && i < |states|
    ensures Inv(states[i], maxItems)
  {
    if i > 0 {
      RunInv(maxItems, states, steps, i - 1);
      assert Follows(states[i - 1], steps[i - 1], states[i]);
      WakeupsKept(states[i - 1], steps[i - 1]);
      StepAccounted(states[i - 1], steps[i - 1]);
    }
  }

  /** No notification is outstanding and nobody is on the way to the mutex. */
  predicate Settled<T(==)>(s: State<T>) {
    s.pushNotices == 0 && s.popNotices == 0 && Woken(s) == 0 && s.wokenProducers == multiset{}
  }

  /**
    In every run, once notifications settle no one sleeps who could proceed: a
    consumer sleeps only on an empty queue and a producer only on a full one, and
    both at once only if the capacity is 0.
   */
  lemma SettledMeansStuckForAReason<T>(maxItems: nat, states: seq<State<T>>, steps: seq<Step<T>>, i: nat)
    requires Run(maxItems, states, steps) && i < |states| && Settled(states[i])
    ensures var s := states[i];
            && (s.consumers + s.timed > 0 ==> s.q.Empty())
            && (|s.producers| > 0 ==> s.q.Full())
            && (s.consumers + s.timed > 0 && |s.producers| > 0 ==> maxItems == 0)
  {
    RunInv(maxItems, states, steps, i);
  }

  predicate Blocking<T>(a: Step<T>) {
    !a.EnqueueNowait? && !a.EnqueueIfHaveRoom?
  }

  lemma {:induction false} BlockingLosesNothing<T>(maxItems: nat, states: seq<State<T>>, steps: seq<Step<T>>, i: nat)
    requires Run(maxItems, states, steps) && i < |states| && forall j :: 0 <= j < |steps| ==> Blocking(steps[j])
    ensures Lost(states[i]) == 0
  {
    if i > 0 {
      BlockingLosesNothing(maxItems, states, steps, i - 1);
      assert Follows(states[i - 1], steps[i - 1], states[i]);
      assert Blocking(steps[i - 1]);
    }
  }

  /** With blocking `enqueue` alone, the queue hands out the whole sequence in order. */
  lemma BlockingIsFifo<T>(maxItems: nat, states: seq<State<T>>, steps: seq<Step<T>>, i: nat)
    requires Run(maxItems, states, steps) && i < |states|
    requires forall j :: 0 <= j < |steps| ==> Blocking(steps[j])
    ensures states[i].dequeued + states[i].q.items == states[i].offered
  {
    RunInv(maxItems, states, steps, i);
    BlockingLosesNothing(maxItems, states, steps, i);
  }

  /** In every run the counters account for every offered item. */
  lemma OfferedIsAccountedFor<T>(maxItems: nat, states: seq<State<T>>, steps: seq<Step<T>>, i: nat)
    requires Run(maxItems, states, steps) && i < |states|
    ensures var s := states[i];
            && |s.offered| == |s.dequeued| + |s.q.items| + s.q.overruns + s.discards + s.pendingDiscards
            && Subsequence(s.dequeued + s.q.items, s.offered) && |s.q.items| <= maxItems
  {
    RunInv(maxItems, states, steps, i);
  }

  /** In every run, under every schedule, spurious wakeup and timeout, no wakeup is lost. */
  lemma NeverLost<T>(maxItems: nat, states: seq<State<T>>, steps: seq<Step<T>>, i: nat)
    requires Run(maxItems, states, steps) && i < |states|
    ensures NoLostWakeup(states[i])
  {
    RunInv(maxItems, states, steps, i);
  }

  // ----- what each call does to the items -----

  /** `enqueue` goes in at the back, or waits on a full queue and changes nothing. */
  lemma EnqueueDoes<T>(s: State<T>, a: Step<T>, x: T)
    requires s.q.Valid() && s.q.maxItems > 0 && Can(s, a) && (a == Enqueue(x) || a == EnqueueAgain(x))
    ensures var t, full := Do(s, a), |s.q.items| == s.q.maxItems - 1;
            && t.q == (if full then s.q else s.q.(items := s.q.items + [x]))
            && t.offered == (if full then s.offered else s.offered + [x])
            && t.pushNotices == s.pushNotices + (if full then 0 else 1)
            && t.producers == (if full then s.producers + multiset{x} else s.producers)
            && t.wokenProducers + (if a.EnqueueAgain? then multiset{x} else multiset{}) == s.wokenProducers
            && t.dequeued == s.dequeued && t.discards == s.discards && t.pendingDiscards == s.pendingDiscards
  {
  }

  /** `enqueue_nowait` always goes in; on a full queue the oldest item makes room and is counted as overrun. */
  lemma EnqueueNowaitDoes<T>(s: State<T>, x: T)
    requires s.q.Valid() && s.q.maxItems > 0
    ensures var t, full := Do(s, EnqueueNowait(x)), |s.q.items| == s.q.maxItems - 1;
            && t.q.items == (if full then (s.q.items + [x])[1..] else s.q.items + [x])
            && t.q.overruns == s.q.overruns + (if full then 1 else 0) && t.q.maxItems == s.q.maxItems
            && t == s.(q := t.q, offered := s.offered + [x], pushNotices := s.pushNotices + 1)
    ensures s.q.maxItems > 1 ==> var items := Do(s, EnqueueNowait(x)).q.items; items != [] && items[|items| - 1] == x
  {
  }

  /** `enqueue_if_have_room` goes in, or is dropped and counted, and the stored items stay as they are. */
  lemma EnqueueIfHaveRoomDoes<T>(s: State<T>, x: T)
    requires s.q.Valid() && s.q.maxItems > 0
    ensures var t, full := Do(s, EnqueueIfHaveRoom(x)), |s.q.items| == s.q.maxItems - 1;
            t == if full then s.(offered := s.offered + [x], pendingDiscards := s.pendingDiscards + 1)
                 else s.(q := s.q.(items := s.q.items + [x]), offered := s.offered + [x], pushNotices := s.pushNotices + 1)
    ensures s.pendingDiscards > 0 ==>
              Do(s, CountDiscard) == s.(pendingDiscards := s.pendingDiscards - 1, discards := s.discards + 1)
  {
  }

  predicate Dequeues<T>(a: Step<T>) {
    a.Dequeue? || a.DequeueAgain? || a.DequeueFor? || a.DequeueForAgain? || a.DequeueForExpired?
  }

  /** Both forms of dequeueing take the oldest item, or find none and change neither items nor order. */
  lemma DequeueDoes<T>(s: State<T>, a: Step<T>)
    requires Can(s, a) && Dequeues(a)
    ensures var t := Do(s, a);
            && (s.q.items == [] ==> t.q == s.q && t.dequeued == s.dequeued && t.popNotices == s.popNotices)
            && (s.q.items != [] ==>
                  && t.q == s.q.(items := s.q.items[1..]) && t.dequeued == s.dequeued + [s.q.items[0]]
                  && t.popNotices == s.popNotices + 1)
            && t.offered == s.offered && t.pushNotices == s.pushNotices && t.producers == s.producers
    ensures var inside := (u: State<T>) => u.consumers + u.timed + u.wokenConsumers + u.wokenTimed + u.expired;
            var entered := if a.Dequeue? || a.DequeueFor? then 1 else 0;
            var left := if s.q.items != [] || a.DequeueForExpired? then 1 else 0;
            inside(Do(s, a)) + left == inside(s) + entered
  {
  }

  predicate Moves<T>(a: Step<T>) {
    || a.NotifyConsumer? || a.NotifyTimed? || a.NotifyNoConsumer? || a.NotifyProducer? || a.NotifyNoProducer?
    || a.WakeConsumer? || a.WakeTimed? || a.Expire? || a.WakeProducer?
  }

  /** Notifying uses up one notification; notifying and waking move at most one thread and touch no item. */
  lemma MovesDo<T>(s: State<T>, a: Step<T>)
    requires Can(s, a) && Moves(a)
    ensures var t := Do(s, a);
            && t.q == s.q && t.offered == s.offered && t.dequeued == s.dequeued
            && t.discards == s.discards && t.pendingDiscards == s.pendingDiscards
            && t.consumers + t.timed + Woken(t) == s.consumers + s.timed + Woken(s)
            && t.producers + t.wokenProducers == s.producers + s.wokenProducers
            && t.pushNotices == s.pushNotices - (if a.NotifyConsumer? || a.NotifyTimed? || a.NotifyNoConsumer? then 1 else 0)
            && t.popNotices == s.popNotices - (if a.NotifyProducer? || a.NotifyNoProducer? then 1 else 0)
            && (a.NotifyConsumer? || a.NotifyTimed? || a.WakeConsumer? || a.WakeTimed? || a.Expire? ==>
                  Woken(t) == Woken(s) + 1)
            && (a.NotifyProducer? || a.WakeProducer? ==> |t.wokenProducers| == |s.wokenProducers| + 1)
  {
  }

  /** Every call can be made at any time, and a notification is never stuck. */
  lemma NothingIsForbidden<T>(s: State<T>, x: T)
    ensures Can(s, Enqueue(x)) && Can(s, EnqueueNowait(x)) && Can(s, EnqueueIfHaveRoom(x))
    ensures Can(s, Dequeue) && Can(s, DequeueFor)
    ensures x in s.wokenProducers ==> Can(s, EnqueueAgain(x))
    ensures s.wokenConsumers > 0 ==> Can(s, DequeueAgain)
    ensures s.wokenTimed > 0 ==> Can(s, DequeueForAgain)
    ensures s.expired > 0 ==> Can(s, DequeueForExpired)
    ensures s.pushNotices > 0 ==> Can(s, NotifyConsumer) || Can(s, NotifyTimed) || Can(s, NotifyNoConsumer)
    ensures s.popNotices > 0 && x in s.producers ==> Can(s, NotifyProducer(x))
    ensures s.consumers > 0 ==> Can(s, WakeConsumer)
    ensures s.timed > 0 ==> Can(s, WakeTimed) && Can(s, Expire)
    ensures x in s.producers ==> Can(s, WakeProducer(x))
  {
  }
}
