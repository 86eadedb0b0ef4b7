/** No step loses or duplicates an answer (worker.cpp). */
module Conservation {
  import opened Wrappers
  import opened Server

  function Answers<M(!new)>(sv: Service<M>, msgs: seq<M>): (r: seq<M>)
    ensures |r| == |msgs|
  {
    if msgs == [] then [] else Answers(sv, msgs[..|msgs| - 1]) + [sv.answer(msgs[|msgs| - 1])]
  }

  lemma {:induction false} AnswersSplit<M(!new)>(sv: Service<M>, a: seq<M>, b: seq<M>)
    ensures Answers(sv, a + b) == Answers(sv, a) + Answers(sv, b)
  {
    if b == [] {
      assert a + b == a;
    } else {
      var n := |b| - 1;
      AnswersSplit(sv, a, b[..n]);
      assert (a + b)[..|a + b| - 1] == a + b[..n];
    }
  }

  lemma AnswersOfOne<M(!new)>(sv: Service<M>, m: M)
    ensures Answers(sv, [m]) == [sv.answer(m)]
  {
    assert [m][..0] == [];
  }

  function Held<M(!new)>(sv: Service<M>, w: Worker<M>): multiset<M> {
    match w
    case Pulled(m) => multiset{sv.answer(m)}
    case Computed(r) => multiset{r}
    case _ => multiset{}
  }

  /** The result messages a worker with these pipes will still deliver, or has delivered but the server not received. */
  function Owed<M(!new)>(sv: Service<M>, inbox: seq<M>, w: Worker<M>, outbox: seq<M>): multiset<M> {
    multiset(Answers(sv, inbox)) + Held(sv, w) + multiset(outbox)
  }

  lemma PullKeepsOwed<M(!new)>(sv: Service<M>, q: seq<M>, out: seq<M>)
    requires q != []
    ensures Owed(sv, q[1..], Pulled(q[0]), out) == Owed(sv, q, Ready, out)
  {
    assert q == [q[0]] + q[1..];
    AnswersSplit(sv, [q[0]], q[1..]);
    AnswersOfOne(sv, q[0]);
  }

  lemma PushKeepsOwed<M(!new)>(sv: Service<M>, q: seq<M>, r: M, out: seq<M>)
    ensures Owed(sv, q, Ready, out + [r]) == Owed(sv, q, Computed(r), out)
  {
  }

  lemma DispatchAddsOwed<M(!new)>(sv: Service<M>, q: seq<M>, w: Worker<M>, out: seq<M>, m: M)
    ensures Owed(sv, q + [m], w, out) == Owed(sv, q, w, out) + multiset{sv.answer(m)}
  {
    AnswersSplit(sv, q, [m]);
    AnswersOfOne(sv, m);
  }

  lemma CollectTakesOwed<M(!new)>(sv: Service<M>, q: seq<M>, w: Worker<M>, out: seq<M>)
    requires out != []
    ensures Owed(sv, q, w, out[1..]) + multiset{out[0]} == Owed(sv, q, w, out)
  {
    assert out == [out[0]] + out[1..];
  }

  // ----- each worker's pipes are in order -----

  function Due<M(!new)>(sv: Service<M>, w: Worker<M>): seq<M> {
    match w
    case Pulled(m) => [sv.answer(m)]
    case Computed(r) => [r]
    case _ => []
  }

  /** The results a worker with these pipes delivers, in the order in which the server receives them. */
  function Line<M(!new)>(sv: Service<M>, s: State<M>, w: nat): seq<M>
    requires Shaped(s) && w < |s.workers|
  {
    s.outbox[w] + Due(sv, s.workers[w]) + Answers(sv, s.inbox[w])
  }

  lemma PullInOrder<M(!new)>(sv: Service<M>, s: State<M>, w: nat)
    requires Shaped(s) && Can(sv, s, Pull(w))
    ensures Line(sv, Do(sv, s, Pull(w)), w) == Line(sv, s, w)
  {
    var q := s.inbox[w];
    assert q == [q[0]] + q[1..];
    AnswersSplit(sv, [q[0]], q[1..]);
    AnswersOfOne(sv, q[0]);
  }

  lemma DispatchInOrder<M(!new)>(sv: Service<M>, s: State<M>, w: nat)
    requires Shaped(s) && Can(sv, s, Dispatch(w))
    ensures Line(sv, Do(sv, s, Dispatch(w)), w) == Line(sv, s, w) + [sv.answer(s.phase.batches[s.phase.sent])]
  {
    AnswersSplit(sv, s.inbox[w], [s.phase.batches[s.phase.sent]]);
    AnswersOfOne(sv, s.phase.batches[s.phase.sent]);
  }

  /**
    First in, first out, worker by worker: a dispatched batch's answer goes to the end of
    that worker's line, the server receives the front of it, and no other step of a living
    worker changes the line.
   */
  lemma LinesInOrder<M(!new)>(sv: Service<M>, s: State<M>, a: Step<M>, w: nat)
    requires Shaped(s) && Can(sv, s, a) && w < |s.workers| && a != WorkerLeaves(w)
    ensures var t := Do(sv, s, a);
            if a == Dispatch(w) then Line(sv, t, w) == Line(sv, s, w) + [sv.answer(s.phase.batches[s.phase.sent])]
            else if a == Collect(w) then
              && Line(sv, s, w) == [s.outbox[w][0]] + Line(sv, t, w)
              && t.phase.Collecting? && t.phase.got == s.phase.got + [s.outbox[w][0]]
            else Line(sv, t, w) == Line(sv, s, w)
  {
    if a == Dispatch(w) {
      DispatchInOrder(sv, s, w);
    } else if a == Pull(w) {
      PullInOrder(sv, s, w);
    } else if a == Collect(w) {
      assert s.outbox[w] == [s.outbox[w][0]] + s.outbox[w][1..];
    }
  }

  function Sum<M>(bags: seq<multiset<M>>): multiset<M> {
    if bags == [] then multiset{} else Sum(bags[..|bags| - 1]) + bags[|bags| - 1]
  }

  lemma AddToBoth<M>(a: multiset<M>, b: multiset<M>, c: multiset<M>, d: multiset<M>, e: multiset<M>)
    requires a + c == b + d
    ensures a + e + c == b + e + d
  {
    forall x | x in a + e + c + b + d
      ensures (a + e + c)[x] == (b + e + d)[x]
    {
      assert (a + c)[x] == (b + d)[x];
    }
  }

  lemma {:induction false} SumUpdate<M>(bags: seq<multiset<M>>, w: nat, x: multiset<M>)
    requires w < |bags|
    ensures Sum(bags[w := x]) + bags[w] == Sum(bags) + x
  {
    var n := |bags| - 1;
    if w < n {
      SumUpdate(bags[..n], w, x);
      assert bags[w := x][..n] == bags[..n][w := x];
      AddToBoth(Sum(bags[..n][w := x]), Sum(bags[..n]), bags[w], x, bags[n]);
    } else {
      assert bags[w := x][..n] == bags[..n];
    }
  }

  lemma {:induction false} SumAtLeast<M>(bags: seq<multiset<M>>, w: nat)
    requires w < |bags|
    ensures bags[w] <= Sum(bags)
  {
    if w < |bags| - 1 {
      SumAtLeast(bags[..|bags| - 1], w);
    }
  }

  lemma {:induction false} SumOfNone<M>(bags: seq<multiset<M>>)
    requires forall w :: 0 <= w < |bags| ==> bags[w] == multiset{}
    ensures Sum(bags) == multiset{}
  {
    if bags != [] {
      SumOfNone(bags[..|bags| - 1]);
    }
  }

  function OwedBy<M(!new)>(sv: Service<M>, s: State<M>, w: nat): multiset<M>
    requires Shaped(s) && w < |s.workers|
  {
    Owed(sv, s.inbox[w], s.workers[w], s.outbox[w])
  }

  function Bags<M(!new)>(sv: Service<M>, s: State<M>): (bags: seq<multiset<M>>)
    requires Shaped(s)
    ensures |bags| == |s.workers|
  {
    seq(|s.workers|, w requires 0 <= w < |s.workers| => OwedBy(sv, s, w))
  }

  /** Everything in flight for the current request. */
  function InFlight<M(!new)>(sv: Service<M>, s: State<M>): multiset<M>
    requires Shaped(s)
  {
    Sum(Bags(sv, s))
  }

  lemma Cancel<M>(a: multiset<M>, b: multiset<M>, c: multiset<M>, d: multiset<M>, less: multiset<M>, more: multiset<M>)
    requires a + c == b + d && d + less == c + more
    ensures a + less == b + more
  {
    forall x | x in a + less + b + more
      ensures (a + less)[x] == (b + more)[x]
    {
      assert (a + c)[x] == (b + d)[x] && (d + less)[x] == (c + more)[x];
    }
  }

  /** A step that touches only worker `w` changes what is in flight by that worker's change. */
  lemma OneChanges<M(!new)>(sv: Service<M>, s: State<M>, t: State<M>, w: nat, less: multiset<M>, more: multiset<M>)
    requires Shaped(s) && Shaped(t) && w < |s.workers| == |t.workers|
    requires t.workers == s.workers[w := t.workers[w]]
    requires t.inbox == s.inbox[w := t.inbox[w]] && t.outbox == s.outbox[w := t.outbox[w]]
    requires OwedBy(sv, t, w) + less == OwedBy(sv, s, w) + more
    ensures InFlight(sv, t) + less == InFlight(sv, s) + more
  {
    assert Bags(sv, t) == Bags(sv, s)[w := OwedBy(sv, t, w)];
    SumUpdate(Bags(sv, s), w, OwedBy(sv, t, w));
    Cancel(InFlight(sv, t), InFlight(sv, s), OwedBy(sv, s, w), OwedBy(sv, t, w), less, more);
  }

  lemma OneKeeps<M(!new)>(sv: Service<M>, s: State<M>, t: State<M>, w: nat)
    requires Shaped(s) && Shaped(t) && w < |s.workers| == |t.workers|
    requires t.workers == s.workers[w := t.workers[w]]
    requires t.inbox == s.inbox[w := t.inbox[w]] && t.outbox == s.outbox[w := t.outbox[w]]
    requires OwedBy(sv, t, w) == OwedBy(sv, s, w)
    ensures InFlight(sv, t) == InFlight(sv, s)
  {
    assert Bags(sv, t) == Bags(sv, s);
  }

  /** What was sent for the current request is in flight or received. */
  ghost predicate Conserved<M(!new)>(sv: Service<M>, s: State<M>)
    requires Shaped(s)
  {
    match s.phase
    case Idle => InFlight(sv, s) == multiset{}
    case Dispatching(request, batches, sent) =>
      && sv.admits(request) && sv.split(request) == Some(batches) && sent <= |batches|
      && InFlight(sv, s) == multiset(Answers(sv, batches[..sent]))
    case Collecting(request, batches, got) =>
      && sv.admits(request) && sv.split(request) == Some(batches)
      && InFlight(sv, s) + multiset(got) == multiset(Answers(sv, batches))
    case _ => true
  }

  /** A reply was computed from exactly the answers to the batches of its own request. */
  ghost predicate Answered<M(!new)>(sv: Service<M>, request: M, reply: M) {
    && sv.admits(request)
    && match sv.split(request)
       case None => reply == sv.refusal
       case Some(batches) =>
         exists got :: multiset(got) == multiset(Answers(sv, batches)) && reply == sv.reply(request, got)
  }

  ghost predicate Inv<M(!new)>(sv: Service<M>, s: State<M>) {
    && Shaped(s)
    && (!s.phase.Serving() ==> s.Shutdown())
    && (!s.Shutdown() ==> Conserved(sv, s) && forall w :: 0 <= w < |s.workers| ==> !s.workers[w].Exited?)
    && (s.phase.Joining? ==> s.phase.joined <= |s.workers|)
    && forall i :: 0 <= i < |s.history| ==> Answered(sv, s.history[i].0, s.history[i].1)
  }

  lemma InitInv<M(!new)>(sv: Service<M>, threads: nat)
    ensures Inv(sv, Init(threads))
  {
    SumOfNone(Bags(sv, Init(threads)));
  }

  /** Pulling, computing and pushing move an answer without changing what is in flight. */
  lemma PullConserves<M(!new)>(sv: Service<M>, s: State<M>, w: nat)
    requires Shaped(s) && Can(sv, s, Pull(w))
    ensures InFlight(sv, Do(sv, s, Pull(w))) == InFlight(sv, s)
  {
    PullKeepsOwed(sv, s.inbox[w], s.outbox[w]);
    OneKeeps(sv, s, Do(sv, s, Pull(w)), w);
  }

  lemma ComputeConserves<M(!new)>(sv: Service<M>, s: State<M>, w: nat)
    requires Shaped(s) && Can(sv, s, Compute(w))
    ensures InFlight(sv, Do(sv, s, Compute(w))) == InFlight(sv, s)
  {
    OneKeeps(sv, s, Do(sv, s, Compute(w)), w);
  }

  lemma PushConserves<M(!new)>(sv: Service<M>, s: State<M>, w: nat)
    requires Shaped(s) && Can(sv, s, Push(w))
    ensures InFlight(sv, Do(sv, s, Push(w))) == InFlight(sv, s)
  {
    PushKeepsOwed(sv, s.inbox[w], s.workers[w].result, s.outbox[w]);
    OneKeeps(sv, s, Do(sv, s, Push(w)), w);
  }

  lemma DispatchConserves<M(!new)>(sv: Service<M>, s: State<M>, w: nat)
    requires Shaped(s) && Can(sv, s, Dispatch(w))
    ensures InFlight(sv, Do(sv, s, Dispatch(w))) == InFlight(sv, s) + multiset{sv.answer(s.phase.batches[s.phase.sent])}
  {
    var m := s.phase.batches[s.phase.sent];
    DispatchAddsOwed(sv, s.inbox[w], s.workers[w], s.outbox[w], m);
    OneChanges(sv, s, Do(sv, s, Dispatch(w)), w, multiset{}, multiset{sv.answer(m)});
  }

  lemma CollectConserves<M(!new)>(sv: Service<M>, s: State<M>, w: nat)
    requires Shaped(s) && Can(sv, s, Collect(w))
    ensures InFlight(sv, Do(sv, s, Collect(w))) + multiset{s.outbox[w][0]} == InFlight(sv, s)
  {
    CollectTakesOwed(sv, s.inbox[w], s.workers[w], s.outbox[w]);
    OneChanges(sv, s, Do(sv, s, Collect(w)), w, multiset{s.outbox[w][0]}, multiset{});
  }
}
