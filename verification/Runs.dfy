/** What holds in every interleaving (worker.cpp). */
module Runs {
  import opened Server
  import opened Conservation

  /** Steps that leave the pipes and the workers alone. */
  lemma SameInFlight<M(!new)>(sv: Service<M>, s: State<M>, t: State<M>)
    requires Shaped(s) && Shaped(t) && t.inbox == s.inbox && t.workers == s.workers && t.outbox == s.outbox
    ensures InFlight(sv, t) == InFlight(sv, s)
  {
    assert Bags(sv, t) == Bags(sv, s);
  }

  /** Once everything was received, nothing is in flight: counting was enough. */
  lemma CountingIsEnough<M(!new)>(sv: Service<M>, s: State<M>)
    requires Inv(sv, s) && !s.Shutdown() && s.phase.Collecting? && |s.phase.got| == |s.phase.batches|
    ensures InFlight(sv, s) == multiset{}
    ensures multiset(s.phase.got) == multiset(Answers(sv, s.phase.batches))
  {
    assert |multiset(s.phase.got)| == |multiset(Answers(sv, s.phase.batches))|;
    assert |InFlight(sv, s) + multiset(s.phase.got)| == |InFlight(sv, s)| + |s.phase.got|;
  }

  lemma SentNext<M(!new)>(sv: Service<M>, batches: seq<M>, sent: nat)
    requires sent < |batches|
    ensures multiset(Answers(sv, batches[..sent + 1])) ==
            multiset(Answers(sv, batches[..sent])) + multiset{sv.answer(batches[sent])}
  {
    AnswersSplit(sv, batches[..sent], [batches[sent]]);
    AnswersOfOne(sv, batches[sent]);
    assert batches[..sent + 1] == batches[..sent] + [batches[sent]];
  }

  lemma DispatchKeeps<M(!new)>(sv: Service<M>, s: State<M>, w: nat)
    requires Inv(sv, s) && Can(sv, s, Dispatch(w))
    ensures Conserved(sv, Do(sv, s, Dispatch(w)))
  {
    DispatchConserves(sv, s, w);
    SentNext(sv, s.phase.batches, s.phase.sent);
  }

  lemma CollectKeeps<M(!new)>(sv: Service<M>, s: State<M>, w: nat)
    requires Inv(sv, s) && Can(sv, s, Collect(w))
    ensures Conserved(sv, Do(sv, s, Collect(w)))
  {
    CollectConserves(sv, s, w);
  }

  lemma WorkerStepKeeps<M(!new)>(sv: Service<M>, s: State<M>, a: Step<M>)
    requires Inv(sv, s) && Can(sv, s, a) && !s.Shutdown() && (a.Pull? || a.Compute? || a.Push?)
    ensures Conserved(sv, Do(sv, s, a))
  {
    match a {
      case Pull(w) => PullConserves(sv, s, w);
      case Compute(w) => ComputeConserves(sv, s, w);
      case Push(w) => PushConserves(sv, s, w);
    }
  }

  lemma ServerStepKeeps<M(!new)>(sv: Service<M>, s: State<M>, a: Step<M>)
    requires Inv(sv, s) && Can(sv, s, a) && !s.Shutdown() && (a.Receive? || a.AllSent? || a.Reply?)
    ensures Conserved(sv, Do(sv, s, a))
  {
    var t := Do(sv, s, a);
    SameInFlight(sv, s, t);
    if a.AllSent? {
      assert s.phase.batches[..s.phase.sent] == s.phase.batches;
    } else if a.Reply? {
      CountingIsEnough(sv, s);
    } else if t.phase.Dispatching? {
      assert t.phase.batches[..0] == [];
    }
  }

  lemma StepConserves<M(!new)>(sv: Service<M>, s: State<M>, a: Step<M>)
    requires Inv(sv, s) && Can(sv, s, a) && !Do(sv, s, a).Shutdown()
    ensures Conserved(sv, Do(sv, s, a))
  {
    match a {
      case Dispatch(w) => DispatchKeeps(sv, s, w);
      case Collect(w) => CollectKeeps(sv, s, w);
      case Pull(_) => WorkerStepKeeps(sv, s, a);
      case Compute(_) => WorkerStepKeeps(sv, s, a);
      case Push(_) => WorkerStepKeeps(sv, s, a);
      case _ => ServerStepKeeps(sv, s, a);
    }
  }

  lemma StepAnswers<M(!new)>(sv: Service<M>, s: State<M>, a: Step<M>)
    requires Inv(sv, s) && Can(sv, s, a)
    ensures var t := Do(sv, s, a);
            forall i :: 0 <= i < |t.history| ==> Answered(sv, t.history[i].0, t.history[i].1)
  {
    if a.Reply? {
      CountingIsEnough(sv, s);
    }
  }

  /** The parts of the invariant that say nothing about what is in flight. */
  lemma StepShape<M(!new)>(sv: Service<M>, s: State<M>, a: Step<M>)
    requires Inv(sv, s) && Can(sv, s, a)
    ensures var t := Do(sv, s, a);
            && (!t.phase.Serving() ==> t.Shutdown())
            && (!t.Shutdown() ==> forall w :: 0 <= w < |t.workers| ==> !t.workers[w].Exited?)
            && (t.phase.Joining? ==> t.phase.joined <= |t.workers|)
  {
  }

  lemma StepInv<M(!new)>(sv: Service<M>, s: State<M>, a: Step<M>)
    requires Inv(sv, s) && Can(sv, s, a)
    ensures Inv(sv, Do(sv, s, a))
  {
    StepShape(sv, s, a);
    StepAnswers(sv, s, a);
    if !Do(sv, s, a).Shutdown() {
      StepConserves(sv, s, a);
    }
  }

  // ----- runs -----

  /** Each state follows from the one before by one enabled step, in any interleaving. */
  ghost predicate Path<M(!new)>(sv: Service<M>, states: seq<State<M>>, steps: seq<Step<M>>) {
    && |states| == |steps| + 1
    && forall i :: 0 <= i < |steps| ==> Follows(sv, states[i], steps[i], states[i + 1])
  }

  ghost predicate Run<M(!new)>(sv: Service<M>, threads: nat, states: seq<State<M>>, steps: seq<Step<M>>) {
    Path(sv, states, steps) && states[0] == Init(threads)
  }

  ghost predicate Follows<M(!new)>(sv: Service<M>, s: State<M>, a: Step<M>, t: State<M>) {
    Shaped(s) && Can(sv, s, a) && t == Do(sv, s, a)
  }

  /** What holds at first and is kept from each state to the next holds in every state. */
  lemma {:induction false} Along<M(!new)>(states: seq<State<M>>, holds: State<M> -> bool, n: nat)
    requires n < |states| && holds(states[0])
    requires forall i :: 0 < i < |states| && holds(states[i - 1]) ==> holds(states[i])
    ensures holds(states[n])
  {
    if n > 0 {
      Along(states, holds, n - 1);
    }
  }

  lemma {:induction false} RunInv<M(!new)>(sv: Service<M>, threads: nat, states: seq<State<M>>, steps: seq<Step<M>>, i: nat)
    requires Run(sv, threads, states, steps) && i < |states|
    ensures Inv(sv, states[i]) && |states[i].workers| == threads
  {
    if i == 0 {
      InitInv(sv, threads);
    } else {
      RunInv(sv, threads, states, steps, i - 1);
      assert Follows(sv, states[i - 1], steps[i - 1], states[i]);
      StepInv(sv, states[i - 1], steps[i - 1]);
    }
  }

  predicate Quiet<M(!new)>(s: State<M>)
    requires Shaped(s)
  {
    forall w :: 0 <= w < |s.workers| ==> s.inbox[w] == [] && s.workers[w].Ready? && s.outbox[w] == []
  }

  lemma NothingInFlight<M(!new)>(sv: Service<M>, s: State<M>)
    requires Inv(sv, s) && !s.Shutdown() && InFlight(sv, s) == multiset{}
    ensures Quiet(s)
  {
    forall w | 0 <= w < |s.workers|
      ensures s.inbox[w] == [] && s.workers[w].Ready? && s.outbox[w] == []
    {
      SumAtLeast(Bags(sv, s), w);
      assert Bags(sv, s)[w] == OwedBy(sv, s, w);
      NothingOwed(sv, s.inbox[w], s.workers[w], s.outbox[w]);
    }
  }

  lemma NothingOwed<M(!new)>(sv: Service<M>, inbox: seq<M>, w: Worker<M>, outbox: seq<M>)
    requires Owed(sv, inbox, w, outbox) == multiset{}
    ensures inbox == [] && outbox == [] && !w.Pulled? && !w.Computed?
  {
    assert |Owed(sv, inbox, w, outbox)| == |Answers(sv, inbox)| + |Held(sv, w)| + |outbox|;
  }

  /**
    In every run, whenever the server is between requests, and already when it has
    counted its last result, every pipe is empty and every worker is waiting: no
    row of one request can reach the reply to a later one.
   */
  lemma NothingLeaks<M(!new)>(sv: Service<M>, threads: nat, states: seq<State<M>>, steps: seq<Step<M>>, i: nat)
    requires Run(sv, threads, states, steps) && i < |states| && !states[i].Shutdown()
    requires var p := states[i].phase; p.Idle? || (p.Collecting? && |p.got| == |p.batches|)
    ensures Shaped(states[i]) && Quiet(states[i])
  {
    RunInv(sv, threads, states, steps, i);
    if states[i].phase.Collecting? {
      CountingIsEnough(sv, states[i]);
    }
    NothingInFlight(sv, states[i]);
  }

  /** In every run, each reply was made from exactly the answers to its own request's batches. */
  lemma RepliesAreOwn<M(!new)>(sv: Service<M>, threads: nat, states: seq<State<M>>, steps: seq<Step<M>>, i: nat, k: nat)
    requires Run(sv, threads, states, steps) && i < |states| && k < |states[i].history|
    ensures Answered(sv, states[i].history[k].0, states[i].history[k].1)
  {
    RunInv(sv, threads, states, steps, i);
  }
}
