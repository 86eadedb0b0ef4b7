/** Every request is answered: the steps on it come to an end (worker.cpp). */
module Progress {
  import opened Server
  import opened Conservation
  import opened Runs

  function WorkOf<M>(inbox: seq<M>, w: Worker<M>, outbox: seq<M>): nat {
    4 * |inbox| + (match w case Pulled(_) => 3 case Computed(_) => 2 case _ => 0) + |outbox|
  }

  function WorkUpTo<M(!new)>(s: State<M>, n: nat): nat
    requires Shaped(s) && n <= |s.workers|
  {
    if n == 0 then 0 else WorkUpTo(s, n - 1) + WorkOf(s.inbox[n - 1], s.workers[n - 1], s.outbox[n - 1])
  }

  /** Steps still needed until the current request is answered. */
  function Work<M(!new)>(s: State<M>): nat
    requires Shaped(s)
    requires s.phase.Dispatching? ==> s.phase.sent <= |s.phase.batches|
  {
    WorkUpTo(s, |s.workers|)
    + match s.phase
      case Dispatching(_, batches, sent) => 2 + 5 * (|batches| - sent)
      case Collecting(_, _, _) => 1
      case _ => 0
  }

  /** Steps the program takes by itself. */
  predicate Internal<M>(a: Step<M>) {
    a.Dispatch? || a.AllSent? || a.Collect? || a.Reply? || a.Pull? || a.Compute? || a.Push?
  }

  lemma {:induction false} WorkChanges<M(!new)>(s: State<M>, t: State<M>, w: nat, n: nat)
    requires Shaped(s) && Shaped(t) && w < |s.workers| == |t.workers| && n <= |s.workers|
    requires t.workers == s.workers[w := t.workers[w]]
    requires t.inbox == s.inbox[w := t.inbox[w]] && t.outbox == s.outbox[w := t.outbox[w]]
    ensures WorkUpTo(t, n) - WorkUpTo(s, n) ==
            if w < n then WorkOf(t.inbox[w], t.workers[w], t.outbox[w]) - WorkOf(s.inbox[w], s.workers[w], s.outbox[w]) else 0
  {
    if n > 0 {
      WorkChanges(s, t, w, n - 1);
    }
  }

  lemma {:induction false} WorkSame<M(!new)>(s: State<M>, t: State<M>, n: nat)
    requires Shaped(s) && Shaped(t) && n <= |s.workers| == |t.workers|
    requires t.inbox == s.inbox && t.workers == s.workers && t.outbox == s.outbox
    ensures WorkUpTo(t, n) == WorkUpTo(s, n)
  {
    if n > 0 {
      WorkSame(s, t, n - 1);
    }
  }

  predicate SentWithin<M(!new)>(s: State<M>) {
    s.phase.Dispatching? ==> s.phase.sent <= |s.phase.batches|
  }

  /** Each internal step leaves less to do. */
  lemma InternalDecreases<M(!new)>(sv: Service<M>, s: State<M>, a: Step<M>)
    requires Shaped(s) && SentWithin(s) && Internal(a) && Can(sv, s, a)
    ensures SentWithin(Do(sv, s, a)) && Work(Do(sv, s, a)) < Work(s)
  {
    var t := Do(sv, s, a);
    if a.AllSent? || a.Reply? {
      WorkSame(s, t, |s.workers|);
    } else if a.Dispatch? {
      WorkChanges(s, t, a.to, |s.workers|);
    } else if a.Collect? {
      WorkChanges(s, t, a.from, |s.workers|);
    } else {
      WorkChanges(s, t, a.w, |s.workers|);
    }
  }

  lemma {:induction false} SomeoneOwes<M(!new)>(bags: seq<multiset<M>>) returns (w: nat)
    requires Sum(bags) != multiset{}
    ensures w < |bags| && bags[w] != multiset{}
  {
    var n := |bags| - 1;
    if bags[n] != multiset{} {
      w := n;
    } else {
      w := SomeoneOwes(bags[..n]);
    }
  }

  /** The step of a worker that owes something, or of the server that receives from it. */
  lemma OwingMoves<M(!new)>(sv: Service<M>, s: State<M>, w: nat) returns (a: Step<M>)
    requires Inv(sv, s) && !s.Shutdown() && s.phase.Collecting? && |s.phase.got| < |s.phase.batches|
    requires w < |s.workers| && OwedBy(sv, s, w) != multiset{}
    ensures Internal(a) && Can(sv, s, a)
  {
    if s.outbox[w] != [] {
      a := Collect(w);
    } else {
      match s.workers[w] {
        case Ready =>
          assert Answers(sv, []) == [];
          a := Pull(w);
        case Pulled(_) => a := Compute(w);
        case Computed(_) => a := Push(w);
      }
    }
  }

  /**
    From every reachable state with a request open, some internal step is possible;
    as each leaves less to do, the request is answered after finitely many of them.
   */
  lemma RequestProgresses<M(!new)>(sv: Service<M>, s: State<M>) returns (a: Step<M>)
    requires Inv(sv, s) && !s.Shutdown() && !s.phase.Idle? && |s.workers| >= 1
    ensures Internal(a) && Can(sv, s, a)
  {
    match s.phase {
      case Dispatching(_, batches, sent) => a := if sent < |batches| then Dispatch(0) else AllSent;
      case Collecting(_, batches, got) =>
        if |got| == |batches| {
          a := Reply;
        } else {
          assert |InFlight(sv, s) + multiset(got)| == |multiset(Answers(sv, batches))|;
          assert |got| < |batches|;
          var w := SomeoneOwes(Bags(sv, s));
          a := OwingMoves(sv, s, w);
        }
    }
  }

  /** A serving state that keeps the invariant. */
  ghost predicate Live<M(!new)>(sv: Service<M>, s: State<M>, threads: nat) {
    Inv(sv, s) && !s.Shutdown() && |s.workers| == threads
  }

  lemma InternalKeeps<M(!new)>(sv: Service<M>, s: State<M>, a: Step<M>, t: State<M>, threads: nat)
    ensures Live(sv, s, threads) && Internal(a) && Follows(sv, s, a, t) ==> Live(sv, t, threads)
  {
    if Live(sv, s, threads) && Internal(a) && Follows(sv, s, a, t) {
      StepInv(sv, s, a);
    }
  }

  /** A run of the program's own steps. */
  ghost predicate InternalRun<M(!new)>(sv: Service<M>, states: seq<State<M>>, steps: seq<Step<M>>) {
    Path(sv, states, steps) && forall i :: 0 <= i < |steps| ==> Internal(steps[i])
  }

  lemma NthStep<M(!new)>(sv: Service<M>, states: seq<State<M>>, steps: seq<Step<M>>, i: nat)
    requires InternalRun(sv, states, steps) && i < |steps|
    ensures Follows(sv, states[i], steps[i], states[i + 1]) && Internal(steps[i])
  {
  }

  lemma InternalPath<M(!new)>(sv: Service<M>, states: seq<State<M>>, steps: seq<Step<M>>, n: nat, threads: nat)
    requires InternalRun(sv, states, steps) && Live(sv, states[0], threads) && n < |states|
    ensures Live(sv, states[n], threads)
  {
    var live := (s: State<M>) => Live(sv, s, threads);
    forall i | 0 < i < |states| && live(states[i - 1])
      ensures live(states[i])
    {
      NthStep(sv, states, steps, i - 1);
      InternalKeeps(sv, states[i - 1], steps[i - 1], states[i], threads);
    }
    Along(states, live, n);
  }

  lemma {:induction false} WorkBounded<M(!new)>(sv: Service<M>, states: seq<State<M>>, steps: seq<Step<M>>, n: nat)
    requires InternalRun(sv, states, steps) && Shaped(states[0]) && SentWithin(states[0]) && n < |states|
    ensures Shaped(states[n]) && SentWithin(states[n]) && n + Work(states[n]) <= Work(states[0])
  {
    if n > 0 {
      WorkBounded(sv, states, steps, n - 1);
      NthStep(sv, states, steps, n - 1);
      InternalDecreases(sv, states[n - 1], steps[n - 1]);
    }
  }

  // ----- the request is answered -----

  predicate Open<M>(p: Phase<M>) {
    p.Dispatching? || p.Collecting?
  }

  /** A request was open in `s`; in `t` it is still open, or exactly its reply was added to the history. */
  ghost predicate OpenOrAnswered<M(!new)>(sv: Service<M>, s: State<M>, t: State<M>) {
    && Open(s.phase)
    && if Open(t.phase) then t.phase.request == s.phase.request && t.history == s.history
       else
         && t.phase.Idle? && |t.history| == |s.history| + 1 && t.history[..|s.history|] == s.history
         && t.history[|s.history|].0 == s.phase.request
         && Answered(sv, s.phase.request, t.history[|s.history|].1)
  }

  lemma StepOpenOrAnswered<M(!new)>(sv: Service<M>, s: State<M>, t: State<M>, a: Step<M>, u: State<M>, threads: nat)
    ensures OpenOrAnswered(sv, s, t) && Live(sv, t, threads) && Internal(a) && Follows(sv, t, a, u) ==>
              OpenOrAnswered(sv, s, u)
  {
    if OpenOrAnswered(sv, s, t) && Live(sv, t, threads) && Internal(a) && Follows(sv, t, a, u) {
      StepAnswers(sv, t, a);
      if a.Reply? {
        assert u.history[..|s.history|] == s.history;
      }
    }
  }

  ghost predicate Since<M(!new)>(sv: Service<M>, s: State<M>, t: State<M>, threads: nat) {
    OpenOrAnswered(sv, s, t) && Live(sv, t, threads)
  }

  lemma SinceKept<M(!new)>(sv: Service<M>, s: State<M>, t: State<M>, a: Step<M>, u: State<M>, threads: nat)
    ensures Since(sv, s, t, threads) && Internal(a) && Follows(sv, t, a, u) ==> Since(sv, s, u, threads)
  {
    StepOpenOrAnswered(sv, s, t, a, u, threads);
    InternalKeeps(sv, t, a, u, threads);
  }

  lemma PathOpenOrAnswered<M(!new)>(sv: Service<M>, states: seq<State<M>>, steps: seq<Step<M>>, n: nat, threads: nat)
    requires InternalRun(sv, states, steps) && Live(sv, states[0], threads) && n < |states| && Open(states[0].phase)
    ensures Since(sv, states[0], states[n], threads)
  {
    var since := (t: State<M>) => Since(sv, states[0], t, threads);
    forall i | 0 < i < |states| && since(states[i - 1])
      ensures since(states[i])
    {
      NthStep(sv, states, steps, i - 1);
      SinceKept(sv, states[0], states[i - 1], steps[i - 1], states[i], threads);
    }
    Along(states, since, n);
  }

  ghost predicate Stuck<M(!new)>(sv: Service<M>, s: State<M>)
    requires Shaped(s)
  {
    forall a :: Internal(a) ==> !Can(sv, s, a)
  }

  /**
    Without a signal, the program's own steps on a request come to an end in every
    interleaving. Until then the request is open and nothing is added to the history;
    they end only when the server is ready for the next request, and then exactly one
    reply, to this request, was added.
   */
  lemma RequestCompletes<M(!new)>(sv: Service<M>, states: seq<State<M>>, steps: seq<Step<M>>)
    requires InternalRun(sv, states, steps) && Inv(sv, states[0]) && !states[0].Shutdown() && |states[0].workers| >= 1
    ensures SentWithin(states[0]) && |steps| <= Work(states[0])
    ensures var last := states[|steps|];
            && Live(sv, last, |states[0].workers|) && (Stuck(sv, last) ==> last.phase.Idle?)
            && (Open(states[0].phase) ==> OpenOrAnswered(sv, states[0], last))
  {
    InternalPath(sv, states, steps, |steps|, |states[0].workers|);
    WorkBounded(sv, states, steps, |steps|);
    var last := states[|steps|];
    if !last.phase.Idle? {
      var a := RequestProgresses(sv, last);
    }
    if Open(states[0].phase) {
      PathOpenOrAnswered(sv, states, steps, |steps|, |states[0].workers|);
    }
  }

  /** `last` is ready for the next request, and exactly one message was added to the history, a reply to `request`. */
  ghost predicate RepliedTo<M(!new)>(sv: Service<M>, before: seq<(M, M)>, request: M, last: State<M>) {
    && last.phase.Idle? && |last.history| == |before| + 1 && last.history[..|before|] == before
    && last.history[|before|].0 == request && Answered(sv, request, last.history[|before|].1)
  }

  lemma ReceiptOpens<M(!new)>(sv: Service<M>, s: State<M>, request: M, t: State<M>)
    requires Follows(sv, s, Receive(request), t) && sv.split(request).Some?
    ensures t.phase.Dispatching? && t.phase.request == request && t.history == s.history && !t.Shutdown()
  {
  }

  /** In any run, what a received request that passes its check comes to. */
  lemma ReceivedIsAnswered<M(!new)>(sv: Service<M>, threads: nat, states: seq<State<M>>, steps: seq<Step<M>>, i: nat,
                                    request: M, later: seq<State<M>>, own: seq<Step<M>>)
    requires Run(sv, threads, states, steps) && threads >= 1
    requires i < |steps| && steps[i] == Receive(request) && sv.split(request).Some?
    requires InternalRun(sv, later, own) && later[0] == states[i + 1]
    ensures Shaped(later[0]) && SentWithin(later[0]) && |own| <= Work(later[0])
    ensures Shaped(later[|own|]) && (Stuck(sv, later[|own|]) ==> RepliedTo(sv, states[i].history, request, later[|own|]))
  {
    RunInv(sv, threads, states, steps, i + 1);
    assert Follows(sv, states[i], steps[i], states[i + 1]);
    ReceiptOpens(sv, states[i], request, states[i + 1]);
    RequestCompletes(sv, later, own);
  }

  /** A request that fails its check is answered at once. */
  lemma InvalidIsAnsweredAtOnce<M(!new)>(sv: Service<M>, s: State<M>, request: M, t: State<M>)
    requires Follows(sv, s, Receive(request), t) && sv.split(request).None?
    ensures RepliedTo(sv, s.history, request, t) && t.history[|s.history|].1 == sv.refusal
    ensures t.inbox == s.inbox && t.workers == s.workers && t.outbox == s.outbox
  {
  }

  /**
    The interleavings are all of them: any worker may be given the next batch, any that
    has something to do may do it, any result that arrived may be received, and the
    shutdown signal may come at any moment.
   */
  lemma AnyoneMayMove<M(!new)>(sv: Service<M>, s: State<M>, request: M, w: nat)
    requires Shaped(s) && w < |s.workers|
    ensures !s.Shutdown() ==> Can(sv, s, Signal)
    ensures !s.Shutdown() && s.phase.Idle? && sv.admits(request) ==> Can(sv, s, Receive(request))
    ensures !s.Shutdown() && s.phase.Dispatching? && s.phase.sent < |s.phase.batches| ==> Can(sv, s, Dispatch(w))
    ensures !s.Shutdown() && s.phase.Collecting? && |s.phase.got| < |s.phase.batches| && s.outbox[w] != [] ==>
              Can(sv, s, Collect(w))
    ensures !s.Shutdown() && s.workers[w].Ready? && s.inbox[w] != [] ==> Can(sv, s, Pull(w))
    ensures s.workers[w].Pulled? ==> Can(sv, s, Compute(w))
    ensures !s.Shutdown() && s.workers[w].Computed? ==> Can(sv, s, Push(w))
    ensures s.Shutdown() && (s.workers[w].Ready? || s.workers[w].Computed?) ==> Can(sv, s, WorkerLeaves(w))
    ensures s.Shutdown() && s.phase.Serving() ==> Can(sv, s, ServerLeaves)
  {
  }

  /** The program's own steps lead from `s` to where the server waits for the next request. */
  ghost predicate LeadsToIdle<M(!new)>(sv: Service<M>, s: State<M>, states: seq<State<M>>, steps: seq<Step<M>>) {
    InternalRun(sv, states, steps) && states[0] == s && states[|steps|].phase.Idle?
  }

  lemma LeadsToIdleFrom<M(!new)>(sv: Service<M>, s: State<M>, a: Step<M>, t: State<M>, later: seq<State<M>>, rest: seq<Step<M>>)
    requires LeadsToIdle(sv, t, later, rest) && Follows(sv, s, a, t) && Internal(a)
    ensures LeadsToIdle(sv, s, [s] + later, [a] + rest)
  {
    forall i | 0 <= i <= |rest|
      ensures Follows(sv, ([s] + later)[i], ([a] + rest)[i], ([s] + later)[i + 1])
    {
      if i > 0 {
        assert Follows(sv, later[i - 1], rest[i - 1], later[i]);
      }
    }
  }

  /** The next step towards the answer, after which less is left to do. */
  lemma StepTowards<M(!new)>(sv: Service<M>, s: State<M>, threads: nat) returns (a: Step<M>, t: State<M>)
    requires Live(sv, s, threads) && threads >= 1 && !s.phase.Idle?
    ensures Internal(a) && Follows(sv, s, a, t) && Live(sv, t, threads)
    ensures SentWithin(s) && SentWithin(t) && Work(t) < Work(s)
  {
    a := RequestProgresses(sv, s);
    t := Do(sv, s, a);
    InternalDecreases(sv, s, a);
    InternalKeeps(sv, s, a, t, threads);
  }

  /** From every reachable state the end of the current request can be reached by the program's own steps. */
  lemma {:induction false} AnswerIsReached<M(!new)>(sv: Service<M>, s: State<M>, threads: nat)
    returns (states: seq<State<M>>, steps: seq<Step<M>>)
    requires Live(sv, s, threads) && threads >= 1
    ensures LeadsToIdle(sv, s, states, steps)
    decreases Work(s)
  {
    if s.phase.Idle? {
      states, steps := [s], [];
    } else {
      var a, t := StepTowards(sv, s, threads);
      var later, rest := AnswerIsReached(sv, t, threads);
      LeadsToIdleFrom(sv, s, a, t, later, rest);
      states, steps := [s] + later, [a] + rest;
    }
  }
}
