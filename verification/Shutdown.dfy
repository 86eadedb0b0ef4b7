/** After shutdown every interleaving ends with all threads joined (worker.cpp). */
module Shutdown {
  import opened Server
  import opened Conservation
  import opened Runs

  function Alive<M>(w: Worker<M>): nat {
    match w
    case Ready => 1
    case Pulled(_) => 2
    case Computed(_) => 1
    case Exited => 0
  }

  function AliveUpTo<M>(workers: seq<Worker<M>>): nat {
    if workers == [] then 0 else AliveUpTo(workers[..|workers| - 1]) + Alive(workers[|workers| - 1])
  }

  lemma {:induction false} AliveChanges<M>(workers: seq<Worker<M>>, w: nat, x: Worker<M>)
    requires w < |workers|
    ensures AliveUpTo(workers[w := x]) + Alive(workers[w]) == AliveUpTo(workers) + Alive(x)
  {
    var n := |workers| - 1;
    if w < n {
      AliveChanges(workers[..n], w, x);
      assert workers[w := x][..n] == workers[..n][w := x];
    } else {
      assert workers[w := x][..n] == workers[..n];
    }
  }

  /** How far the program is from its end once the context was shut down. */
  function Rank<M(!new)>(s: State<M>): nat
    requires s.phase.Joining? ==> s.phase.joined <= |s.workers|
  {
    AliveUpTo(s.workers)
    + (match s.monitor case Waiting => 2 case Stopping => 1 case Stopped => 0)
    + match s.phase
      case Joining(k) => |s.workers| - k + 2
      case JoiningMonitor => 1
      case Done => 0
      case Dispatching(_, _, _) => |s.workers| + 4
      case _ => |s.workers| + 3
  }

  /** After shutdown every step, whatever the phase was, comes closer to the end. */
  lemma ShutdownDecreases<M(!new)>(sv: Service<M>, s: State<M>, a: Step<M>)
    requires Inv(sv, s) && s.Shutdown() && Can(sv, s, a)
    ensures Inv(sv, Do(sv, s, a)) && Rank(Do(sv, s, a)) < Rank(s)
  {
    StepInv(sv, s, a);
    match a {
      case Compute(w) => AliveChanges(s.workers, w, Computed(sv.answer(s.workers[w].msg)));
      case WorkerLeaves(w) => AliveChanges(s.workers, w, Exited);
      case _ =>
    }
  }

  /** Until everything is joined some step is possible: no thread is waited for in vain. */
  lemma ShutdownProgresses<M(!new)>(sv: Service<M>, s: State<M>) returns (a: Step<M>)
    requires Inv(sv, s) && s.Shutdown() && !s.phase.Done?
    ensures Can(sv, s, a)
  {
    match s.phase {
      case Joining(k) =>
        if k == |s.workers| {
          a := JoinMonitor;
        } else {
          match s.workers[k] {
            case Exited => a := Join;
            case Pulled(_) => a := Compute(k);
            case _ => a := WorkerLeaves(k);
          }
        }
      case JoiningMonitor => a := if s.monitor.Stopped? then JoinMonitor else MonitorEnds;
      case _ => a := ServerLeaves;
    }
  }

  /** From a state after shutdown no interleaving is longer than its rank. */
  lemma {:induction false} ShutdownBounded<M(!new)>(sv: Service<M>, states: seq<State<M>>, steps: seq<Step<M>>, n: nat)
    requires Path(sv, states, steps) && Inv(sv, states[0]) && states[0].Shutdown() && n < |states|
    ensures Inv(sv, states[n]) && states[n].Shutdown() && n + Rank(states[n]) <= Rank(states[0])
  {
    if n > 0 {
      ShutdownBounded(sv, states, steps, n - 1);
      assert Follows(sv, states[n - 1], steps[n - 1], states[n]);
      ShutdownDecreases(sv, states[n - 1], steps[n - 1]);
    }
  }

  /**
    After shutdown, in whatever phase it came, every interleaving is finite, and one
    that cannot be continued has left the server loop and joined every thread.
   */
  lemma ShutdownTerminates<M(!new)>(sv: Service<M>, states: seq<State<M>>, steps: seq<Step<M>>)
    requires Path(sv, states, steps) && Inv(sv, states[0]) && states[0].Shutdown()
    ensures |steps| <= Rank(states[0])
    ensures var last := states[|steps|];
            Shaped(last) && ((forall a :: !Can(sv, last, a)) ==> last.phase.Done?)
  {
    ShutdownBounded(sv, states, steps, |steps|);
    var last := states[|steps|];
    if !last.phase.Done? {
      var a := ShutdownProgresses(sv, last);
    }
  }

  // ----- what was joined has ended -----

  /** Joined workers have left their loops; at the end all have, and the monitor ended too. */
  ghost predicate JoinedEnded<M(!new)>(s: State<M>) {
    && (s.phase.Joining? ==> forall i :: 0 <= i < s.phase.joined && i < |s.workers| ==> s.workers[i].Exited?)
    && (s.phase.JoiningMonitor? || s.phase.Done? ==> forall i :: 0 <= i < |s.workers| ==> s.workers[i].Exited?)
    && (s.phase.Done? ==> s.monitor.Stopped?)
  }

  lemma StepJoinedEnded<M(!new)>(sv: Service<M>, s: State<M>, a: Step<M>)
    requires Shaped(s) && Can(sv, s, a) && JoinedEnded(s)
    ensures JoinedEnded(Do(sv, s, a))
  {
  }

  lemma {:induction false} RunJoinedEnded<M(!new)>(sv: Service<M>, threads: nat, states: seq<State<M>>, steps: seq<Step<M>>, i: nat)
    requires Run(sv, threads, states, steps) && i < |states|
    ensures JoinedEnded(states[i])
  {
    if i > 0 {
      RunJoinedEnded(sv, threads, states, steps, i - 1);
      assert Follows(sv, states[i - 1], steps[i - 1], states[i]);
      StepJoinedEnded(sv, states[i - 1], steps[i - 1]);
    }
  }

  /** In every run, a program that is done has no thread left. */
  lemma DoneMeansEnded<M(!new)>(sv: Service<M>, threads: nat, states: seq<State<M>>, steps: seq<Step<M>>, i: nat)
    requires Run(sv, threads, states, steps) && i < |states| && states[i].phase.Done?
    ensures |states[i].workers| == threads && states[i].monitor.Stopped?
    ensures forall w :: 0 <= w < threads ==> states[i].workers[w].Exited?
  {
    RunInv(sv, threads, states, steps, i);
    RunJoinedEnded(sv, threads, states, steps, i);
  }
}
