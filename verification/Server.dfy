/** The scatter/gather server and its threads as steps (worker.cpp). */
module Server {
  import opened Wrappers

  /** What the program computes from messages, as opposed to how it moves them. */
  datatype Service<!M> = Service(
    /** Requests within the sizes the builders can handle. */
    admits: M -> bool,
    /** The batches of a request; `None` for a request that fails its check. */
    split: M -> Option<seq<M>>,
    /** The reply to a request that fails its check. */
    refusal: M,
    /** A worker's result message for a batch. */
    answer: M -> M,
    /** The reply to a request, from the result messages in order of arrival. */
    reply: (M, seq<M>) -> M)

  datatype Worker<M> = Ready | Pulled(msg: M) | Computed(result: M) | Exited

  datatype Phase<M> =
    | Idle
    | Dispatching(request: M, batches: seq<M>, sent: nat)
    | Collecting(request: M, batches: seq<M>, got: seq<M>)
    | Joining(joined: nat)
    | JoiningMonitor
    | Done
  {
    /** Still inside the request loop. */
    predicate Serving() {
      Idle? || Dispatching? || Collecting?
    }
  }

  /** `Stopping` is after the context was shut down, before the thread ends. */
  datatype Monitor = Waiting | Stopping | Stopped

  /** Each worker has its own pipe in and its own pipe out. */
  datatype State<M> = State(
    phase: Phase<M>,
    inbox: seq<seq<M>>,
    workers: seq<Worker<M>>,
    outbox: seq<seq<M>>,
    monitor: Monitor,
    history: seq<(M, M)>)
  {
    /** Every socket operation now reports that the context was terminated. */
    predicate Shutdown() {
      !monitor.Waiting?
    }
  }

  function Init<M>(threads: nat): State<M> {
    State(Idle, seq(threads, _ => []), seq(threads, _ => Ready), seq(threads, _ => []), Waiting, [])
  }

  datatype Step<M> =
    | Receive(request: M)
    | Dispatch(to: nat)
    | AllSent
    | Collect(from: nat)
    | Reply
    | Pull(w: nat)
    | Compute(w: nat)
    | Push(w: nat)
    | Signal
    | WorkerLeaves(w: nat)
    | MonitorEnds
    | ServerLeaves
    | Join
    | JoinMonitor

  predicate Shaped<M(!new)>(s: State<M>) {
    |s.inbox| == |s.workers| == |s.outbox|
  }

  predicate Can<M(!new)>(sv: Service<M>, s: State<M>, a: Step<M>)
    requires Shaped(s)
  {
    match a
    case Receive(request) => s.phase.Idle? && !s.Shutdown() && sv.admits(request)
    case Dispatch(w) => s.phase.Dispatching? && s.phase.sent < |s.phase.batches| && w < |s.workers| && !s.Shutdown()
    case AllSent => s.phase.Dispatching? && s.phase.sent == |s.phase.batches|
    case Collect(w) =>
      && s.phase.Collecting? && |s.phase.got| < |s.phase.batches|
      && w < |s.workers| && s.outbox[w] != [] && !s.Shutdown()
    case Reply => s.phase.Collecting? && |s.phase.got| == |s.phase.batches| && !s.Shutdown()
    case Pull(w) => w < |s.workers| && s.workers[w].Ready? && s.inbox[w] != [] && !s.Shutdown()
    case Compute(w) => w < |s.workers| && s.workers[w].Pulled?
    case Push(w) => w < |s.workers| && s.workers[w].Computed? && !s.Shutdown()
    case Signal => s.monitor.Waiting?
    case WorkerLeaves(w) => w < |s.workers| && (s.workers[w].Ready? || s.workers[w].Computed?) && s.Shutdown()
    case MonitorEnds => s.monitor.Stopping?
    case ServerLeaves => s.phase.Serving() && s.Shutdown()
    case Join => s.phase.Joining? && s.phase.joined < |s.workers| && s.workers[s.phase.joined].Exited?
    case JoinMonitor =>
      || (s.phase.Joining? && s.phase.joined == |s.workers|)
      || (s.phase.JoiningMonitor? && s.monitor.Stopped?)
  }

  function Do<M(!new)>(sv: Service<M>, s: State<M>, a: Step<M>): (t: State<M>)
    requires Shaped(s) && Can(sv, s, a)
    ensures Shaped(t) && |t.workers| == |s.workers|
  {
    match a
    case Receive(request) =>
      (match sv.split(request)
       case None => s.(history := s.history + [(request, sv.refusal)])
       case Some(batches) => s.(phase := Dispatching(request, batches, 0)))
    case Dispatch(w) =>
      var p := s.phase;
      s.(phase := p.(sent := p.sent + 1), inbox := s.inbox[w := s.inbox[w] + [p.batches[p.sent]]])
    case AllSent =>
      s.(phase := Collecting(s.phase.request, s.phase.batches, []))
    case Collect(w) =>
      s.(phase := s.phase.(got := s.phase.got + [s.outbox[w][0]]), outbox := s.outbox[w := s.outbox[w][1..]])
    case Reply =>
      s.(phase := Idle, history := s.history + [(s.phase.request, sv.reply(s.phase.request, s.phase.got))])
    case Pull(w) =>
      s.(workers := s.workers[w := Pulled(s.inbox[w][0])], inbox := s.inbox[w := s.inbox[w][1..]])
    case Compute(w) =>
      s.(workers := s.workers[w := Computed(sv.answer(s.workers[w].msg))])
    case Push(w) =>
      s.(workers := s.workers[w := Ready], outbox := s.outbox[w := s.outbox[w] + [s.workers[w].result]])
    case Signal => s.(monitor := Stopping)
    case WorkerLeaves(w) => s.(workers := s.workers[w := Exited])
    case MonitorEnds => s.(monitor := Stopped)
    case ServerLeaves => s.(phase := Joining(0))
    case Join => s.(phase := Joining(s.phase.joined + 1))
    case JoinMonitor => s.(phase := if s.phase.Joining? then JoiningMonitor else Done)
  }
}
