/** Worker sessions on the control plane: the registry slot and, per stream, the bounded command
    channel with the goroutine that pumps it (workers/server.go, workers/registry.go). */
module Streams {
  import opened Wrappers
  import opened Messages
  import Pending

  type StreamId = nat

  datatype Pump = Idle | Holding(command: Command) | Stopped

  /** accepted is history: every command a sender got into the channel. sent and lost say where
      the ones the pump took have gone. */
  datatype Stream = Stream(
    queue: seq<Command>, pump: Pump, contextDone: bool, ended: bool,
    accepted: seq<Command>, sent: seq<Command>, lost: seq<Command>)

  const OPENED := Stream([], Idle, false, false, [], [], [])

  /** lastReady is history: the stream of the most recent Ready. */
  datatype Net = Net(current: Option<StreamId>, streams: map<StreamId, Stream>, lastReady: Option<StreamId>)

  datatype Step =
    | Open(x: StreamId)
    | ReadyOn(x: StreamId)
    | Enqueue(x: StreamId, command: Command)
    | ContextDone(x: StreamId)
    | PumpTakes(x: StreamId)
    | PumpSends(x: StreamId)
    | PumpFails(x: StreamId)
    | PumpQuits(x: StreamId)
    | UnregisterOn(x: StreamId)

  predicate Enabled(n: Net, a: Step) {
    if a.Open? then a.x !in n.streams
    else
      a.x in n.streams &&
      var s := n.streams[a.x];
      match a
      case Open(_) => true
      case ReadyOn(_) => !s.ended
      case Enqueue(_, _) => |s.queue| < Pending.SEND_CAPACITY
      case ContextDone(_) => true
      case PumpTakes(_) => s.pump.Idle? && s.queue != []
      case PumpSends(_) => s.pump.Holding?
      case PumpFails(_) => s.pump.Holding?
      case PumpQuits(_) => s.pump.Idle? && s.contextDone
      case UnregisterOn(_) => !s.ended
  }

  function Do(n: Net, a: Step): Net
    requires Enabled(n, a)
  {
    if a.Open? then n.(streams := n.streams[a.x := OPENED])
    else
      var s := n.streams[a.x];
      match a
      case Open(_) => n
      case ReadyOn(x) => n.(current := Pending.Register(n.current, x), lastReady := Some(x))
      case Enqueue(x, c) => n.(streams := n.streams[x := s.(queue := s.queue + [c], accepted := s.accepted + [c])])
      case ContextDone(x) => n.(streams := n.streams[x := s.(contextDone := true)])
      case PumpTakes(x) => n.(streams := n.streams[x := s.(pump := Holding(s.queue[0]), queue := s.queue[1..])])
      case PumpSends(x) => n.(streams := n.streams[x := s.(pump := Idle, sent := s.sent + [s.pump.command])])
      case PumpFails(x) => n.(streams := n.streams[x := s.(pump := Stopped, lost := [s.pump.command])])
      case PumpQuits(x) => n.(streams := n.streams[x := s.(pump := Stopped)])
      case UnregisterOn(x) =>
        n.(streams := n.streams[x := s.(ended := true)], current := Pending.Unregister(n.current, x))
  }

  function InHand(s: Stream): seq<Command> {
    if s.pump.Holding? then [s.pump.command] else []
  }

  /** Commands are neither lost, invented nor reordered, except one in a failing send, after
      which the pump takes no more. */
  ghost predicate Conserved(s: Stream) {
    && s.accepted == s.sent + (InHand(s) + s.lost) + s.queue
    && |s.lost| <= 1 && (s.lost != [] ==> s.pump.Stopped?)
    && |s.queue| <= Pending.SEND_CAPACITY
  }

  /** The slot holds the worker of the most recent Ready if its session has not ended, and
      nothing otherwise. */
  ghost predicate SlotIsLastReady(n: Net) {
    && (n.lastReady.Some? ==> n.lastReady.value in n.streams)
    && n.current == (if n.lastReady.Some? && !n.streams[n.lastReady.value].ended then n.lastReady else None)
  }

  ghost predicate Inv(n: Net) {
    SlotIsLastReady(n) && forall x :: x in n.streams ==> Conserved(n.streams[x])
  }

  const EMPTY := Net(None, map[], None)

  lemma StepConserves(s: Stream, n: Net, a: Step)
    requires Enabled(n, a) && !a.Open? && n.streams[a.x] == s && Conserved(s)
    ensures Conserved(Do(n, a).streams[a.x])
  {
    var t := Do(n, a).streams[a.x];
    match a {
      case Enqueue(_, c) =>
        assert t.accepted == t.sent + (InHand(t) + t.lost) + (s.queue + [c]);
      case PumpTakes(_) =>
        assert s.queue == [s.queue[0]] + t.queue;
        assert t.accepted == t.sent + (InHand(t) + t.lost) + t.queue;
      case PumpSends(_) =>
        assert t.accepted == t.sent + (InHand(t) + t.lost) + t.queue;
      case _ =>
    }
  }

  lemma StepKeepsInv(n: Net, a: Step)
    requires Inv(n) && Enabled(n, a)
    ensures Inv(Do(n, a))
  {
    var m := Do(n, a);
    forall y | y in m.streams
      ensures Conserved(m.streams[y])
    {
      if !a.Open? && y == a.x {
        StepConserves(n.streams[y], n, a);
      } else if y != a.x {
        assert m.streams[y] == n.streams[y];
      }
    }
  }

  ghost predicate Runs(n: Net, steps: seq<Step>, m: Net)
    decreases |steps|
  {
    if steps == [] then n == m
    else Enabled(n, steps[0]) && Runs(Do(n, steps[0]), steps[1..], m)
  }

  /** Over every run of any number of sessions: conservation and order of commands on each
      stream, the bound on its queue, and what the registry slot holds. */
  lemma {:induction false} RunKeepsInv(n: Net, steps: seq<Step>, m: Net)
    requires Inv(n) && Runs(n, steps, m)
    ensures Inv(m)
    decreases |steps|
  {
    if steps != [] {
      StepKeepsInv(n, steps[0]);
      RunKeepsInv(Do(n, steps[0]), steps[1..], m);
    }
  }

  /** What a client sees at any time: the slot never names an ended session, and the commands
      sent on a stream are a prefix of those accepted for it. */
  lemma ReachableNet(steps: seq<Step>, n: Net)
    requires Runs(EMPTY, steps, n)
    ensures SlotIsLastReady(n)
    ensures n.current.Some? ==> n.current.value in n.streams && !n.streams[n.current.value].ended
    ensures forall x :: x in n.streams ==> Conserved(n.streams[x]) && n.streams[x].sent <= n.streams[x].accepted
  {
    RunKeepsInv(EMPTY, steps, n);
    forall x | x in n.streams
      ensures n.streams[x].sent <= n.streams[x].accepted
    {
      var s := n.streams[x];
      assert s.accepted == s.sent + ((InHand(s) + s.lost) + s.queue);
    }
  }

  /** The stream whose Ready was handled last in these steps. */
  function LastReadyIn(before: Option<StreamId>, steps: seq<Step>): Option<StreamId>
    decreases |steps|
  {
    if steps == [] then before else LastReadyIn(if steps[0].ReadyOn? then Some(steps[0].x) else before, steps[1..])
  }

  lemma {:induction false} LastReadyIsRuns(n: Net, steps: seq<Step>, m: Net)
    requires Runs(n, steps, m)
    ensures m.lastReady == LastReadyIn(n.lastReady, steps)
    decreases |steps|
  {
    if steps != [] {
      assert Do(n, steps[0]).lastReady == if steps[0].ReadyOn? then Some(steps[0].x) else n.lastReady;
      hide Do, Enabled;
      LastReadyIsRuns(Do(n, steps[0]), steps[1..], m);
    }
  }

  /** In every run the slot is the stream whose Ready came last, until its session ends; a worker
      that reconnects takes the slot over, and an older session's end does not take it away. */
  lemma SlotFollowsReady(steps: seq<Step>, n: Net)
    requires Runs(EMPTY, steps, n)
    ensures var last := LastReadyIn(None, steps);
            && (last.Some? ==> last.value in n.streams)
            && n.current == if last.Some? && !n.streams[last.value].ended then last else None
  {
    RunKeepsInv(EMPTY, steps, n);
    LastReadyIsRuns(EMPTY, steps, n);
  }

  lemma {:induction false} StoppedSendsNoMore(n: Net, steps: seq<Step>, m: Net, x: StreamId)
    requires Runs(n, steps, m) && x in n.streams && n.streams[x].pump.Stopped?
    ensures x in m.streams && m.streams[x].pump.Stopped?
    ensures m.streams[x].sent == n.streams[x].sent && m.streams[x].lost == n.streams[x].lost
    decreases |steps|
  {
    if steps != [] {
      var t := Do(n, steps[0]);
      assert x in t.streams && t.streams[x].pump.Stopped?;
      assert t.streams[x].sent == n.streams[x].sent && t.streams[x].lost == n.streams[x].lost;
      hide Do, Enabled;
      StoppedSendsNoMore(t, steps[1..], m, x);
    }
  }

  /** The pump ends in a failing send, with that one command lost, or, idle, when the context is
      done, with none; either way nothing more is ever sent on the stream. */
  lemma PumpEndsExactly(n: Net, a: Step, steps: seq<Step>, m: Net)
    requires Inv(n) && Enabled(n, a) && (a.PumpFails? || a.PumpQuits?) && Runs(Do(n, a), steps, m)
    ensures a.x in m.streams && m.streams[a.x].sent == n.streams[a.x].sent
    ensures m.streams[a.x].lost == if a.PumpFails? then [n.streams[a.x].pump.command] else n.streams[a.x].lost
    ensures a.PumpQuits? ==> n.streams[a.x].contextDone && n.streams[a.x].pump.Idle?
  {
    StoppedSendsNoMore(Do(n, a), steps, m, a.x);
  }

  /** An idle pump quits once its context is done, and not before. */
  lemma IdlePumpQuits(n: Net, x: StreamId)
    requires x in n.streams && n.streams[x].pump.Idle?
    ensures Enabled(n, PumpQuits(x)) <==> n.streams[x].contextDone
    ensures Enabled(n, ContextDone(x)) && Enabled(Do(n, ContextDone(x)), PumpQuits(x))
  {
  }
}
