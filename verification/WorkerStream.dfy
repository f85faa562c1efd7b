/** The control plane composed with worker processes (worker/agent.py, worker/grpc_client.py):
    the events that arrive on a stream are now those the worker at its other end put in its
    outbox, and the worker runs each command it receives once, on its own thread.

    Every step is a step of Correlation or leaves the control plane alone, so what holds there
    holds here. What is gained is the premise Correlation lacks: one final reply per request. */
module WorkerStream {
  import opened Wrappers
  import opened Messages
  import opened WorkerAgent
  import Pending
  import SessionProtocol
  import Streams
  import C = Correlation

  type StreamId = C.StreamId

  /** A run in progress: the events it has yet to put in the outbox. */
  datatype Thread = Thread(r: RequestId, remaining: seq<Event>)

  /** taken counts the commands received; a thread is named by the position of its command. The
      outbox stands for the queue and the stream behind it, both FIFO. */
  datatype Process = Process(taken: nat, threads: map<nat, Thread>, outbox: seq<Event>)

  datatype World = World(sys: C.System, processes: map<StreamId, Process>)

  const EMPTY := World(C.EMPTY, map[])

  /** What a process has sent when its stream opens. */
  const CONNECTED := Process(0, map[], [Ready, StatusUpdate(SessionProtocol.WIdle)])

  datatype Step =
    | ControlPlane(step: C.Step)
    | Connect(x: StreamId)
    | TakeCommand(x: StreamId, link: LinkRun, friends: FriendsRun)
    | Emit(x: StreamId, k: nat)
    | Send(x: StreamId)

  predicate Enabled(w: World, a: Step) {
    match a
    case ControlPlane(b) => !b.Arrive? && !(b.Net? && b.step.Open?) && C.Enabled(w.sys, b)
    case Connect(x) => x !in w.processes && C.Enabled(w.sys, C.Net(Streams.Open(x)))
    case TakeCommand(x, _, _) =>
      x in w.processes && x in w.sys.net.streams && w.processes[x].taken < |w.sys.net.streams[x].sent|
    case Emit(x, k) => x in w.processes && k in w.processes[x].threads && w.processes[x].threads[k].remaining != []
    case Send(x) =>
      x in w.processes && w.processes[x].outbox != [] && C.Enabled(w.sys, C.Arrive(x, w.processes[x].outbox[0]))
  }

  /** on_link_account and on_list_friends start a thread; on_steam_guard hands the code over. */
  function Received(p: Process, c: Command, link: LinkRun, friends: FriendsRun): Process {
    p.(taken := p.taken + 1,
       threads := match c
                  case LinkAccount(r, _, _) => p.threads[p.taken := Thread(r, LinkEvents(r, link))]
                  case ListFriends(r, _) => p.threads[p.taken := Thread(r, FriendsEvents(r, friends))]
                  case SubmitGuardCode(_, _) => p.threads)
  }

  function Emitted(p: Process, k: nat): Process
    requires k in p.threads && p.threads[k].remaining != []
  {
    var t := p.threads[k];
    p.(threads := p.threads[k := t.(remaining := t.remaining[1..])], outbox := p.outbox + [t.remaining[0]])
  }

  function Do(w: World, a: Step): World
    requires Enabled(w, a)
  {
    match a
    case ControlPlane(b) => w.(sys := C.Do(w.sys, b))
    case Connect(x) => World(C.Do(w.sys, C.Net(Streams.Open(x))), w.processes[x := CONNECTED])
    case TakeCommand(x, link, friends) =>
      var p := w.processes[x];
      w.(processes := w.processes[x := Received(p, w.sys.net.streams[x].sent[p.taken], link, friends)])
    case Emit(x, k) => w.(processes := w.processes[x := Emitted(w.processes[x], k)])
    case Send(x) =>
      var p := w.processes[x];
      World(C.Do(w.sys, C.Arrive(x, p.outbox[0])), w.processes[x := p.(outbox := p.outbox[1..])])
  }

  ghost predicate Runs(w: World, steps: seq<Step>, v: World)
    decreases |steps|
  {
    if steps == [] then w == v
    else Enabled(w, steps[0]) && Runs(Do(w, steps[0]), steps[1..], v)
  }

  ghost predicate Reachable(w: World) {
    exists steps :: Runs(EMPTY, steps, w)
  }

  // ----- Where the one reply to a request is

  /** The event about r that a receive loop is dealing with. */
  function InHand(v: C.Receiver, r: RequestId): seq<Event> {
    match v
    case Handling(ev) => if Concerns(ev, r) then [ev] else []
    case Delivering(reply, _) => if reply.requestId == r then [Final(reply)] else []
    case Calling(ev, _) => if Concerns(ev, r) then [ev] else []
    case _ => []
  }

  function About(evs: seq<Event>, r: RequestId): seq<Event>
    decreases |evs|
  {
    if evs == [] then []
    else (if Concerns(evs[0], r) then [evs[0]] else []) + About(evs[1..], r)
  }

  function Rest(p: Process, k: nat): seq<Event> {
    if k in p.threads then p.threads[k].remaining else []
  }

  /** Everything about r still to be dealt with, in order: in the receive loop, in the outbox, in
      the run that command k started. */
  function Upcoming(v: C.Receiver, p: Process, k: nat, r: RequestId): seq<Event> {
    InHand(v, r) + About(p.outbox, r) + Rest(p, k)
  }

  /** The final reply is in exactly one place, or gone: still upcoming, as the last thing about r;
      or in the call's channel; or returned. */
  ghost predicate OneToken(r: RequestId, upcoming: seq<Event>, inbox: seq<Reply>, answered: bool) {
    && (upcoming == [] || RunShape(r, upcoming))
    && (upcoming != [] ==> inbox == [] && !answered)
    && (inbox != [] ==> !answered)
  }

  predicate Answered(s: C.System, r: RequestId) {
    r in s.phases && C.AnswerOf(s.phases[r]).Some?
  }

  predicate Untouched(s: C.System, r: RequestId)
    requires C.InFlight(s, r)
  {
    C.Inbox(s, r) == [] && !Answered(s, r)
  }

  ghost predicate TokenAt(s: C.System, v: C.Receiver, p: Process, k: nat, r: RequestId)
    requires C.InFlight(s, r)
  {
    && OneToken(r, Upcoming(v, p, k, r), C.Inbox(s, r), Answered(s, r))
    && (k >= p.taken ==> Upcoming(v, p, k, r) == [] && Untouched(s, r))
  }

  ghost predicate Token(w: World, r: RequestId)
    requires C.InFlight(w.sys, r)
  {
    if r !in w.sys.slots then Untouched(w.sys, r)
    else
      var (x, k) := w.sys.slots[r];
      x in w.processes && x in w.sys.receivers && TokenAt(w.sys, w.sys.receivers[x], w.processes[x], k, r)
  }

  ghost predicate Tokens(w: World) {
    forall r :: r in w.sys.calls ==> C.InFlight(w.sys, r) && Token(w, r)
  }

  /** The command of r was received by the process at x. */
  predicate StartedOn(slots: C.Slots, x: StreamId, taken: nat, r: RequestId) {
    r in slots && slots[r].0 == x && slots[r].1 < taken
  }

  /** Events come from the process that received the command they are about. */
  ghost predicate OriginOf(slots: C.Slots, x: StreamId, p: Process, v: C.Receiver) {
    && (forall i, r :: 0 <= i < |p.outbox| && Concerns(p.outbox[i], r) ==> StartedOn(slots, x, p.taken, r))
    && (forall r :: InHand(v, r) != [] ==> StartedOn(slots, x, p.taken, r))
  }

  ghost predicate ThreadsOf(slots: C.Slots, x: StreamId, p: Process) {
    forall k :: k in p.threads ==>
      && k < p.taken && p.threads[k].r in slots && slots[p.threads[k].r] == (x, k)
      && forall i :: 0 <= i < |p.threads[k].remaining| ==> Concerns(p.threads[k].remaining[i], p.threads[k].r)
  }

  ghost predicate ProcessOk(s: C.System, x: StreamId, p: Process) {
    && x in s.net.streams && x in s.receivers
    && p.taken <= |s.net.streams[x].sent|
    && OriginOf(s.slots, x, p, s.receivers[x])
    && ThreadsOf(s.slots, x, p)
  }

  ghost predicate ProcessesOk(w: World) {
    && w.processes.Keys == w.sys.net.streams.Keys
    && forall x :: x in w.processes ==> ProcessOk(w.sys, x, w.processes[x])
  }

  ghost predicate Inv(w: World) {
    C.Inv(w.sys) && ProcessesOk(w) && Tokens(w)
  }

  // ----- Small facts

  function OneAbout(e: Event, r: RequestId): seq<Event> {
    if Concerns(e, r) then [e] else []
  }

  lemma AboutCons(a: seq<Event>, r: RequestId)
    requires a != []
    ensures About(a, r) == OneAbout(a[0], r) + About(a[1..], r)
  {
    hide Concerns;
  }

  lemma {:induction false} AboutAppend(a: seq<Event>, e: Event, r: RequestId)
    ensures About(a + [e], r) == About(a, r) + OneAbout(e, r)
    decreases |a|
  {
    hide About, OneAbout;
    if a == [] {
      assert (a + [e])[1..] == [];
      AboutCons(a + [e], r);
      AboutEmpty(r);
    } else {
      AboutAppend(a[1..], e, r);
      assert (a + [e])[1..] == a[1..] + [e];
      AboutCons(a + [e], r);
      AboutCons(a, r);
    }
  }

  lemma AboutEmpty(r: RequestId)
    ensures About([], r) == []
  {
  }

  lemma {:induction false} AboutNothing(a: seq<Event>, r: RequestId)
    requires forall i :: 0 <= i < |a| ==> !Concerns(a[i], r)
    ensures About(a, r) == []
    decreases |a|
  {
    if a != [] {
      AboutNothing(a[1..], r);
    }
  }

  lemma ShapeTail(r: RequestId, evs: seq<Event>)
    requires RunShape(r, evs)
    ensures evs[0].Final? <==> |evs| == 1
    ensures |evs| > 1 ==> RunShape(r, evs[1..])
  {
  }

  /** Dropping the event in hand. */
  lemma TokenAfterDrop(r: RequestId, head: Event, rest: seq<Event>, inbox: seq<Reply>, answered: bool)
    requires OneToken(r, [head] + rest, inbox, answered)
    ensures OneToken(r, rest, inbox, answered)
    ensures head.Final? ==> rest == []
    ensures inbox == [] && !answered
  {
    ShapeTail(r, [head] + rest);
    assert ([head] + rest)[1..] == rest;
  }

  lemma ConcernsOne(ev: Event, r: RequestId, q: RequestId)
    requires Concerns(ev, r) && Concerns(ev, q)
    ensures r == q
  {
  }

  // ----- Steps of the control plane that move no reply

  /** t differs from s in nothing the worker's replies depend on. */
  ghost predicate SameReplies(s: C.System, t: C.System) {
    && t.calls == s.calls && t.buffers == s.buffers && t.slots == s.slots && t.phases.Keys == s.phases.Keys
    && (forall r :: Answered(t, r) <==> Answered(s, r))
    && t.receivers.Keys == s.receivers.Keys
    && (forall x, r :: x in s.receivers ==> InHand(t.receivers[x], r) == InHand(s.receivers[x], r))
    && t.net.streams.Keys == s.net.streams.Keys
    && (forall x :: x in s.net.streams ==> |s.net.streams[x].sent| <= |t.net.streams[x].sent|)
  }

  predicate QuietStep(b: C.Step) {
    || (b.Net? && !b.step.Open?) || b.Leave? || b.EndSession?
    || b.ReadSlot? || b.Expire? || b.Remove? || b.RelayReads? || b.RelayPushes?
  }

  lemma NetStepKeepsSent(n: Streams.Net, b: Streams.Step)
    requires Streams.Enabled(n, b) && !b.Open?
    ensures var m := Streams.Do(n, b);
            m.streams.Keys == n.streams.Keys && forall x :: x in n.streams ==> |n.streams[x].sent| <= |m.streams[x].sent|
  {
  }

  lemma PhaseStepMovesNoReply(s: C.System, b: C.Step)
    requires C.Enabled(s, b) && (b.ReadSlot? || b.Expire? || b.Remove?)
    ensures SameReplies(s, C.Do(s, b))
  {
    var t := C.Do(s, b);
    PhaseStepFrame(s, b);
    hide InHand, C.Do, C.Enabled;
    forall r ensures Answered(t, r) <==> Answered(s, r) {
    }
  }

  /** t differs from s in the phase of r alone, and not in whether r is answered. */
  ghost predicate KeepsReplies(s: C.System, t: C.System, r: RequestId) {
    && t.receivers == s.receivers && t.net == s.net && t.calls == s.calls && t.buffers == s.buffers && t.slots == s.slots
    && r in s.phases && r in t.phases && t.phases == s.phases[r := t.phases[r]]
    && C.AnswerOf(t.phases[r]) == C.AnswerOf(s.phases[r])
  }

  lemma RemoveFrame(s: C.System, r: RequestId)
    requires r in s.calls && r in s.phases && s.phases[r].Returning?
    ensures KeepsReplies(s, C.RemoveCall(s, r), r)
  {
    hide Pending.RemoveLink;
  }

  lemma PhaseStepFrame(s: C.System, b: C.Step)
    requires C.Enabled(s, b) && (b.ReadSlot? || b.Expire? || b.Remove?)
    ensures KeepsReplies(s, C.Do(s, b), b.r)
  {
    if b.Remove? {
      RemoveFrame(s, b.r);
      hide C.RemoveCall, KeepsReplies;
    }
  }

  lemma ReceiverStepMovesNoReply(s: C.System, b: C.Step)
    requires C.Enabled(s, b) && (b.Leave? || b.EndSession?)
    ensures SameReplies(s, C.Do(s, b))
  {
    var t := C.Do(s, b);
    if b.EndSession? {
      NetStepKeepsSent(s.net, Streams.UnregisterOn(b.x));
    }
    hide Streams.Do, Streams.Enabled;
    forall x, r | x in s.receivers ensures InHand(t.receivers[x], r) == InHand(s.receivers[x], r) {
    }
  }

  lemma SendStepMovesNoReply(s: C.System, b: C.Step)
    requires C.Enabled(s, b) && ((b.Net? && !b.step.Open?) || b.RelayReads? || b.RelayPushes?)
    ensures SameReplies(s, C.Do(s, b))
  {
    var t := C.Do(s, b);
    if b.Net? {
      NetStepKeepsSent(s.net, b.step);
    } else if b.RelayPushes? {
      NetStepKeepsSent(s.net, Streams.Enqueue(s.relays[b.i].0, s.relays[b.i].1));
    }
    hide Streams.Do, Streams.Enabled, InHand;
    assert t.receivers == s.receivers && t.phases == s.phases;
  }

  lemma QuietStepMovesNoReply(s: C.System, b: C.Step)
    requires C.Enabled(s, b) && QuietStep(b)
    ensures SameReplies(s, C.Do(s, b))
  {
    hide SameReplies, C.Do, C.Enabled;
    if b.ReadSlot? || b.Expire? || b.Remove? {
      PhaseStepMovesNoReply(s, b);
    } else if b.Leave? || b.EndSession? {
      ReceiverStepMovesNoReply(s, b);
    } else {
      SendStepMovesNoReply(s, b);
    }
  }

  lemma SameRepliesKeepProcesses(w: World, t: C.System)
    requires ProcessesOk(w) && SameReplies(w.sys, t)
    ensures ProcessesOk(World(t, w.processes))
  {
    forall x | x in w.processes
      ensures ProcessOk(t, x, w.processes[x])
    {
      assert ProcessOk(w.sys, x, w.processes[x]);
      hide ThreadsOf;
    }
  }

  lemma SameTokenAt(s: C.System, v: C.Receiver, t: C.System, u: C.Receiver, p: Process, k: nat, r: RequestId)
    requires C.InFlight(s, r) && C.InFlight(t, r) && TokenAt(s, v, p, k, r)
    requires InHand(u, r) == InHand(v, r) && C.Inbox(t, r) == C.Inbox(s, r) && Answered(t, r) == Answered(s, r)
    ensures TokenAt(t, u, p, k, r)
  {
    assert Upcoming(u, p, k, r) == Upcoming(v, p, k, r);
    hide OneToken, Upcoming;
  }

  lemma SameRepliesKeepTokens(w: World, t: C.System)
    requires Tokens(w) && SameReplies(w.sys, t)
    ensures Tokens(World(t, w.processes))
  {
    forall r | r in t.calls
      ensures C.InFlight(t, r) && Token(World(t, w.processes), r)
    {
      assert C.InFlight(w.sys, r) && Token(w, r);
      if r in w.sys.slots {
        var (x, k) := w.sys.slots[r];
        SameTokenAt(w.sys, w.sys.receivers[x], t, t.receivers[x], w.processes[x], k, r);
      }
      hide TokenAt;
    }
  }

  // ----- A new call, and its command being accepted

  /** A call with a channel of its own leaves every other call's channel and phase alone. */
  ghost predicate AddsCall(s: C.System, t: C.System, r: RequestId) {
    && t.receivers == s.receivers && t.slots == s.slots && t.net == s.net
    && r !in s.slots && t.calls.Keys == s.calls.Keys + {r} && C.InFlight(t, r) && Untouched(t, r)
    && (forall q :: q in s.calls && q != r ==>
          C.InFlight(s, q) && C.InFlight(t, q) && C.Inbox(t, q) == C.Inbox(s, q) && Answered(t, q) == Answered(s, q))
  }

  lemma BeginEffects(s: C.System, b: C.Step)
    requires C.Enabled(s, b) && b.Begin?
    ensures C.Do(s, b) == C.BeginCall(s, b.r, b.h, b.command, b.onGuard, b.onChallenge)
    ensures b.r !in s.calls && b.h !in s.buffers
  {
    hide C.BeginCall;
  }

  lemma BeginCallAdds(s: C.System, r: RequestId, h: C.Handle, command: Command, onGuard: bool, onChallenge: bool)
    requires r !in s.calls && r !in s.phases && r !in s.slots && h !in s.buffers
    requires forall q :: q in s.calls ==> C.InFlight(s, q)
    ensures AddsCall(s, C.BeginCall(s, r, h, command, onGuard, onChallenge), r)
  {
    var t := C.BeginCall(s, r, h, command, onGuard, onChallenge);
    assert t.calls == s.calls[r := C.Call(command, h, onGuard, onChallenge)];
    assert t.phases == s.phases[r := C.Added];
    assert t.buffers == s.buffers[h := []];
    assert t.receivers == s.receivers && t.slots == s.slots && t.net == s.net;
    hide C.BeginCall;
  }

  lemma CallsInFlight(s: C.System, r: RequestId)
    requires C.HandlesOwned(s.calls, s.buffers) && C.PhasesMatch(s.calls, s.phases, s.slots)
    ensures forall q :: q in s.calls ==> C.InFlight(s, q)
    ensures r !in s.calls ==> r !in s.phases && r !in s.slots
  {
  }

  lemma BeginAddsCall(s: C.System, b: C.Step)
    requires C.HandlesOwned(s.calls, s.buffers) && C.PhasesMatch(s.calls, s.phases, s.slots)
    requires C.Enabled(s, b) && b.Begin?
    ensures AddsCall(s, C.Do(s, b), b.r)
  {
    BeginEffects(s, b);
    CallsInFlight(s, b.r);
    hide C.Do, C.Enabled, C.BeginCall, AddsCall, C.HandlesOwned, C.PhasesMatch;
    BeginCallAdds(s, b.r, b.h, b.command, b.onGuard, b.onChallenge);
  }

  lemma AddedCallKeepsTokens(w: World, t: C.System, r: RequestId)
    requires Tokens(w) && AddsCall(w.sys, t, r)
    ensures Tokens(World(t, w.processes))
  {
    var v := World(t, w.processes);
    forall q | q in t.calls
      ensures C.InFlight(t, q) && Token(v, q)
    {
      if q != r {
        assert C.InFlight(w.sys, q) && Token(w, q);
        if q in w.sys.slots {
          var (x, k) := w.sys.slots[q];
          SameTokenAt(w.sys, w.sys.receivers[x], t, t.receivers[x], w.processes[x], k, q);
        }
      }
      hide TokenAt;
    }
  }

  lemma AddedCallKeepsProcesses(w: World, t: C.System, r: RequestId)
    requires ProcessesOk(w) && AddsCall(w.sys, t, r)
    ensures ProcessesOk(World(t, w.processes))
  {
    hide ThreadsOf, OriginOf;
  }

  // ----- A command being accepted

  /** The command of r becomes number k of stream x, behind everything sent. */
  ghost predicate AcceptsCommand(s: C.System, t: C.System, r: RequestId, x: StreamId, k: nat) {
    && t.calls == s.calls && t.buffers == s.buffers && t.receivers == s.receivers
    && r in s.calls && r !in s.slots && t.slots == s.slots[r := (x, k)]
    && t.net.streams.Keys == s.net.streams.Keys && x in s.net.streams
    && (forall y :: y in s.net.streams ==> t.net.streams[y].sent == s.net.streams[y].sent)
    && |s.net.streams[x].sent| <= k
    && t.phases.Keys == s.phases.Keys
    && !Answered(t, r) && forall q :: q != r ==> (Answered(t, q) <==> Answered(s, q))
  }

  lemma PushCommandAccepts(s: C.System, r: RequestId)
    requires C.InFlight(s, r) && s.phases[r].Sending? && r !in s.slots
    requires Streams.Enabled(s.net, Streams.Enqueue(s.phases[r].x, s.calls[r].command))
    requires Streams.Conserved(s.net.streams[s.phases[r].x])
    ensures AcceptsCommand(s, C.PushCommand(s, r), r, s.phases[r].x, |s.net.streams[s.phases[r].x].accepted|)
  {
  }

  lemma PushAccepts(s: C.System, b: C.Step)
    requires C.Inv(s) && C.Enabled(s, b) && b.Push?
    ensures b.r in s.phases && s.phases[b.r].Sending? && s.phases[b.r].x in s.net.streams
    ensures AcceptsCommand(s, C.Do(s, b), b.r, s.phases[b.r].x, |s.net.streams[s.phases[b.r].x].accepted|)
  {
    C.NotPushedYet(s, b.r);
    assert Streams.Conserved(s.net.streams[s.phases[b.r].x]);
    PushCommandAccepts(s, b.r);
    hide C.Inv, C.PushCommand, AcceptsCommand;
  }

  lemma NewSlotKeepsProcess(slots: C.Slots, r: RequestId, slot: (StreamId, nat), x: StreamId, p: Process, v: C.Receiver)
    requires OriginOf(slots, x, p, v) && ThreadsOf(slots, x, p) && r !in slots
    ensures OriginOf(slots[r := slot], x, p, v) && ThreadsOf(slots[r := slot], x, p)
  {
    var slots' := slots[r := slot];
    assert forall q :: StartedOn(slots, x, p.taken, q) ==> StartedOn(slots', x, p.taken, q);
    hide InHand, Concerns;
  }

  lemma AcceptedKeepsProcesses(w: World, t: C.System, r: RequestId, x: StreamId, k: nat)
    requires ProcessesOk(w) && AcceptsCommand(w.sys, t, r, x, k)
    ensures ProcessesOk(World(t, w.processes))
  {
    hide OriginOf, ThreadsOf;
    forall y | y in w.processes
      ensures ProcessOk(t, y, w.processes[y])
    {
      assert ProcessOk(w.sys, y, w.processes[y]);
      NewSlotKeepsProcess(w.sys.slots, r, (x, k), y, w.processes[y], w.sys.receivers[y]);
    }
  }

  /** Nothing is upcoming about a request whose command has not been received. */
  lemma NothingUpcoming(slots: C.Slots, x: StreamId, p: Process, v: C.Receiver, k: nat, r: RequestId)
    requires OriginOf(slots, x, p, v) && ThreadsOf(slots, x, p)
    requires k >= p.taken && !StartedOn(slots, x, p.taken, r)
    ensures Upcoming(v, p, k, r) == []
  {
    AboutNothing(p.outbox, r);
  }

  lemma FreshToken(s: C.System, v: C.Receiver, p: Process, k: nat, r: RequestId)
    requires C.InFlight(s, r) && Untouched(s, r) && Upcoming(v, p, k, r) == []
    ensures TokenAt(s, v, p, k, r)
  {
  }

  lemma PushedTokenFresh(w: World, t: C.System, r: RequestId, x: StreamId, k: nat)
    requires ProcessesOk(w) && C.InFlight(w.sys, r) && Token(w, r) && r !in w.sys.slots
    requires x in w.processes && w.processes[x].taken <= k
    requires t.calls == w.sys.calls && t.buffers == w.sys.buffers && t.receivers == w.sys.receivers
    requires r in t.phases && t.slots == w.sys.slots[r := (x, k)] && !Answered(t, r)
    ensures C.InFlight(t, r) && Token(World(t, w.processes), r)
  {
    assert ProcessOk(w.sys, x, w.processes[x]);
    NothingUpcoming(w.sys.slots, x, w.processes[x], w.sys.receivers[x], k, r);
    FreshToken(t, t.receivers[x], w.processes[x], k, r);
    hide Upcoming, OriginOf, ThreadsOf, TokenAt;
  }

  lemma OtherTokensKept(w: World, t: C.System, r: RequestId, q: RequestId)
    requires C.InFlight(w.sys, q) && Token(w, q) && q != r
    requires C.InFlight(t, q) && C.Inbox(t, q) == C.Inbox(w.sys, q) && Answered(t, q) == Answered(w.sys, q)
    requires t.receivers == w.sys.receivers && (q in t.slots <==> q in w.sys.slots)
    requires q in t.slots ==> t.slots[q] == w.sys.slots[q]
    ensures Token(World(t, w.processes), q)
  {
    if q in w.sys.slots {
      var (x, k) := w.sys.slots[q];
      SameTokenAt(w.sys, w.sys.receivers[x], t, t.receivers[x], w.processes[x], k, q);
    }
    hide TokenAt;
  }

  lemma AcceptedKeepsTokens(w: World, t: C.System, r: RequestId, x: StreamId, k: nat)
    requires ProcessesOk(w) && Tokens(w) && AcceptsCommand(w.sys, t, r, x, k)
    ensures Tokens(World(t, w.processes))
  {
    assert ProcessOk(w.sys, x, w.processes[x]);
    hide Token, ProcessOk;
    forall q | q in t.calls
      ensures C.InFlight(t, q) && Token(World(t, w.processes), q)
    {
      assert C.InFlight(w.sys, q) && Token(w, q);
      if q == r {
        PushedTokenFresh(w, t, r, x, k);
      } else {
        OtherTokensKept(w, t, r, q);
      }
    }
  }

  // ----- A reply taken by its call

  lemma TakeSettlesToken(w: World, t: C.System, r: RequestId)
    requires C.InFlight(w.sys, r) && Token(w, r) && C.Inbox(w.sys, r) != [] && |C.Inbox(w.sys, r)| <= 1
    requires C.InFlight(t, r) && C.Inbox(t, r) == C.Inbox(w.sys, r)[1..] && Answered(t, r)
    requires t.receivers == w.sys.receivers && t.slots == w.sys.slots
    ensures Token(World(t, w.processes), r)
  {
    hide Upcoming;
  }

  /** r takes the reply from its channel; the other calls' channels and phases stay. */
  ghost predicate TakesReply(s: C.System, t: C.System, r: RequestId) {
    && t.receivers == s.receivers && t.slots == s.slots && t.net == s.net && t.calls == s.calls
    && C.InFlight(s, r) && C.Inbox(s, r) != [] && |C.Inbox(s, r)| <= 1
    && C.InFlight(t, r) && C.Inbox(t, r) == C.Inbox(s, r)[1..] && Answered(t, r)
    && (forall q :: q in s.calls && q != r && C.InFlight(s, q) ==>
          C.InFlight(t, q) && C.Inbox(t, q) == C.Inbox(s, q) && Answered(t, q) == Answered(s, q))
  }

  lemma TakeReplyTakes(s: C.System, r: RequestId)
    requires C.InFlight(s, r) && C.Inbox(s, r) != []
    requires C.HandlesOwned(s.calls, s.buffers) && C.BuffersAnswer(s.calls, s.buffers)
    ensures TakesReply(s, C.TakeReply(s, r), r)
  {
    assert |C.Inbox(s, r)| <= 1;
    hide C.BuffersAnswer;
  }

  lemma TakenKeepsTokens(w: World, t: C.System, r: RequestId)
    requires Tokens(w) && TakesReply(w.sys, t, r)
    ensures Tokens(World(t, w.processes))
  {
    hide Token;
    forall q | q in t.calls
      ensures C.InFlight(t, q) && Token(World(t, w.processes), q)
    {
      assert C.InFlight(w.sys, q) && Token(w, q);
      if q == r {
        TakeSettlesToken(w, t, r);
      } else {
        OtherTokensKept(w, t, r, q);
      }
    }
  }

  lemma TakenKeepsProcesses(w: World, t: C.System, r: RequestId)
    requires ProcessesOk(w) && TakesReply(w.sys, t, r)
    ensures ProcessesOk(World(t, w.processes))
  {
    hide OriginOf, ThreadsOf;
  }

  // ----- The receive loop dealing with an event

  /** The receive loop of x keeps the event it has in hand, or is done with it. */
  ghost predicate DealsWith(s: C.System, t: C.System, x: StreamId) {
    && x in s.receivers && t.receivers.Keys == s.receivers.Keys
    && (forall y :: y in s.receivers && y != x ==> t.receivers[y] == s.receivers[y])
    && (forall r :: InHand(t.receivers[x], r) == InHand(s.receivers[x], r) || InHand(t.receivers[x], r) == [])
    && t.slots == s.slots && t.calls == s.calls && t.phases == s.phases
    && t.net.streams.Keys == s.net.streams.Keys
    && (forall y :: y in s.net.streams ==> t.net.streams[y].sent == s.net.streams[y].sent)
  }

  lemma DealingKeepsProcesses(w: World, t: C.System, x: StreamId)
    requires ProcessesOk(w) && DealsWith(w.sys, t, x)
    ensures ProcessesOk(World(t, w.processes))
  {
    hide InHand, ThreadsOf, Concerns;
    forall y | y in w.processes
      ensures ProcessOk(t, y, w.processes[y])
    {
      assert ProcessOk(w.sys, y, w.processes[y]);
    }
  }

  /** One token while the loop deals with an event that is not delivered. */
  lemma DealtTokenAt(s: C.System, t: C.System, v: C.Receiver, u: C.Receiver, p: Process, k: nat, r: RequestId)
    requires C.InFlight(s, r) && C.InFlight(t, r) && TokenAt(s, v, p, k, r)
    requires C.Inbox(t, r) == C.Inbox(s, r) && Answered(t, r) == Answered(s, r)
    requires InHand(u, r) == InHand(v, r) || InHand(u, r) == []
    ensures TokenAt(t, u, p, k, r)
  {
    if InHand(u, r) == InHand(v, r) {
      SameTokenAt(s, v, t, u, p, k, r);
    } else {
      var rest := About(p.outbox, r) + Rest(p, k);
      var head := InHand(v, r)[0];
      assert Upcoming(v, p, k, r) == [head] + rest;
      assert Upcoming(u, p, k, r) == rest;
      TokenAfterDrop(r, head, rest, C.Inbox(s, r), Answered(s, r));
      hide OneToken, Upcoming;
    }
  }

  lemma DealtToken(w: World, t: C.System, x: StreamId, r: RequestId)
    requires C.InFlight(w.sys, r) && Token(w, r) && DealsWith(w.sys, t, x)
    requires C.InFlight(t, r) && C.Inbox(t, r) == C.Inbox(w.sys, r) && Answered(t, r) == Answered(w.sys, r)
    ensures Token(World(t, w.processes), r)
  {
    if r in w.sys.slots {
      var (y, k) := w.sys.slots[r];
      DealtTokenAt(w.sys, t, w.sys.receivers[y], t.receivers[y], w.processes[y], k, r);
    }
    hide TokenAt, InHand;
  }

  lemma DealingKeepsTokens(w: World, t: C.System, x: StreamId)
    requires Tokens(w) && DealsWith(w.sys, t, x) && t.buffers == w.sys.buffers
    ensures Tokens(World(t, w.processes))
  {
    hide Token, DealsWith;
    assert t.calls == w.sys.calls && t.phases == w.sys.phases by { DealingFrame(w.sys, t, x); }
    forall r | r in t.calls
      ensures C.InFlight(t, r) && Token(World(t, w.processes), r)
    {
      assert C.InFlight(w.sys, r) && Token(w, r);
      DealtToken(w, t, x, r);
    }
  }

  lemma DealingFrame(s: C.System, t: C.System, x: StreamId)
    requires DealsWith(s, t, x)
    ensures t.calls == s.calls && t.phases == s.phases
  {
  }

  lemma HandleDeals(s: C.System, x: StreamId)
    requires x in s.receivers && s.receivers[x].Handling? && Streams.Enabled(s.net, Streams.ReadyOn(x))
    ensures DealsWith(s, C.HandleEvent(s, x), x) && C.HandleEvent(s, x).buffers == s.buffers
  {
    assert Streams.Do(s.net, Streams.ReadyOn(x)).streams == s.net.streams;
    hide Streams.Do, C.Lookup;
  }

  lemma FinishDeals(s: C.System, x: StreamId)
    requires x in s.receivers && s.receivers[x].Calling?
    ensures DealsWith(s, C.FinishCallback(s, x), x) && C.FinishCallback(s, x).buffers == s.buffers
  {
  }

  // ----- A reply delivered to its call's channel

  /** The reply in hand at x moves into the channel of the call it names. */
  ghost predicate Delivers(s: C.System, t: C.System, x: StreamId, r: RequestId) {
    && DealsWith(s, t, x)
    && s.receivers[x].Delivering? && s.receivers[x].reply.requestId == r
    && r in s.calls && C.InFlight(t, r) && C.Inbox(t, r) == [s.receivers[x].reply]
    && InHand(t.receivers[x], r) == []
    && (forall q :: q in s.calls && q != r && C.InFlight(s, q) ==> C.InFlight(t, q) && C.Inbox(t, q) == C.Inbox(s, q))
  }

  lemma DeliverReplyDelivers(s: C.System, x: StreamId)
    requires x in s.receivers && s.receivers[x].Delivering? && C.HoldsOwn(s.calls, s.receivers[x])
    requires C.HandlesOwned(s.calls, s.buffers) && s.phases.Keys == s.calls.Keys
    ensures Delivers(s, C.DeliverReply(s, x), x, s.receivers[x].reply.requestId)
  {
  }

  lemma DeliveredTokenAt(s: C.System, t: C.System, v: C.Receiver, u: C.Receiver, p: Process, k: nat, r: RequestId)
    requires C.InFlight(s, r) && C.InFlight(t, r) && TokenAt(s, v, p, k, r)
    requires v.Delivering? && v.reply.requestId == r && InHand(u, r) == []
    requires Answered(t, r) == Answered(s, r)
    ensures TokenAt(t, u, p, k, r)
  {
    var rest := About(p.outbox, r) + Rest(p, k);
    assert Upcoming(v, p, k, r) == [Final(v.reply)] + rest;
    assert Upcoming(u, p, k, r) == rest;
    TokenAfterDrop(r, Final(v.reply), rest, C.Inbox(s, r), Answered(s, r));
    hide Upcoming;
  }

  lemma DeliveredToken(w: World, t: C.System, x: StreamId, r: RequestId)
    requires ProcessesOk(w) && x in w.processes && C.InFlight(w.sys, r) && Token(w, r) && Delivers(w.sys, t, x, r)
    ensures C.InFlight(t, r) && Token(World(t, w.processes), r)
  {
    assert ProcessOk(w.sys, x, w.processes[x]);
    assert InHand(w.sys.receivers[x], r) != [];
    assert StartedOn(w.sys.slots, x, w.processes[x].taken, r);
    DeliveredTokenAt(w.sys, t, w.sys.receivers[x], t.receivers[x], w.processes[x], w.sys.slots[r].1, r);
    hide TokenAt, InHand, OriginOf, ThreadsOf;
  }

  lemma DeliveryKeepsTokens(w: World, t: C.System, x: StreamId, r: RequestId)
    requires ProcessesOk(w) && x in w.processes && Tokens(w) && Delivers(w.sys, t, x, r)
    ensures Tokens(World(t, w.processes))
  {
    hide Token, DealsWith, ProcessesOk;
    assert t.calls == w.sys.calls && t.phases == w.sys.phases by { DealingFrame(w.sys, t, x); }
    forall q | q in t.calls
      ensures C.InFlight(t, q) && Token(World(t, w.processes), q)
    {
      assert C.InFlight(w.sys, q) && Token(w, q);
      if q == r {
        DeliveredToken(w, t, x, r);
      } else {
        DealtToken(w, t, x, q);
      }
    }
  }

  // ----- Steps of the worker

  /** Only the process at x changes, or is new. */
  lemma ProcessStepKeepsTokens(w: World, t: C.System, x: StreamId, p: Process)
    requires Tokens(w)
    requires t.calls == w.sys.calls && t.phases == w.sys.phases && t.buffers == w.sys.buffers && t.slots == w.sys.slots
    requires x in t.receivers && w.sys.receivers.Keys <= t.receivers.Keys
    requires forall y :: y in w.sys.receivers && y != x ==> t.receivers[y] == w.sys.receivers[y]
    requires forall r :: r in w.sys.slots && w.sys.slots[r].0 == x && C.InFlight(w.sys, r) && Token(w, r) ==>
               TokenAt(w.sys, t.receivers[x], p, w.sys.slots[r].1, r)
    ensures Tokens(World(t, w.processes[x := p]))
  {
    var v := World(t, w.processes[x := p]);
    hide TokenAt;
    forall r | r in t.calls
      ensures C.InFlight(t, r) && Token(v, r)
    {
      assert C.InFlight(w.sys, r) && Token(w, r);
      if r in w.sys.slots {
        var (y, k) := w.sys.slots[r];
        var q := if y == x then p else w.processes[y];
        SameTokenAt(w.sys, t.receivers[y], t, t.receivers[y], q, k, r);
      }
    }
  }

  lemma ConnectKeepsInv(w: World, t: C.System, x: StreamId)
    requires ProcessesOk(w) && Tokens(w) && x !in w.processes
    requires t.calls == w.sys.calls && t.phases == w.sys.phases && t.buffers == w.sys.buffers && t.slots == w.sys.slots
    requires w.sys.receivers.Keys == w.sys.net.streams.Keys
    requires t.receivers == w.sys.receivers[x := C.Listening]
    requires t.net.streams == w.sys.net.streams[x := Streams.OPENED]
    requires forall r :: r in w.sys.slots ==> w.sys.slots[r].0 in w.sys.net.streams
    ensures ProcessesOk(World(t, w.processes[x := CONNECTED])) && Tokens(World(t, w.processes[x := CONNECTED]))
  {
    assert OriginOf(t.slots, x, CONNECTED, C.Listening);
    forall y | y in w.processes
      ensures ProcessOk(t, y, w.processes[y])
    {
      assert ProcessOk(w.sys, y, w.processes[y]);
    }
    hide OriginOf, ThreadsOf, Token;
    ProcessStepKeepsTokens(w, t, x, CONNECTED);
  }

  lemma OriginGrows(slots: C.Slots, x: StreamId, p: Process, q: Process, v: C.Receiver)
    requires OriginOf(slots, x, p, v) && q.outbox == p.outbox && p.taken <= q.taken
    ensures OriginOf(slots, x, q, v)
  {
    assert forall r :: StartedOn(slots, x, p.taken, r) ==> StartedOn(slots, x, q.taken, r);
    hide InHand, Concerns, StartedOn;
  }

  lemma ReceivedProcess(s: C.System, x: StreamId, p: Process, c: Command, link: LinkRun, friends: FriendsRun)
    requires ProcessOk(s, x, p) && p.taken < |s.net.streams[x].sent|
    requires IsRequest(c) ==> c.id in s.slots && s.slots[c.id] == (x, p.taken)
    ensures ProcessOk(s, x, Received(p, c, link, friends))
  {
    var q := Received(p, c, link, friends);
    RunsReportOnce(if IsRequest(c) then c.id else 0, link, friends);
    OriginGrows(s.slots, x, p, q, s.receivers[x]);
    assert ThreadsOf(s.slots, x, q) by {
      hide OriginOf, InHand, Concerns, LinkEvents, FriendsEvents;
    }
    hide OriginOf, ThreadsOf;
  }

  lemma ReceivedTokenAt(s: C.System, v: C.Receiver, p: Process, c: Command, link: LinkRun, friends: FriendsRun, k: nat, r: RequestId)
    requires C.InFlight(s, r) && TokenAt(s, v, p, k, r)
    requires k == p.taken ==> IsRequest(c) && c.id == r
    ensures TokenAt(s, v, Received(p, c, link, friends), k, r)
  {
    var q := Received(p, c, link, friends);
    RunsReportOnce(r, link, friends);
    if k == p.taken {
      var evs := if c.LinkAccount? then LinkEvents(r, link) else FriendsEvents(r, friends);
      assert Rest(q, k) == evs;
      assert InHand(v, r) == [] && About(p.outbox, r) == [] by {
        assert Upcoming(v, p, k, r) == [];
      }
      assert Upcoming(v, q, k, r) == evs;
    } else {
      assert Rest(q, k) == Rest(p, k);
    }
    hide Upcoming, LinkEvents, FriendsEvents, RunShape;
  }

  lemma EmittedProcess(s: C.System, x: StreamId, p: Process, k: nat)
    requires ProcessOk(s, x, p) && k in p.threads && p.threads[k].remaining != []
    ensures ProcessOk(s, x, Emitted(p, k))
  {
    var q := Emitted(p, k);
    var ev, r := p.threads[k].remaining[0], p.threads[k].r;
    assert Concerns(ev, r) && StartedOn(s.slots, x, p.taken, r);
    assert OriginOf(s.slots, x, q, s.receivers[x]) by {
      forall i, o | 0 <= i < |q.outbox| && Concerns(q.outbox[i], o)
        ensures StartedOn(s.slots, x, q.taken, o)
      {
        if i == |p.outbox| {
          ConcernsOne(ev, r, o);
        }
      }
      hide InHand, ThreadsOf, Concerns;
    }
    hide OriginOf, InHand, Concerns;
  }

  lemma EmittedKeepsUpcoming(v: C.Receiver, p: Process, k: nat, r: RequestId)
    requires k in p.threads && p.threads[k].remaining != [] && Concerns(p.threads[k].remaining[0], r)
    ensures Upcoming(v, Emitted(p, k), k, r) == Upcoming(v, p, k, r)
  {
    var ev, rest := p.threads[k].remaining[0], p.threads[k].remaining[1..];
    AboutAppend(p.outbox, ev, r);
    assert p.threads[k].remaining == [ev] + rest;
    var head, mid := InHand(v, r), About(p.outbox, r);
    assert head + (mid + [ev]) + rest == head + mid + ([ev] + rest);
    hide About, InHand, Concerns;
  }

  lemma EmittedKeepsOthers(v: C.Receiver, p: Process, k: nat, j: nat, r: RequestId)
    requires k in p.threads && p.threads[k].remaining != [] && !Concerns(p.threads[k].remaining[0], r) && j != k
    ensures Upcoming(v, Emitted(p, k), j, r) == Upcoming(v, p, j, r)
  {
    AboutAppend(p.outbox, p.threads[k].remaining[0], r);
    hide InHand, Concerns;
    assert About(p.outbox, r) + [] == About(p.outbox, r);
  }

  lemma EmittedTokenAt(s: C.System, v: C.Receiver, x: StreamId, p: Process, k: nat, j: nat, r: RequestId)
    requires C.InFlight(s, r) && TokenAt(s, v, p, j, r)
    requires r in s.slots && s.slots[r] == (x, j) && ThreadsOf(s.slots, x, p)
    requires k in p.threads && p.threads[k].remaining != []
    ensures TokenAt(s, v, Emitted(p, k), j, r)
  {
    var ev := p.threads[k].remaining[0];
    assert Concerns(ev, p.threads[k].r) && s.slots[p.threads[k].r] == (x, k);
    if k == j {
      EmittingConcernsOwn(s, v, p, k, r);
      EmittedKeepsUpcoming(v, p, k, r);
    } else {
      if Concerns(ev, r) { ConcernsOne(ev, r, p.threads[k].r); }
      EmittedKeepsOthers(v, p, k, j, r);
    }
    hide Upcoming, OneToken, ThreadsOf, Concerns;
  }

  lemma EmittingConcernsOwn(s: C.System, v: C.Receiver, p: Process, k: nat, r: RequestId)
    requires C.InFlight(s, r) && TokenAt(s, v, p, k, r)
    requires k in p.threads && p.threads[k].remaining != []
    ensures Concerns(p.threads[k].remaining[0], r)
  {
    var before := InHand(v, r) + About(p.outbox, r);
    assert Upcoming(v, p, k, r)[|before|] == p.threads[k].remaining[0];
    hide About, InHand, Concerns;
  }

  lemma SentProcess(s: C.System, t: C.System, x: StreamId, p: Process)
    requires ProcessOk(s, x, p) && p.outbox != [] && s.receivers[x].Listening?
    requires t.slots == s.slots && t.net == s.net && t.receivers == s.receivers[x := C.Handling(p.outbox[0])]
    ensures ProcessOk(t, x, p.(outbox := p.outbox[1..]))
  {
    var q := p.(outbox := p.outbox[1..]);
    assert forall i :: 0 <= i < |q.outbox| ==> q.outbox[i] == p.outbox[i + 1];
    assert OriginOf(s.slots, x, q, t.receivers[x]) by {
      hide Concerns, ThreadsOf;
    }
    hide OriginOf;
  }

  lemma SentTokenAt(s: C.System, p: Process, k: nat, r: RequestId)
    requires C.InFlight(s, r) && TokenAt(s, C.Listening, p, k, r) && p.outbox != []
    ensures TokenAt(s, C.Handling(p.outbox[0]), p.(outbox := p.outbox[1..]), k, r)
  {
    var q := p.(outbox := p.outbox[1..]);
    assert InHand(C.Listening, r) + About(p.outbox, r) == InHand(C.Handling(p.outbox[0]), r) + About(q.outbox, r);
    assert Upcoming(C.Handling(p.outbox[0]), q, k, r) == Upcoming(C.Listening, p, k, r);
    hide Upcoming, OneToken;
  }

  // ----- Every step

  lemma InvParts(s: C.System)
    requires C.Inv(s)
    ensures C.HandlesOwned(s.calls, s.buffers) && C.PhasesMatch(s.calls, s.phases, s.slots) && C.BuffersAnswer(s.calls, s.buffers)
    ensures s.receivers.Keys == s.net.streams.Keys && s.phases.Keys == s.calls.Keys
    ensures forall x :: x in s.receivers ==> C.HoldsOwn(s.calls, s.receivers[x])
    ensures forall r :: r in s.slots ==> r in s.calls && s.slots[r].0 in s.net.streams
  {
    hide Streams.Inv, C.FriendsTable, C.LinksTable, C.OutcomesAnswer, C.CallbacksOwn, C.SendersMatch,
         C.HandlesOwned, C.BuffersAnswer, C.HoldsOwn;
  }

  lemma ControlPlaneKeepsInv(w: World, b: C.Step)
    requires Inv(w) && Enabled(w, ControlPlane(b))
    ensures ProcessesOk(World(C.Do(w.sys, b), w.processes)) && Tokens(World(C.Do(w.sys, b), w.processes))
  {
    var s, t := w.sys, C.Do(w.sys, b);
    InvParts(s);
    if QuietStep(b) {
      QuietStepMovesNoReply(s, b);
      hide C.Inv, C.Do, C.Enabled, ProcessesOk, Tokens, SameReplies;
      SameRepliesKeepProcesses(w, t);
      SameRepliesKeepTokens(w, t);
    } else if b.Begin? {
      BeginAddsCall(s, b);
      hide C.Inv, C.Do, C.Enabled, ProcessesOk, Tokens, AddsCall;
      AddedCallKeepsProcesses(w, t, b.r);
      AddedCallKeepsTokens(w, t, b.r);
    } else if b.Push? {
      PushAccepts(s, b);
      hide C.Inv, C.Do, C.Enabled, ProcessesOk, Tokens, AcceptsCommand;
      var x, k := s.phases[b.r].x, |s.net.streams[s.phases[b.r].x].accepted|;
      AcceptedKeepsProcesses(w, t, b.r, x, k);
      AcceptedKeepsTokens(w, t, b.r, x, k);
    } else if b.Take? {
      TakeReplyTakes(s, b.r);
      hide C.Inv, C.Enabled, ProcessesOk, Tokens, TakesReply, C.TakeReply, C.BuffersAnswer, C.HandlesOwned;
      TakenKeepsProcesses(w, t, b.r);
      TakenKeepsTokens(w, t, b.r);
    } else {
      ReceiveLoopKeepsInv(w, b);
    }
  }

  lemma ReceiveLoopKeepsInv(w: World, b: C.Step)
    requires Inv(w) && C.Enabled(w.sys, b) && (b.Handle? || b.CallbackReturns? || b.Deliver?)
    ensures ProcessesOk(World(C.Do(w.sys, b), w.processes)) && Tokens(World(C.Do(w.sys, b), w.processes))
  {
    var s, t := w.sys, C.Do(w.sys, b);
    InvParts(s);
    assert b.x in w.processes;
    if b.Deliver? {
      DeliverReplyDelivers(s, b.x);
      hide C.Inv, C.Enabled, ProcessesOk, Tokens, C.DeliverReply, DealsWith;
      DealingKeepsProcesses(w, t, b.x);
      DeliveryKeepsTokens(w, t, b.x, s.receivers[b.x].reply.requestId);
    } else {
      if b.Handle? {
        HandleDeals(s, b.x);
      } else {
        FinishDeals(s, b.x);
      }
      hide C.Inv, C.Enabled, ProcessesOk, Tokens, C.HandleEvent, C.FinishCallback, DealsWith;
      DealingKeepsProcesses(w, t, b.x);
      DealingKeepsTokens(w, t, b.x);
    }
  }

  lemma ReplacedProcessOk(w: World, x: StreamId, p: Process)
    requires ProcessesOk(w) && x in w.processes && ProcessOk(w.sys, x, p)
    ensures ProcessesOk(World(w.sys, w.processes[x := p]))
  {
    hide ProcessOk;
  }

  lemma TakeKeepsTokens(w: World, x: StreamId, c: Command, link: LinkRun, friends: FriendsRun)
    requires Tokens(w) && x in w.processes && x in w.sys.receivers
    requires forall r :: r in w.sys.slots && w.sys.slots[r] == (x, w.processes[x].taken) ==> IsRequest(c) && c.id == r
    ensures Tokens(World(w.sys, w.processes[x := Received(w.processes[x], c, link, friends)]))
  {
    var s, p := w.sys, w.processes[x];
    hide Token, TokenAt, Received, Tokens;
    forall r | r in s.slots && s.slots[r].0 == x && C.InFlight(s, r) && Token(w, r)
      ensures TokenAt(s, s.receivers[x], Received(p, c, link, friends), s.slots[r].1, r)
    {
      TokenOn(w, x, r);
      ReceivedTokenAt(s, s.receivers[x], p, c, link, friends, s.slots[r].1, r);
    }
    ProcessStepKeepsTokens(w, s, x, Received(p, c, link, friends));
  }

  lemma TakenCommandOwner(s: C.System, x: StreamId, k: nat)
    requires C.Inv(s) && x in s.net.streams && k < |s.net.streams[x].sent|
    ensures forall r :: r in s.slots && s.slots[r] == (x, k) ==>
              IsRequest(s.net.streams[x].sent[k]) && s.net.streams[x].sent[k].id == r
  {
    SentAtSlot(s, x, k);
    forall r | r in s.slots && s.slots[r] == (x, k)
      ensures IsRequest(s.net.streams[x].sent[k]) && s.net.streams[x].sent[k].id == r
    {
      SlotCommand(s, r);
    }
    hide C.Inv;
  }

  lemma TakeCommandKeepsInv(w: World, a: Step)
    requires Inv(w) && Enabled(w, a) && a.TakeCommand?
    ensures ProcessesOk(Do(w, a)) && Tokens(Do(w, a))
  {
    var s, x := w.sys, a.x;
    var p := w.processes[x];
    var c := s.net.streams[x].sent[p.taken];
    SentAtSlot(s, x, p.taken);
    TakenCommandOwner(s, x, p.taken);
    assert ProcessOk(s, x, p);
    hide C.Inv, Tokens, ProcessesOk, ProcessOk, Received, C.Do, C.Enabled;
    ReceivedProcess(s, x, p, c, a.link, a.friends);
    ReceiverOfProcess(s, x, p);
    TakeKeepsTokens(w, x, c, a.link, a.friends);
    ReplacedProcessOk(w, x, Received(p, c, a.link, a.friends));
  }

  lemma ReceiverOfProcess(s: C.System, x: StreamId, p: Process)
    requires ProcessOk(s, x, p)
    ensures x in s.receivers && ThreadsOf(s.slots, x, p)
  {
    hide OriginOf, ThreadsOf;
  }

  lemma TokenOn(w: World, x: StreamId, r: RequestId)
    requires r in w.sys.slots && w.sys.slots[r].0 == x && C.InFlight(w.sys, r) && Token(w, r)
    ensures x in w.processes && x in w.sys.receivers && TokenAt(w.sys, w.sys.receivers[x], w.processes[x], w.sys.slots[r].1, r)
  {
    hide TokenAt;
  }

  /** The k-th command sent on x, if a request, is the one whose slot is (x, k). */
  lemma SentAtSlot(s: C.System, x: StreamId, k: nat)
    requires C.Inv(s) && x in s.net.streams && k < |s.net.streams[x].sent|
    ensures k < |s.net.streams[x].accepted| && s.net.streams[x].accepted[k] == s.net.streams[x].sent[k]
    ensures IsRequest(s.net.streams[x].sent[k]) ==>
              s.net.streams[x].sent[k].id in s.slots && s.slots[s.net.streams[x].sent[k].id] == (x, k)
  {
    InvStreams(s, x);
    hide C.Inv;
    SentIsPrefix(s.net.streams[x]);
    hide Streams.Conserved, C.AtSlot;
  }

  lemma InvStreams(s: C.System, x: StreamId)
    requires C.Inv(s) && x in s.net.streams
    ensures Streams.Conserved(s.net.streams[x]) && C.SlotsMatch(s.net, s.calls, s.slots)
  {
    hide Streams.Conserved, C.PhasesMatch, C.FriendsTable, C.LinksTable, C.HandlesOwned, C.BuffersAnswer, C.ReceiversHoldOwn,
         C.OutcomesAnswer, C.CallbacksOwn, C.ReceiversMatch, C.SendersMatch, C.SlotsMatch;
  }

  lemma SentIsPrefix(st: Streams.Stream)
    requires Streams.Conserved(st)
    ensures |st.sent| <= |st.accepted| && forall k :: 0 <= k < |st.sent| ==> st.accepted[k] == st.sent[k]
  {
    assert st.accepted == st.sent + ((Streams.InHand(st) + st.lost) + st.queue);
  }

  lemma SlotCommand(s: C.System, r: RequestId)
    requires C.Inv(s) && r in s.slots
    ensures C.AtSlot(s.net, s.slots[r], s.calls[r].command) && IsRequest(s.calls[r].command) && s.calls[r].command.id == r
  {
    hide Streams.Inv, C.FriendsTable, C.LinksTable, C.OutcomesAnswer, C.CallbacksOwn, C.SendersMatch, C.BuffersAnswer;
  }

  lemma EmitKeepsTokens(w: World, x: StreamId, k: nat)
    requires Tokens(w) && x in w.processes && x in w.sys.receivers && ThreadsOf(w.sys.slots, x, w.processes[x])
    requires k in w.processes[x].threads && w.processes[x].threads[k].remaining != []
    ensures Tokens(World(w.sys, w.processes[x := Emitted(w.processes[x], k)]))
  {
    var s, p := w.sys, w.processes[x];
    hide Token, TokenAt, Emitted, Tokens, ThreadsOf;
    forall r | r in s.slots && s.slots[r].0 == x && C.InFlight(s, r) && Token(w, r)
      ensures TokenAt(s, s.receivers[x], Emitted(p, k), s.slots[r].1, r)
    {
      TokenOn(w, x, r);
      EmittedTokenAt(s, s.receivers[x], x, p, k, s.slots[r].1, r);
    }
    ProcessStepKeepsTokens(w, s, x, Emitted(p, k));
  }

  lemma EmitKeepsInv(w: World, a: Step)
    requires Inv(w) && Enabled(w, a) && a.Emit?
    ensures ProcessesOk(Do(w, a)) && Tokens(Do(w, a))
  {
    var p := w.processes[a.x];
    assert ProcessOk(w.sys, a.x, p);
    hide C.Inv, Tokens, ProcessesOk, ProcessOk, Emitted, C.Do, C.Enabled;
    ReceiverOfProcess(w.sys, a.x, p);
    EmittedProcess(w.sys, a.x, p, a.k);
    EmitKeepsTokens(w, a.x, a.k);
    ReplacedProcessOk(w, a.x, Emitted(p, a.k));
  }

  lemma SendKeepsTokens(w: World, t: C.System, x: StreamId)
    requires Tokens(w) && x in w.processes && x in w.sys.receivers && w.processes[x].outbox != []
    requires w.sys.receivers[x].Listening?
    requires t == w.sys.(receivers := w.sys.receivers[x := C.Handling(w.processes[x].outbox[0])])
    ensures Tokens(World(t, w.processes[x := w.processes[x].(outbox := w.processes[x].outbox[1..])]))
  {
    var s, p := w.sys, w.processes[x];
    var q := p.(outbox := p.outbox[1..]);
    hide Token, TokenAt, Tokens;
    forall r | r in s.slots && s.slots[r].0 == x && C.InFlight(s, r) && Token(w, r)
      ensures TokenAt(s, t.receivers[x], q, s.slots[r].1, r)
    {
      TokenOn(w, x, r);
      SentTokenAt(s, p, s.slots[r].1, r);
    }
    ProcessStepKeepsTokens(w, t, x, q);
  }

  lemma SendKeepsInv(w: World, a: Step)
    requires Inv(w) && Enabled(w, a) && a.Send?
    ensures ProcessesOk(Do(w, a)) && Tokens(Do(w, a))
  {
    hide C.Inv, C.Do, C.Enabled, Tokens, ProcessOk;
    var s, x := w.sys, a.x;
    var p := w.processes[x];
    var t := s.(receivers := s.receivers[x := C.Handling(p.outbox[0])]);
    ArriveSets(s, x, p.outbox[0]);
    assert ProcessOk(s, x, p);
    SentProcess(s, t, x, p);
    SentKeepsOthers(w, t, x);
    SendKeepsTokens(w, t, x);
  }

  lemma ArriveSets(s: C.System, x: StreamId, ev: Event)
    requires C.Enabled(s, C.Arrive(x, ev))
    ensures x in s.receivers && s.receivers[x] == C.Listening
    ensures C.Do(s, C.Arrive(x, ev)) == s.(receivers := s.receivers[x := C.Handling(ev)])
  {
  }

  lemma SentKeepsOthers(w: World, t: C.System, x: StreamId)
    requires ProcessesOk(w) && x in w.processes
    requires t.slots == w.sys.slots && t.net == w.sys.net && t.receivers.Keys == w.sys.receivers.Keys
    requires forall y :: y in t.receivers && y != x ==> t.receivers[y] == w.sys.receivers[y]
    ensures forall y :: y in w.processes && y != x ==> ProcessOk(t, y, w.processes[y])
  {
    forall y | y in w.processes && y != x
      ensures ProcessOk(t, y, w.processes[y])
    {
      assert ProcessOk(w.sys, y, w.processes[y]);
    }
    hide OriginOf, ThreadsOf;
  }

  lemma ConnectStepKeepsInv(w: World, a: Step)
    requires Inv(w) && Enabled(w, a) && a.Connect?
    ensures ProcessesOk(Do(w, a)) && Tokens(Do(w, a))
  {
    InvParts(w.sys);
    var t := C.Do(w.sys, C.Net(Streams.Open(a.x)));
    hide C.Inv, ProcessesOk, Tokens;
    ConnectKeepsInv(w, t, a.x);
  }

  lemma StepKeepsInv(w: World, a: Step)
    requires Inv(w) && Enabled(w, a)
    ensures Inv(Do(w, a))
  {
    hide ProcessesOk, Tokens, C.Inv, C.Do, C.Enabled;
    match a {
      case ControlPlane(b) =>
        C.StepKeepsInv(w.sys, b);
        ControlPlaneKeepsInv(w, b);
      case Connect(x) =>
        C.StepKeepsInv(w.sys, C.Net(Streams.Open(x)));
        ConnectStepKeepsInv(w, a);
      case TakeCommand(_, _, _) => TakeCommandKeepsInv(w, a);
      case Emit(_, _) => EmitKeepsInv(w, a);
      case Send(x) =>
        C.StepKeepsInv(w.sys, C.Arrive(x, w.processes[x].outbox[0]));
        SendKeepsInv(w, a);
    }
  }

  lemma EmptyInv()
    ensures Inv(EMPTY)
  {
    C.EmptyInv();
    hide C.Inv;
  }

  lemma {:induction false} RunKeepsInv(w: World, steps: seq<Step>, v: World)
    requires Inv(w) && Runs(w, steps, v)
    ensures Inv(v)
    decreases |steps|
  {
    hide Inv, Do, Enabled;
    if steps != [] {
      StepKeepsInv(w, steps[0]);
      RunKeepsInv(Do(w, steps[0]), steps[1..], v);
    }
  }

  lemma ReachableInv(w: World)
    requires Reachable(w)
    ensures Inv(w)
  {
    var steps :| Runs(EMPTY, steps, w);
    EmptyInv();
    hide Inv;
    RunKeepsInv(EMPTY, steps, w);
  }

  // ----- What the worker adds

  // ----- One reply arrives for each request

  /** What of r's run the worker has yet to send. */
  function Unsent(p: Process, k: nat, r: RequestId): seq<Event> {
    About(p.outbox, r) + Rest(p, k)
  }

  /** If a reply for r has arrived, its process has nothing more to say about r. */
  ghost predicate Spent(slots: C.Slots, processes: map<StreamId, Process>, r: RequestId, arrived: nat) {
    && arrived <= 1
    && (arrived == 1 ==>
          && r in slots && slots[r].0 in processes
          && slots[r].1 < processes[slots[r].0].taken
          && Unsent(processes[slots[r].0], slots[r].1, r) == [])
  }

  /** How many replies for r a step here brings to a receive loop. */
  function ArrivalIn(w: World, a: Step, r: RequestId): nat {
    if a.Send? && a.x in w.processes && w.processes[a.x].outbox != [] then C.ArrivalOf(C.Arrive(a.x, w.processes[a.x].outbox[0]), r)
    else 0
  }

  ghost predicate SlotsStay(slots: C.Slots, slots': C.Slots) {
    forall r :: r in slots ==> r in slots' && slots'[r] == slots[r]
  }

  lemma SlotsOfOthers(s: C.System, b: C.Step)
    requires C.Enabled(s, b) && !b.Push?
    ensures C.Do(s, b).slots == s.slots
  {
    hide Streams.Do, Streams.Enabled, C.Lookup, C.AfterHandling, C.RemoveCall, C.BeginCall;
    if b.Remove? {
      RemoveKeepsSlots(s, b.r);
    } else if b.Begin? {
      BeginKeepsSlots(s, b.r, b.h, b.command, b.onGuard, b.onChallenge);
    }
  }

  lemma RemoveKeepsSlots(s: C.System, r: RequestId)
    requires r in s.calls && r in s.phases && s.phases[r].Returning?
    ensures C.RemoveCall(s, r).slots == s.slots
  {
    hide Pending.RemoveLink;
  }

  lemma BeginKeepsSlots(s: C.System, r: RequestId, h: C.Handle, command: Command, onGuard: bool, onChallenge: bool)
    ensures C.BeginCall(s, r, h, command, onGuard, onChallenge).slots == s.slots
  {
    hide Pending.AddLink;
  }

  lemma StepKeepsSlots(s: C.System, b: C.Step)
    requires C.Inv(s) && C.Enabled(s, b)
    ensures SlotsStay(s.slots, C.Do(s, b).slots)
  {
    hide C.Do, C.Enabled, C.Inv, AcceptsCommand;
    if b.Push? {
      PushAccepts(s, b);
      AcceptedSlots(s, C.Do(s, b), b.r, s.phases[b.r].x, |s.net.streams[s.phases[b.r].x].accepted|);
    } else {
      SlotsOfOthers(s, b);
    }
  }

  lemma AcceptedSlots(s: C.System, t: C.System, r: RequestId, x: StreamId, k: nat)
    requires AcceptsCommand(s, t, r, x, k)
    ensures SlotsStay(s.slots, t.slots)
  {
  }

  /** The events about r in an outbox come from r's own process, which has received its command. */
  lemma OutboxOwner(w: World, x: StreamId, r: RequestId)
    requires Inv(w) && x in w.processes && w.processes[x].outbox != [] && Concerns(w.processes[x].outbox[0], r)
    ensures r in w.sys.slots && w.sys.slots[r].0 == x && w.sys.slots[r].1 < w.processes[x].taken
    ensures C.InFlight(w.sys, r) && x in w.sys.receivers
    ensures TokenAt(w.sys, w.sys.receivers[x], w.processes[x], w.sys.slots[r].1, r)
  {
    hide C.Inv, TokenAt, ThreadsOf, Concerns;
    assert ProcessOk(w.sys, x, w.processes[x]);
    assert StartedOn(w.sys.slots, x, w.processes[x].taken, r);
    SlotIsCall(w.sys, r);
    TokenOn(w, x, r);
  }

  lemma SlotIsCall(s: C.System, r: RequestId)
    requires C.Inv(s) && r in s.slots
    ensures r in s.calls
  {
    InvParts(s);
    hide C.Inv;
  }

  /** Sending the final reply empties what is unsent; anything else about r leaves the reply. */
  lemma SendSpends(v: C.Receiver, p: Process, k: nat, r: RequestId, inbox: seq<Reply>, answered: bool)
    requires OneToken(r, Upcoming(v, p, k, r), inbox, answered) && v.Listening? && p.outbox != []
    ensures var q := p.(outbox := p.outbox[1..]);
            && (Concerns(p.outbox[0], r) && p.outbox[0].Final? ==> Unsent(q, k, r) == [])
            && (Unsent(p, k, r) == [] ==> Unsent(q, k, r) == [] && !Concerns(p.outbox[0], r))
  {
    var q := p.(outbox := p.outbox[1..]);
    AboutCons(p.outbox, r);
    assert Unsent(p, k, r) == OneAbout(p.outbox[0], r) + Unsent(q, k, r);
    assert Upcoming(v, p, k, r) == Unsent(p, k, r);
    if Concerns(p.outbox[0], r) && p.outbox[0].Final? {
      assert Unsent(p, k, r)[0] == p.outbox[0];
      ShapeTail(r, Unsent(p, k, r));
    }
    hide About, Rest, Concerns;
  }

  lemma SendKeepsSpent(w: World, a: Step, r: RequestId, arrived: nat)
    requires Inv(w) && Enabled(w, a) && a.Send? && Spent(w.sys.slots, w.processes, r, arrived)
    ensures Spent(Do(w, a).sys.slots, Do(w, a).processes, r, arrived + ArrivalIn(w, a, r))
  {
    hide Inv, C.Do, Unsent, Concerns, TokenAt;
    var x := a.x;
    var p := w.processes[x];
    ArriveSets(w.sys, x, p.outbox[0]);
    if Concerns(p.outbox[0], r) {
      OutboxOwner(w, x, r);
      TokenParts(w.sys, w.sys.receivers[x], p, w.sys.slots[r].1, r);
      SendSpends(w.sys.receivers[x], p, w.sys.slots[r].1, r, C.Inbox(w.sys, r), Answered(w.sys, r));
    } else if r in w.sys.slots && w.sys.slots[r].0 == x {
      OtherSendKeepsUnsent(p, w.sys.slots[r].1, r);
    }
    ArrivalConcerns(x, p.outbox[0], r);
  }

  lemma ArrivalConcerns(x: StreamId, ev: Event, r: RequestId)
    ensures C.ArrivalOf(C.Arrive(x, ev), r) == if ev.Final? && Concerns(ev, r) then 1 else 0
  {
  }

  lemma TokenParts(s: C.System, v: C.Receiver, p: Process, k: nat, r: RequestId)
    requires C.InFlight(s, r) && TokenAt(s, v, p, k, r)
    ensures OneToken(r, Upcoming(v, p, k, r), C.Inbox(s, r), Answered(s, r))
  {
    hide OneToken, Upcoming;
  }

  lemma OtherSendKeepsUnsent(p: Process, k: nat, r: RequestId)
    requires p.outbox != [] && !Concerns(p.outbox[0], r)
    ensures Unsent(p.(outbox := p.outbox[1..]), k, r) == Unsent(p, k, r)
  {
    AboutCons(p.outbox, r);
    hide About, Concerns;
  }

  lemma EmitKeepsSpent(w: World, a: Step, r: RequestId, arrived: nat)
    requires Inv(w) && Enabled(w, a) && a.Emit? && Spent(w.sys.slots, w.processes, r, arrived)
    ensures Spent(Do(w, a).sys.slots, Do(w, a).processes, r, arrived)
  {
    hide C.Inv, Unsent, Concerns, Tokens, OriginOf;
    var p := w.processes[a.x];
    if arrived == 1 && w.sys.slots[r].0 == a.x {
      assert ProcessOk(w.sys, a.x, p);
      EmitKeepsUnsent(w.sys.slots, a.x, p, a.k, w.sys.slots[r].1, r);
    }
  }

  lemma EmitKeepsUnsent(slots: C.Slots, x: StreamId, p: Process, k: nat, j: nat, r: RequestId)
    requires ThreadsOf(slots, x, p) && k in p.threads && p.threads[k].remaining != []
    requires r in slots && slots[r] == (x, j) && Unsent(p, j, r) == []
    ensures Unsent(Emitted(p, k), j, r) == []
  {
    var ev := p.threads[k].remaining[0];
    assert Concerns(ev, p.threads[k].r) && slots[p.threads[k].r] == (x, k);
    assert Rest(p, j) == [] && About(p.outbox, r) == [] by {
      assert |Unsent(p, j, r)| == |About(p.outbox, r)| + |Rest(p, j)|;
    }
    assert k != j;
    if Concerns(ev, r) {
      ConcernsOne(ev, r, p.threads[k].r);
    }
    AboutAppend(p.outbox, ev, r);
    hide About, Concerns;
  }

  lemma TakeKeepsSpent(w: World, a: Step, r: RequestId, arrived: nat)
    requires Enabled(w, a) && a.TakeCommand? && Spent(w.sys.slots, w.processes, r, arrived)
    ensures Spent(Do(w, a).sys.slots, Do(w, a).processes, r, arrived)
  {
    hide C.Enabled, LinkEvents, FriendsEvents, About;
  }

  lemma OtherKeepsSpent(w: World, a: Step, r: RequestId, arrived: nat)
    requires Inv(w) && Enabled(w, a) && (a.ControlPlane? || a.Connect?) && Spent(w.sys.slots, w.processes, r, arrived)
    ensures Spent(Do(w, a).sys.slots, Do(w, a).processes, r, arrived)
  {
    hide C.Inv, C.Do, C.Enabled, Unsent, ProcessesOk, Tokens;
    StepKeepsSlots(w.sys, if a.ControlPlane? then a.step else C.Net(Streams.Open(a.x)));
  }

  lemma StepKeepsSpent(w: World, a: Step, r: RequestId, arrived: nat)
    requires Inv(w) && Enabled(w, a) && Spent(w.sys.slots, w.processes, r, arrived)
    ensures Spent(Do(w, a).sys.slots, Do(w, a).processes, r, arrived + ArrivalIn(w, a, r))
  {
    hide Inv, Enabled, Do, Spent;
    match a {
      case Send(_) => SendKeepsSpent(w, a, r, arrived);
      case Emit(_, _) => EmitKeepsSpent(w, a, r, arrived);
      case TakeCommand(_, _, _) => TakeKeepsSpent(w, a, r, arrived);
      case ControlPlane(_) => OtherKeepsSpent(w, a, r, arrived);
      case Connect(_) => OtherKeepsSpent(w, a, r, arrived);
    }
  }

  /** The run of the control plane that a run here is. */
  ghost function Projected(w: World, steps: seq<Step>): seq<C.Step>
    decreases |steps|
  {
    if steps == [] || !Enabled(w, steps[0]) then []
    else ProjectedStep(w, steps[0]) + Projected(Do(w, steps[0]), steps[1..])
  }

  function ProjectedStep(w: World, a: Step): seq<C.Step>
    requires Enabled(w, a)
  {
    match a
    case ControlPlane(b) => [b]
    case Connect(x) => [C.Net(Streams.Open(x))]
    case Send(x) => [C.Arrive(x, w.processes[x].outbox[0])]
    case _ => []
  }

  lemma {:induction false} ProjectedRuns(w: World, steps: seq<Step>, v: World)
    requires Runs(w, steps, v)
    ensures C.Runs(w.sys, Projected(w, steps), v.sys)
    decreases |steps|
  {
    hide C.Do, C.Enabled;
    if steps != [] {
      ProjectedRuns(Do(w, steps[0]), steps[1..], v);
      var first, rest := ProjectedStep(w, steps[0]), Projected(Do(w, steps[0]), steps[1..]);
      if first != [] {
        C.RunsCons(w.sys, first[0], rest, v.sys);
        assert [first[0]] + rest == first + rest;
      } else {
        assert first + rest == rest;
      }
    }
  }

  lemma StepArrives(w: World, a: Step, rest: seq<C.Step>, r: RequestId)
    requires Enabled(w, a)
    ensures C.Arrivals(ProjectedStep(w, a) + rest, r) == ArrivalIn(w, a, r) + C.Arrivals(rest, r)
  {
    hide C.Enabled;
    var first := ProjectedStep(w, a);
    if first != [] {
      assert (first + rest)[1..] == rest;
    } else {
      assert first + rest == rest;
    }
  }

  lemma {:induction false} ArrivesOnce(w: World, steps: seq<Step>, v: World, r: RequestId, arrived: nat)
    requires Inv(w) && Runs(w, steps, v) && Spent(w.sys.slots, w.processes, r, arrived)
    ensures arrived + C.Arrivals(Projected(w, steps), r) <= 1
    decreases |steps|
  {
    hide Inv, Do, Enabled, ArrivalIn, ProjectedStep;
    if steps != [] {
      StepKeepsSpent(w, steps[0], r, arrived);
      StepKeepsInv(w, steps[0]);
      ArrivesOnce(Do(w, steps[0]), steps[1..], v, r, arrived + ArrivalIn(w, steps[0], r));
      StepArrives(w, steps[0], Projected(Do(w, steps[0]), steps[1..]), r);
    }
  }

  /** Every run here is a run of Correlation. */
  lemma ReachableInCorrelation(w: World)
    requires Reachable(w)
    ensures C.Reachable(w.sys)
  {
    hide Runs, C.Runs, Projected;
    var steps :| Runs(EMPTY, steps, w);
    ProjectedRuns(EMPTY, steps, w);
  }

  /** The premise Correlation lacks: whatever the interleaving, at most one reply for each request
      ever reaches a receive loop. */
  lemma WorkersReplyOnce(steps: seq<Step>, w: World)
    requires Runs(EMPTY, steps, w)
    ensures C.Runs(C.EMPTY, Projected(EMPTY, steps), w.sys) && C.RepliesOnce(Projected(EMPTY, steps))
  {
    hide Inv, Runs, C.Runs, Projected, Spent, C.Arrivals;
    ProjectedRuns(EMPTY, steps, w);
    EmptyInv();
    forall r
      ensures C.Arrivals(Projected(EMPTY, steps), r) <= 1
    {
      NothingSpent(r);
      ArrivesOnce(EMPTY, steps, w, r, 0);
    }
  }

  lemma NothingSpent(r: RequestId)
    ensures Spent(EMPTY.sys.slots, EMPTY.processes, r, 0)
  {
  }

  /** So delivery never blocks a receive loop. */
  lemma DeliverNeverBlocks(w: World, x: StreamId)
    requires Reachable(w)
    ensures !C.StuckDelivering(w.sys, x)
  {
    hide Runs, C.Runs, Projected, C.StuckDelivering, C.RepliesOnce;
    var steps :| Runs(EMPTY, steps, w);
    WorkersReplyOnce(steps, w);
    C.OneReplyNeverBlocks(Projected(EMPTY, steps), w.sys, x);
  }

  lemma SettledToken(s: C.System, v: C.Receiver, p: Process, k: nat, r: RequestId)
    requires C.InFlight(s, r) && TokenAt(s, v, p, k, r) && !Untouched(s, r)
    ensures InHand(v, r) == [] && About(p.outbox, r) == [] && Rest(p, k) == []
  {
    assert Upcoming(v, p, k, r) == [];
    assert |Upcoming(v, p, k, r)| == |InHand(v, r)| + |About(p.outbox, r)| + |Rest(p, k)|;
    hide OneToken;
  }

  lemma ElsewhereNothing(slots: C.Slots, x: StreamId, p: Process, v: C.Receiver, r: RequestId)
    requires OriginOf(slots, x, p, v) && ThreadsOf(slots, x, p) && r in slots && slots[r].0 != x
    ensures InHand(v, r) == [] && About(p.outbox, r) == []
    ensures forall k :: k in p.threads ==> p.threads[k].r != r
  {
    forall i | 0 <= i < |p.outbox|
      ensures !Concerns(p.outbox[i], r)
    {
      assert Concerns(p.outbox[i], r) ==> StartedOn(slots, x, p.taken, r);
    }
    AboutNothing(p.outbox, r);
    hide InHand, About, Concerns;
  }

  /** Once a call holds its answer, or its answer is in its channel, nothing about it is left
      anywhere: no receive loop is in, or about to enter, a callback for it, and no worker has
      more to say. So the prompts of a link have all been dealt with before its terminal
      callback. */
  lemma PromptsPrecedeAnswer(w: World, x: StreamId, r: RequestId)
    requires Reachable(w)
    requires C.InFlight(w.sys, r) && (Answered(w.sys, r) || C.Inbox(w.sys, r) != [])
    requires x in w.sys.receivers && x in w.processes
    ensures InHand(w.sys.receivers[x], r) == [] && About(w.processes[x].outbox, r) == []
    ensures forall k :: k in w.processes[x].threads && w.processes[x].threads[k].r == r ==> w.processes[x].threads[k].remaining == []
  {
    ReachableInv(w);
    var p := w.processes[x];
    assert Token(w, r);
    assert ProcessOk(w.sys, x, p);
    hide Inv, Reachable;
    if w.sys.slots[r].0 == x {
      TokenOn(w, x, r);
      SettledToken(w.sys, w.sys.receivers[x], p, w.sys.slots[r].1, r);
    } else {
      ElsewhereNothing(w.sys.slots, x, p, w.sys.receivers[x], r);
    }
    hide TokenAt, InHand, About, OriginOf;
  }

  lemma AnswerStays(s: C.System, b: C.Step, r: RequestId)
    requires s.phases.Keys == s.calls.Keys && C.Enabled(s, b) && Answered(s, r)
    ensures Answered(C.Do(s, b), r)
  {
    hide C.Enabled, C.Do;
    if C.Mover(b).None? {
      C.OthersMoveNoPhase(s, b);
    } else {
      C.MoverMovesItsPhase(s, b);
      if C.Mover(b).value in s.calls {
        C.MovesOnlyUnfinished(s, b);
      }
      if b.Remove? {
        PhaseStepFrame(s, b);
      }
    }
  }

  lemma NoCallbackFor(s: C.System, b: C.Step, x: StreamId, r: RequestId)
    requires C.Enabled(s, b) && x in s.receivers && InHand(s.receivers[x], r) == []
    ensures C.Completed(C.Do(s, b).callbacks, x, r) == C.Completed(s.callbacks, x, r)
    ensures x in C.Do(s, b).receivers
  {
    if b.CallbackReturns? {
      var v := s.receivers[b.x];
      C.CompletedAppend(s.callbacks, C.Callback(b.x, v.event, v.handle), x, r);
    }
    hide Streams.Do, Streams.Enabled, C.Lookup, C.AfterHandling, C.Completed;
  }

  /** The step the control plane takes, if it takes one. */
  lemma StepAfterAnswer(w: World, a: Step, x: StreamId, r: RequestId)
    requires w.sys.phases.Keys == w.sys.calls.Keys && Enabled(w, a)
    requires Answered(w.sys, r) && x in w.sys.receivers && InHand(w.sys.receivers[x], r) == []
    ensures Answered(Do(w, a).sys, r) && x in Do(w, a).sys.receivers
    ensures C.Completed(Do(w, a).sys.callbacks, x, r) == C.Completed(w.sys.callbacks, x, r)
  {
    hide C.Do, C.Enabled, C.Completed, InHand, Answered;
    match a {
      case ControlPlane(b) => AnswerStays(w.sys, b, r); NoCallbackFor(w.sys, b, x, r);
      case Connect(y) =>
        AnswerStays(w.sys, C.Net(Streams.Open(y)), r);
        NoCallbackFor(w.sys, C.Net(Streams.Open(y)), x, r);
      case Send(y) =>
        AnswerStays(w.sys, C.Arrive(y, w.processes[y].outbox[0]), r);
        NoCallbackFor(w.sys, C.Arrive(y, w.processes[y].outbox[0]), x, r);
      case _ =>
    }
  }

  /** A stream that is not open yet completes no callback. */
  lemma UnopenedCompletesNothing(w: World, a: Step, x: StreamId, r: RequestId)
    requires w.sys.phases.Keys == w.sys.calls.Keys && Enabled(w, a) && Answered(w.sys, r) && x !in w.sys.receivers
    ensures Answered(Do(w, a).sys, r) && C.Completed(Do(w, a).sys.callbacks, x, r) == C.Completed(w.sys.callbacks, x, r)
  {
    hide C.Do, C.Enabled, C.Completed, Answered;
    match a {
      case ControlPlane(b) => AnswerStays(w.sys, b, r); UnopenedStep(w.sys, b, x, r);
      case Connect(y) =>
        AnswerStays(w.sys, C.Net(Streams.Open(y)), r);
        UnopenedStep(w.sys, C.Net(Streams.Open(y)), x, r);
      case Send(y) =>
        AnswerStays(w.sys, C.Arrive(y, w.processes[y].outbox[0]), r);
        UnopenedStep(w.sys, C.Arrive(y, w.processes[y].outbox[0]), x, r);
      case _ =>
    }
  }

  lemma UnopenedStep(s: C.System, b: C.Step, x: StreamId, r: RequestId)
    requires C.Enabled(s, b) && x !in s.receivers
    ensures C.Completed(C.Do(s, b).callbacks, x, r) == C.Completed(s.callbacks, x, r)
  {
    if b.CallbackReturns? {
      var v := s.receivers[b.x];
      C.CompletedAppend(s.callbacks, C.Callback(b.x, v.event, v.handle), x, r);
    }
    hide Streams.Do, Streams.Enabled, C.Lookup, C.AfterHandling, C.Completed;
  }

  /** After a call has its answer no prompt callback for it completes any more, on any stream,
      in any continuation. */
  lemma {:induction false} NoPromptAfterAnswer(w: World, steps: seq<Step>, v: World, x: StreamId, r: RequestId)
    requires Reachable(w) && Runs(w, steps, v) && Answered(w.sys, r)
    ensures C.Completed(v.sys.callbacks, x, r) == C.Completed(w.sys.callbacks, x, r)
    decreases |steps|
  {
    if steps != [] {
      var a := steps[0];
      var u := Do(w, a);
      ReachableInv(w);
      InvParts(w.sys);
      hide Do, Enabled, InHand, Reachable;
      if x in w.sys.receivers {
        assert C.InFlight(w.sys, r) && x in w.processes;
        hide Inv;
        PromptsPrecedeAnswer(w, x, r);
        StepAfterAnswer(w, a, x, r);
      } else {
        hide Inv;
        UnopenedCompletesNothing(w, a, x, r);
      }
      ReachableStep(w, a);
      NoPromptAfterAnswer(u, steps[1..], v, x, r);
    }
  }

  lemma {:induction false} RunsSnoc(w: World, steps: seq<Step>, v: World, a: Step)
    requires Runs(w, steps, v) && Enabled(v, a)
    ensures Runs(w, steps + [a], Do(v, a))
    decreases |steps|
  {
    hide Do, Enabled;
    if steps == [] {
      assert ([] + [a])[1..] == [] && [] + [a] == [a];
    } else {
      RunsSnoc(Do(w, steps[0]), steps[1..], v, a);
      assert (steps + [a])[1..] == steps[1..] + [a];
    }
  }

  lemma ReachableStep(w: World, a: Step)
    requires Reachable(w) && Enabled(w, a)
    ensures Reachable(Do(w, a))
  {
    var steps :| Runs(EMPTY, steps, w);
    RunsSnoc(EMPTY, steps, w, a);
  }

  lemma EmptyReachable()
    ensures Reachable(EMPTY)
  {
    assert Runs(EMPTY, [], EMPTY);
  }

  // ----- Progress

  lemma ProcessPlace(w: World, x: StreamId)
    requires Inv(w) && x in w.processes
    ensures x in w.sys.net.streams && x in w.sys.receivers
  {
    hide C.Inv, Tokens, OriginOf, ThreadsOf;
    assert ProcessOk(w.sys, x, w.processes[x]);
  }

  /** A process can always receive what was sent to it, a run can always put its next event in the
      outbox, and the outbox is held up only by the receive loop at the other end. */
  lemma ProcessesGoOn(w: World, x: StreamId, k: nat, link: LinkRun, friends: FriendsRun)
    requires Reachable(w) && x in w.processes
    ensures x in w.sys.net.streams && x in w.sys.receivers
    ensures Enabled(w, TakeCommand(x, link, friends)) <==> w.processes[x].taken < |w.sys.net.streams[x].sent|
    ensures Enabled(w, Emit(x, k)) <==> Rest(w.processes[x], k) != []
    ensures w.processes[x].outbox != [] ==> (Enabled(w, Send(x)) <==> w.sys.receivers[x].Listening?)
  {
    hide Inv, Reachable;
    ReachableInv(w);
    ProcessPlace(w, x);
  }

  // ----- Ready comes first

  /** What a step brings over x. */
  function Brings(w: World, a: Step, x: StreamId): seq<Event> {
    if a == Send(x) && x in w.processes && w.processes[x].outbox != [] then [w.processes[x].outbox[0]] else []
  }

  /** The events that come over x in a run, in order. */
  ghost function Arrived(w: World, steps: seq<Step>, x: StreamId): seq<Event>
    decreases |steps|
  {
    if steps == [] || !Enabled(w, steps[0]) then [] else Brings(w, steps[0], x) + Arrived(Do(w, steps[0]), steps[1..], x)
  }

  /** What has come over x and what is in the outbox begin as every connection does. */
  predicate BeginsReady(w: World, x: StreamId, came: seq<Event>) {
    if x !in w.processes then came == []
    else
      var all := came + w.processes[x].outbox;
      |all| >= 2 && all[..2] == [Ready, StatusUpdate(SessionProtocol.WIdle)]
  }

  lemma StepBeginsReady(w: World, a: Step, x: StreamId, came: seq<Event>)
    requires Enabled(w, a) && BeginsReady(w, x, came)
    ensures BeginsReady(Do(w, a), x, came + Brings(w, a, x))
  {
    hide C.Do, C.Enabled, LinkEvents, FriendsEvents;
    if x in w.processes {
      var (p, q) := (w.processes[x], Do(w, a).processes[x]);
      if a == Send(x) {
        assert came + [p.outbox[0]] + q.outbox == came + p.outbox;
      } else {
        assert came + Brings(w, a, x) == came;
        assert p.outbox <= q.outbox;
        assert (came + q.outbox)[..2] == (came + p.outbox)[..2];
      }
    } else {
      assert came + Brings(w, a, x) == [];
      if a == Connect(x) {
        assert [] + CONNECTED.outbox == CONNECTED.outbox;
      }
    }
  }

  lemma {:induction false} RunBeginsReady(w: World, steps: seq<Step>, v: World, x: StreamId, came: seq<Event>)
    requires Runs(w, steps, v) && BeginsReady(w, x, came)
    ensures BeginsReady(v, x, came + Arrived(w, steps, x))
    decreases |steps|
  {
    hide Do, Enabled, BeginsReady, Brings;
    if steps == [] {
      assert came + [] == came;
    } else {
      StepBeginsReady(w, steps[0], x, came);
      RunBeginsReady(Do(w, steps[0]), steps[1..], v, x, came + Brings(w, steps[0], x));
      assert came + Brings(w, steps[0], x) + Arrived(Do(w, steps[0]), steps[1..], x) == came + Arrived(w, steps, x);
    }
  }

  /** In every run, the first event to come over a stream is Ready and the second the IDLE status:
      a worker registers before anything else it says is heard. */
  lemma ReadyComesFirst(steps: seq<Step>, w: World, x: StreamId)
    requires Runs(EMPTY, steps, w)
    ensures var came := Arrived(EMPTY, steps, x);
            && (came != [] ==> came[0] == Ready)
            && (|came| > 1 ==> came[1] == StatusUpdate(SessionProtocol.WIdle))
  {
    hide Runs, Arrived;
    RunBeginsReady(EMPTY, steps, w, x, []);
    var came := Arrived(EMPTY, steps, x);
    assert [] + came == came;
    if x in w.processes {
      var all := came + w.processes[x].outbox;
      assert all[0] == all[..2][0] && all[1] == all[..2][1];
    }
  }
}
