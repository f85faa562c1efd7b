/** Requests in flight over the worker streams, in every interleaving of callers, timeouts,
    receive loops and reconnects, with an arbitrary environment on the other side of the
    streams: any event may arrive on any open stream at any time, late, duplicated or made up
    (workers/friends.go, workers/link.go, workers/server.go, workers/registry.go).

    What the source does under a mutex, or as one channel operation, is one step. Reading the
    registry slot and pushing the command are two steps; so are looking up a waiter and sending
    to it or calling it. A send on a full channel is a step that is not enabled. Request ids and
    the channels and callbacks of a call are fresh. */
module Correlation {
  import opened Wrappers
  import opened Messages
  import Pending
  import Streams

  type StreamId = Streams.StreamId

  /** The buffered channel and callbacks one call created. */
  type Handle = nat

  datatype Outcome = NoWorker | Deadline | Answer(reply: Reply)

  /** What a call is about, and which callbacks it was given, fixed when it begins. */
  datatype Call = Call(command: Command, handle: Handle, onGuard: bool, onChallenge: bool)

  /** Sending holds the worker the call read from the registry. */
  datatype Phase = Added | Sending(x: StreamId) | Waiting | Returning(outcome: Outcome) | Done(outcome: Outcome)

  /** Where a receive loop is: reading, handling an event, about to send a reply on a channel it
      looked up, in a callback it looked up, on its way out, gone. */
  datatype Receiver =
    | Listening
    | Handling(event: Event)
    | Delivering(reply: Reply, handle: Handle)
    | Calling(event: Event, handle: Handle)
    | Leaving
    | Gone

  datatype Callback = Callback(x: StreamId, event: Event, handle: Handle)

  type Calls = map<RequestId, Call>
  type Phases = map<RequestId, Phase>
  type Slots = map<RequestId, (StreamId, nat)>
  type Buffers = map<Handle, seq<Reply>>
  type Receivers = map<StreamId, Receiver>
  type Relays = map<nat, (StreamId, Command)>

  /** slots and callbacks are history: the stream and position at which a call's command was
      accepted, and the callbacks that have returned. relays are guard codes on their way. */
  datatype System = System(
    net: Streams.Net,
    friends: Pending.Friends<Handle>,
    links: Pending.Links<Handle>,
    calls: Calls,
    phases: Phases,
    slots: Slots,
    buffers: Buffers,
    receivers: Receivers,
    relays: Relays,
    callbacks: seq<Callback>)

  const EMPTY := System(Streams.EMPTY, map[], Pending.EmptyLinks(), map[], map[], map[], map[], map[], map[], [])

  datatype Step =
    | Net(step: Streams.Step)
    | Arrive(x: StreamId, event: Event)
    | Handle(x: StreamId)
    | Deliver(x: StreamId)
    | CallbackReturns(x: StreamId)
    | Leave(x: StreamId)
    | EndSession(x: StreamId)
    | Begin(r: RequestId, h: Handle, command: Command, onGuard: bool, onChallenge: bool)
    | ReadSlot(r: RequestId)
    | Push(r: RequestId)
    | Expire(r: RequestId)
    | Take(r: RequestId)
    | Remove(r: RequestId)
    | RelayReads(i: nat, command: Command)
    | RelayPushes(i: nat)

  /** Steps of a stream that involve neither callers nor its receive loop. */
  predicate PlainNetStep(a: Streams.Step) {
    a.Open? || a.ContextDone? || a.PumpTakes? || a.PumpSends? || a.PumpFails? || a.PumpQuits?
  }

  predicate InFlight(s: System, r: RequestId) {
    r in s.calls && r in s.phases && s.calls[r].handle in s.buffers
  }

  function Inbox(s: System, r: RequestId): seq<Reply>
    requires InFlight(s, r)
  {
    s.buffers[s.calls[r].handle]
  }

  predicate Enabled(s: System, a: Step) {
    match a
    case Net(b) => PlainNetStep(b) && Streams.Enabled(s.net, b)
    case Arrive(x, _) => x in s.receivers && s.receivers[x].Listening?
    case Handle(x) => x in s.receivers && s.receivers[x].Handling? && Streams.Enabled(s.net, Streams.ReadyOn(x))
    case Deliver(x) =>
      && x in s.receivers && s.receivers[x].Delivering?
      && s.receivers[x].handle in s.buffers && s.buffers[s.receivers[x].handle] == []
    case CallbackReturns(x) => x in s.receivers && s.receivers[x].Calling?
    case Leave(x) => x in s.receivers && s.receivers[x].Listening?
    case EndSession(x) => x in s.receivers && s.receivers[x].Leaving? && Streams.Enabled(s.net, Streams.UnregisterOn(x))
    case Begin(r, h, command, _, _) => r !in s.calls && h !in s.buffers && IsRequest(command) && command.id == r
    case ReadSlot(r) => InFlight(s, r) && s.phases[r].Added?
    case Push(r) =>
      && InFlight(s, r) && s.phases[r].Sending?
      && Streams.Enabled(s.net, Streams.Enqueue(s.phases[r].x, s.calls[r].command))
    case Expire(r) => InFlight(s, r) && s.phases[r].Waiting?
    case Take(r) => InFlight(s, r) && s.phases[r].Waiting? && Inbox(s, r) != []
    case Remove(r) => InFlight(s, r) && s.phases[r].Returning?
    case RelayReads(i, command) => i !in s.relays && command.SubmitGuardCode?
    case RelayPushes(i) => i in s.relays && Streams.Enabled(s.net, Streams.Enqueue(s.relays[i].0, s.relays[i].1))
  }

  /** The waiter, under the table's mutex, of the event being handled. */
  function Lookup(friends: Pending.Friends<Handle>, links: Pending.Links<Handle>, ev: Event): Option<Handle> {
    match ev
    case Final(FriendsReply(r, _)) => if r in friends then Some(friends[r]) else None
    case Final(LinkReply(r, _)) => if r in links.chans then Some(links.chans[r]) else None
    case Guard(r, _) => if r in links.guards then Some(links.guards[r]) else None
    case Challenge(r, _) => if r in links.challenges then Some(links.challenges[r]) else None
    case Ready => None
    case StatusUpdate(_) => None
  }

  function AfterHandling(friends: Pending.Friends<Handle>, links: Pending.Links<Handle>, ev: Event): Receiver {
    match Lookup(friends, links, ev)
    case None => Listening
    case Some(h) => if ev.Final? then Delivering(ev.reply, h) else Calling(ev, h)
  }

  /** The receive loop's turn: register on Ready, look up the waiter on a reply or prompt. */
  function HandleEvent(s: System, x: StreamId): System
    requires x in s.receivers && s.receivers[x].Handling? && Streams.Enabled(s.net, Streams.ReadyOn(x))
  {
    var ev := s.receivers[x].event;
    s.(receivers := s.receivers[x := AfterHandling(s.friends, s.links, ev)],
       net := if ev.Ready? then Streams.Do(s.net, Streams.ReadyOn(x)) else s.net)
  }

  function DeliverReply(s: System, x: StreamId): System
    requires x in s.receivers && s.receivers[x].Delivering?
  {
    var w := s.receivers[x];
    s.(buffers := s.buffers[w.handle := [w.reply]], receivers := s.receivers[x := Listening])
  }

  function FinishCallback(s: System, x: StreamId): System
    requires x in s.receivers && s.receivers[x].Calling?
  {
    var w := s.receivers[x];
    s.(callbacks := s.callbacks + [Callback(x, w.event, w.handle)], receivers := s.receivers[x := Listening])
  }

  function BeginCall(s: System, r: RequestId, h: Handle, command: Command, onGuard: bool, onChallenge: bool): System {
    var t := s.(calls := s.calls[r := Call(command, h, onGuard, onChallenge)], phases := s.phases[r := Added], buffers := s.buffers[h := []]);
    if command.ListFriends? then t.(friends := s.friends[r := h])
    else t.(links := Pending.AddLink(s.links, r, h, if onGuard then Some(h) else None, if onChallenge then Some(h) else None))
  }

  function PushCommand(s: System, r: RequestId): System
    requires InFlight(s, r) && s.phases[r].Sending?
    requires Streams.Enabled(s.net, Streams.Enqueue(s.phases[r].x, s.calls[r].command))
  {
    var x := s.phases[r].x;
    s.(net := Streams.Do(s.net, Streams.Enqueue(x, s.calls[r].command)),
       phases := s.phases[r := Waiting],
       slots := s.slots[r := (x, |s.net.streams[x].accepted|)])
  }

  function TakeReply(s: System, r: RequestId): System
    requires InFlight(s, r) && Inbox(s, r) != []
  {
    s.(phases := s.phases[r := Returning(Answer(Inbox(s, r)[0]))],
       buffers := s.buffers[s.calls[r].handle := Inbox(s, r)[1..]])
  }

  function RemoveCall(s: System, r: RequestId): System
    requires r in s.calls && r in s.phases && s.phases[r].Returning?
  {
    var t := s.(phases := s.phases[r := Done(s.phases[r].outcome)]);
    if s.calls[r].command.ListFriends? then t.(friends := s.friends - {r})
    else t.(links := Pending.RemoveLink(s.links, r))
  }

  function SlotRead(s: System): Phase {
    if s.net.current.None? then Returning(NoWorker) else Sending(s.net.current.value)
  }

  function Do(s: System, a: Step): System
    requires Enabled(s, a)
  {
    match a
    case Net(b) =>
      s.(net := Streams.Do(s.net, b), receivers := if b.Open? then s.receivers[b.x := Listening] else s.receivers)
    case Arrive(x, ev) => s.(receivers := s.receivers[x := Handling(ev)])
    case Handle(x) => HandleEvent(s, x)
    case Deliver(x) => DeliverReply(s, x)
    case CallbackReturns(x) => FinishCallback(s, x)
    case Leave(x) => s.(receivers := s.receivers[x := Leaving])
    case EndSession(x) =>
      s.(net := Streams.Do(s.net, Streams.UnregisterOn(x)), receivers := s.receivers[x := Gone])
    case Begin(r, h, command, onGuard, onChallenge) => BeginCall(s, r, h, command, onGuard, onChallenge)
    case ReadSlot(r) => s.(phases := s.phases[r := SlotRead(s)])
    case Push(r) => PushCommand(s, r)
    case Expire(r) => s.(phases := s.phases[r := Returning(Deadline)])
    case Take(r) => TakeReply(s, r)
    case Remove(r) => RemoveCall(s, r)
    case RelayReads(i, command) =>
      if s.net.current.None? then s else s.(relays := s.relays[i := (s.net.current.value, command)])
    case RelayPushes(i) =>
      s.(net := Streams.Do(s.net, Streams.Enqueue(s.relays[i].0, s.relays[i].1)), relays := s.relays - {i})
  }

  ghost predicate Runs(s: System, steps: seq<Step>, t: System)
    decreases |steps|
  {
    if steps == [] then s == t
    else Enabled(s, steps[0]) && Runs(Do(s, steps[0]), steps[1..], t)
  }

  ghost predicate Reachable(s: System) {
    exists steps :: Runs(EMPTY, steps, s)
  }

  // ----- The invariant, one conjunct per part of the state

  /** The call is between add and remove. */
  predicate Active(phases: Phases, r: RequestId) {
    r in phases && !phases[r].Done?
  }

  /** A reply that answers the call made under r. */
  predicate Answers(calls: Calls, r: RequestId, reply: Reply) {
    && r in calls && reply.requestId == r
    && (reply.FriendsReply? <==> calls[r].command.ListFriends?)
  }

  ghost predicate PhasesMatch(calls: Calls, phases: Phases, slots: Slots) {
    && phases.Keys == calls.Keys && slots.Keys <= calls.Keys
    && (forall r :: r in phases && (phases[r].Added? || phases[r].Sending?) ==> r !in slots)
  }

  /** The friends table holds exactly the friends calls between add and remove. */
  ghost predicate FriendsTable(friends: Pending.Friends<Handle>, calls: Calls, phases: Phases) {
    && (forall r :: r in friends <==> r in calls && Active(phases, r) && calls[r].command.ListFriends?)
    && (forall r :: r in friends ==> friends[r] == calls[r].handle)
  }

  /** The link table holds exactly the link calls between add and remove, with the callbacks each
      was given. */
  ghost predicate LinksTable(links: Pending.Links<Handle>, calls: Calls, phases: Phases) {
    && (forall r :: r in links.chans <==> r in calls && Active(phases, r) && calls[r].command.LinkAccount?)
    && (forall r :: r in links.chans ==> links.chans[r] == calls[r].handle)
    && (forall r :: r in links.guards <==> r in links.chans && calls[r].onGuard)
    && (forall r :: r in links.guards ==> links.guards[r] == calls[r].handle)
    && (forall r :: r in links.challenges <==> r in links.chans && calls[r].onChallenge)
    && (forall r :: r in links.challenges ==> links.challenges[r] == calls[r].handle)
  }

  /** No two calls share a channel. */
  ghost predicate HandlesOwned(calls: Calls, buffers: Buffers) {
    && (forall r :: r in calls ==> calls[r].command.id == r && IsRequest(calls[r].command) && calls[r].handle in buffers)
    && (forall r, q :: r in calls && q in calls && r != q ==> calls[r].handle != calls[q].handle)
  }

  /** A call's channel only ever holds a reply to that call, one at most. */
  ghost predicate BuffersAnswer(calls: Calls, buffers: Buffers) {
    forall r :: r in calls && calls[r].handle in buffers ==>
      |buffers[calls[r].handle]| <= 1 && forall reply :: reply in buffers[calls[r].handle] ==> Answers(calls, r, reply)
  }

  /** What a receive loop holds after its lookup belongs to the call the event names. */
  ghost predicate HoldsOwn(calls: Calls, w: Receiver) {
    && (w.Delivering? ==> Answers(calls, w.reply.requestId, w.reply) && calls[w.reply.requestId].handle == w.handle)
    && (w.Calling? ==> CallsOwn(calls, w.event, w.handle))
  }

  ghost predicate CallsOwn(calls: Calls, ev: Event, h: Handle) {
    IsInterim(ev) && ev.id in calls && calls[ev.id].handle == h && calls[ev.id].command.LinkAccount?
  }

  ghost predicate ReceiversHoldOwn(calls: Calls, receivers: Receivers) {
    forall x :: x in receivers ==> HoldsOwn(calls, receivers[x])
  }

  /** The reply a call has returned or is about to return. */
  function AnswerOf(p: Phase): Option<Reply> {
    if (p.Returning? || p.Done?) && p.outcome.Answer? then Some(p.outcome.reply) else None
  }

  ghost predicate OutcomesAnswer(calls: Calls, phases: Phases) {
    forall r :: r in phases && AnswerOf(phases[r]).Some? ==> Answers(calls, r, AnswerOf(phases[r]).value)
  }

  ghost predicate CallbacksOwn(calls: Calls, callbacks: seq<Callback>) {
    forall i :: 0 <= i < |callbacks| ==> CallsOwn(calls, callbacks[i].event, callbacks[i].handle)
  }

  ghost predicate ReceiversMatch(net: Streams.Net, receivers: Receivers) {
    && receivers.Keys == net.streams.Keys
    && (forall x :: x in receivers ==> (receivers[x].Gone? <==> net.streams[x].ended))
  }

  ghost predicate SendersMatch(net: Streams.Net, phases: Phases, relays: Relays) {
    && (forall r :: r in phases && phases[r].Sending? ==> phases[r].x in net.streams)
    && (forall i :: i in relays ==> relays[i].0 in net.streams && relays[i].1.SubmitGuardCode?)
  }

  ghost predicate AtSlot(net: Streams.Net, slot: (StreamId, nat), c: Command) {
    slot.0 in net.streams && slot.1 < |net.streams[slot.0].accepted| && net.streams[slot.0].accepted[slot.1] == c
  }

  /** Each accepted request command sits at the slot of its own call, and only there. */
  ghost predicate SlotsMatch(net: Streams.Net, calls: Calls, slots: Slots) {
    && (forall r :: r in slots ==> r in calls && AtSlot(net, slots[r], calls[r].command))
    && (forall x, k :: x in net.streams && 0 <= k < |net.streams[x].accepted| && IsRequest(net.streams[x].accepted[k]) ==>
          net.streams[x].accepted[k].id in slots && slots[net.streams[x].accepted[k].id] == (x, k))
  }

  ghost predicate Inv(s: System) {
    && Streams.Inv(s.net)
    && PhasesMatch(s.calls, s.phases, s.slots)
    && FriendsTable(s.friends, s.calls, s.phases)
    && LinksTable(s.links, s.calls, s.phases)
    && HandlesOwned(s.calls, s.buffers)
    && BuffersAnswer(s.calls, s.buffers)
    && ReceiversHoldOwn(s.calls, s.receivers)
    && OutcomesAnswer(s.calls, s.phases)
    && CallbacksOwn(s.calls, s.callbacks)
    && ReceiversMatch(s.net, s.receivers)
    && SendersMatch(s.net, s.phases, s.relays)
    && SlotsMatch(s.net, s.calls, s.slots)
  }

  // ----- Each part under the changes that reach it

  lemma NewCallKeepsHolders(s: System, r: RequestId, call: Call)
    requires r !in s.calls && ReceiversHoldOwn(s.calls, s.receivers) && CallbacksOwn(s.calls, s.callbacks)
    ensures ReceiversHoldOwn(s.calls[r := call], s.receivers) && CallbacksOwn(s.calls[r := call], s.callbacks)
  {
    assert forall ev, h :: CallsOwn(s.calls, ev, h) ==> CallsOwn(s.calls[r := call], ev, h);
    assert forall q, reply :: Answers(s.calls, q, reply) ==> Answers(s.calls[r := call], q, reply) && q != r;
    hide CallsOwn, Answers;
  }

  lemma NewCallKeepsOutcomes(calls: Calls, phases: Phases, r: RequestId, call: Call)
    requires r !in calls && OutcomesAnswer(calls, phases)
    ensures OutcomesAnswer(calls[r := call], phases[r := Added])
  {
    assert forall q, reply :: Answers(calls, q, reply) ==> Answers(calls[r := call], q, reply) && q != r;
    hide Answers;
  }

  lemma NewCallKeepsSlots(net: Streams.Net, calls: Calls, slots: Slots, r: RequestId, call: Call)
    requires r !in calls && SlotsMatch(net, calls, slots)
    ensures SlotsMatch(net, calls[r := call], slots)
  {
    hide AtSlot;
  }

  lemma NewCallKeepsParts(s: System, r: RequestId, h: Handle, command: Command, onGuard: bool, onChallenge: bool)
    requires PhasesMatch(s.calls, s.phases, s.slots) && HandlesOwned(s.calls, s.buffers)
    requires SendersMatch(s.net, s.phases, s.relays)
    requires r !in s.calls && h !in s.buffers && IsRequest(command) && command.id == r
    ensures PhasesMatch(s.calls[r := Call(command, h, onGuard, onChallenge)], s.phases[r := Added], s.slots)
    ensures HandlesOwned(s.calls[r := Call(command, h, onGuard, onChallenge)], s.buffers[h := []])
    ensures SendersMatch(s.net, s.phases[r := Added], s.relays)
  {
  }

  lemma NewCallKeepsBuffers(calls: Calls, buffers: Buffers, r: RequestId, h: Handle, command: Command,
                            onGuard: bool, onChallenge: bool)
    requires HandlesOwned(calls, buffers) && BuffersAnswer(calls, buffers)
    requires r !in calls && h !in buffers
    ensures BuffersAnswer(calls[r := Call(command, h, onGuard, onChallenge)], buffers[h := []])
  {
    var calls' := calls[r := Call(command, h, onGuard, onChallenge)];
    forall q, reply | q in calls' && calls'[q].handle in buffers[h := []] && reply in buffers[h := []][calls'[q].handle]
      ensures Answers(calls', q, reply)
    {
      assert Answers(calls, q, reply);
    }
  }

  lemma NewCallKeepsFriends(friends: Pending.Friends<Handle>, calls: Calls, phases: Phases, r: RequestId, h: Handle, command: Command,
                            onGuard: bool, onChallenge: bool)
    requires FriendsTable(friends, calls, phases) && r !in calls
    ensures FriendsTable(if command.ListFriends? then friends[r := h] else friends,
                         calls[r := Call(command, h, onGuard, onChallenge)], phases[r := Added])
  {
  }

  lemma NewCallKeepsLinks(links: Pending.Links<Handle>, calls: Calls, phases: Phases, r: RequestId, h: Handle, command: Command,
                          onGuard: bool, onChallenge: bool)
    requires LinksTable(links, calls, phases) && r !in calls && IsRequest(command)
    ensures var links' := if command.ListFriends? then links
                          else Pending.AddLink(links, r, h, if onGuard then Some(h) else None, if onChallenge then Some(h) else None);
            LinksTable(links', calls[r := Call(command, h, onGuard, onChallenge)], phases[r := Added])
  {
  }

  lemma BeginKeepsInv(s: System, a: Step)
    requires Inv(s) && Enabled(s, a) && a.Begin?
    ensures Inv(Do(s, a))
  {
    hide Streams.Inv, PhasesMatch, FriendsTable, LinksTable, HandlesOwned, BuffersAnswer, ReceiversHoldOwn,
         OutcomesAnswer, CallbacksOwn, ReceiversMatch, SendersMatch, SlotsMatch;
    NewCallKeepsParts(s, a.r, a.h, a.command, a.onGuard, a.onChallenge);
    NewCallKeepsHolders(s, a.r, Call(a.command, a.h, a.onGuard, a.onChallenge));
    NewCallKeepsOutcomes(s.calls, s.phases, a.r, Call(a.command, a.h, a.onGuard, a.onChallenge));
    NewCallKeepsSlots(s.net, s.calls, s.slots, a.r, Call(a.command, a.h, a.onGuard, a.onChallenge));
    NewCallKeepsBuffers(s.calls, s.buffers, a.r, a.h, a.command, a.onGuard, a.onChallenge);
    NewCallKeepsFriends(s.friends, s.calls, s.phases, a.r, a.h, a.command, a.onGuard, a.onChallenge);
    NewCallKeepsLinks(s.links, s.calls, s.phases, a.r, a.h, a.command, a.onGuard, a.onChallenge);
  }

  /** Moving one call to another phase without leaving the table. */
  lemma PhaseKeepsParts(s: System, r: RequestId, p: Phase)
    requires PhasesMatch(s.calls, s.phases, s.slots) && FriendsTable(s.friends, s.calls, s.phases)
    requires LinksTable(s.links, s.calls, s.phases) && OutcomesAnswer(s.calls, s.phases)
    requires SendersMatch(s.net, s.phases, s.relays)
    requires r in s.phases && Active(s.phases, r) && !p.Done? && !p.Added?
    requires p.Sending? ==> p.x in s.net.streams && r !in s.slots
    requires AnswerOf(p).Some? ==> Answers(s.calls, r, AnswerOf(p).value)
    ensures var phases := s.phases[r := p];
            && PhasesMatch(s.calls, phases, s.slots)
            && FriendsTable(s.friends, s.calls, phases) && LinksTable(s.links, s.calls, phases)
            && OutcomesAnswer(s.calls, phases) && SendersMatch(s.net, phases, s.relays)
  {
    var phases := s.phases[r := p];
    assert forall q :: Active(phases, q) <==> Active(s.phases, q);
  }

  lemma CurrentIsOpen(s: System)
    requires Streams.Inv(s.net)
    ensures s.net.current.Some? ==> s.net.current.value in s.net.streams && !s.net.streams[s.net.current.value].ended
  {
  }

  lemma NotPushedYet(s: System, r: RequestId)
    requires PhasesMatch(s.calls, s.phases, s.slots) && r in s.phases && (s.phases[r].Added? || s.phases[r].Sending?)
    ensures r !in s.slots
  {
  }

  lemma ReadSlotMoves(s: System, r: RequestId)
    requires Enabled(s, ReadSlot(r))
    ensures Do(s, ReadSlot(r)) == s.(phases := s.phases[r := SlotRead(s)]) && Active(s.phases, r) && s.phases[r].Added?
  {
    hide Streams.Enabled;
  }

  lemma ReadSlotKeepsInv(s: System, a: Step)
    requires Inv(s) && Enabled(s, a) && a.ReadSlot?
    ensures Inv(Do(s, a))
  {
    hide Enabled, Do, Streams.Inv, PhasesMatch, FriendsTable, LinksTable, HandlesOwned, BuffersAnswer, ReceiversHoldOwn,
         OutcomesAnswer, CallbacksOwn, ReceiversMatch, SendersMatch, SlotsMatch;
    ReadSlotMoves(s, a.r);
    CurrentIsOpen(s);
    NotPushedYet(s, a.r);
    PhaseKeepsParts(s, a.r, SlotRead(s));
  }

  lemma ExpireKeepsInv(s: System, a: Step)
    requires Inv(s) && Enabled(s, a) && a.Expire?
    ensures Inv(Do(s, a))
  {
    hide Streams.Inv, PhasesMatch, FriendsTable, LinksTable, HandlesOwned, BuffersAnswer, ReceiversHoldOwn,
         OutcomesAnswer, CallbacksOwn, ReceiversMatch, SendersMatch, SlotsMatch;
    PhaseKeepsParts(s, a.r, Returning(Deadline));
  }

  /** Changing the content of one call's own channel to replies that answer it. */
  lemma BufferKeepsParts(calls: Calls, buffers: Buffers, r: RequestId, content: seq<Reply>)
    requires HandlesOwned(calls, buffers) && BuffersAnswer(calls, buffers)
    requires r in calls && |content| <= 1 && forall reply :: reply in content ==> Answers(calls, r, reply)
    ensures var buffers' := buffers[calls[r].handle := content];
            HandlesOwned(calls, buffers') && BuffersAnswer(calls, buffers')
  {
    var buffers' := buffers[calls[r].handle := content];
    forall q | q in calls && q != r
      ensures buffers'[calls[q].handle] == buffers[calls[q].handle]
    {
    }
  }

  lemma TakenReplyAnswers(s: System, r: RequestId)
    requires BuffersAnswer(s.calls, s.buffers) && InFlight(s, r) && Inbox(s, r) != []
    ensures Answers(s.calls, r, Inbox(s, r)[0]) && Inbox(s, r)[1..] == []
  {
    assert Inbox(s, r)[0] in Inbox(s, r);
  }

  lemma TakeKeepsInv(s: System, a: Step)
    requires Inv(s) && Enabled(s, a) && a.Take?
    ensures Inv(Do(s, a))
  {
    TakenReplyAnswers(s, a.r);
    hide Streams.Inv, PhasesMatch, FriendsTable, LinksTable, HandlesOwned, BuffersAnswer, ReceiversHoldOwn,
         OutcomesAnswer, CallbacksOwn, ReceiversMatch, SendersMatch, SlotsMatch;
    BufferKeepsParts(s.calls, s.buffers, a.r, Inbox(s, a.r)[1..]);
    PhaseKeepsParts(s, a.r, Returning(Answer(Inbox(s, a.r)[0])));
  }

  lemma RemoveKeepsFriends(friends: Pending.Friends<Handle>, calls: Calls, phases: Phases, r: RequestId, p: Phase)
    requires FriendsTable(friends, calls, phases) && r in calls && r in phases && p.Done?
    ensures FriendsTable(if calls[r].command.ListFriends? then friends - {r} else friends, calls, phases[r := p])
  {
  }

  lemma RemoveKeepsLinks(links: Pending.Links<Handle>, calls: Calls, phases: Phases, r: RequestId, p: Phase)
    requires LinksTable(links, calls, phases) && r in calls && r in phases && IsRequest(calls[r].command) && p.Done?
    ensures LinksTable(if calls[r].command.ListFriends? then links else Pending.RemoveLink(links, r), calls, phases[r := p])
  {
  }

  lemma RemoveKeepsParts(s: System, r: RequestId)
    requires PhasesMatch(s.calls, s.phases, s.slots) && OutcomesAnswer(s.calls, s.phases)
    requires SendersMatch(s.net, s.phases, s.relays) && HandlesOwned(s.calls, s.buffers)
    requires r in s.phases && s.phases[r].Returning?
    ensures var phases := s.phases[r := Done(s.phases[r].outcome)];
            PhasesMatch(s.calls, phases, s.slots) && OutcomesAnswer(s.calls, phases) && SendersMatch(s.net, phases, s.relays)
    ensures r in s.calls && IsRequest(s.calls[r].command)
  {
    var p := Done(s.phases[r].outcome);
    assert AnswerOf(p) == AnswerOf(s.phases[r]);
  }

  lemma RemoveKeepsInv(s: System, a: Step)
    requires Inv(s) && Enabled(s, a) && a.Remove?
    ensures Inv(Do(s, a))
  {
    hide Streams.Inv, PhasesMatch, FriendsTable, LinksTable, HandlesOwned, BuffersAnswer, ReceiversHoldOwn,
         OutcomesAnswer, CallbacksOwn, ReceiversMatch, SendersMatch, SlotsMatch;
    var p := Done(s.phases[a.r].outcome);
    RemoveKeepsParts(s, a.r);
    RemoveKeepsFriends(s.friends, s.calls, s.phases, a.r, p);
    RemoveKeepsLinks(s.links, s.calls, s.phases, a.r, p);
  }

  /** Moving one receive loop. */
  lemma ReceiverKeepsParts(s: System, x: StreamId, w: Receiver)
    requires ReceiversHoldOwn(s.calls, s.receivers) && ReceiversMatch(s.net, s.receivers)
    requires x in s.receivers && !s.receivers[x].Gone? && !w.Gone? && HoldsOwn(s.calls, w)
    ensures ReceiversHoldOwn(s.calls, s.receivers[x := w]) && ReceiversMatch(s.net, s.receivers[x := w])
  {
  }

  lemma ArriveKeepsInv(s: System, a: Step)
    requires Inv(s) && Enabled(s, a) && (a.Arrive? || a.Leave?)
    ensures Inv(Do(s, a))
  {
    hide Streams.Inv, PhasesMatch, FriendsTable, LinksTable, HandlesOwned, BuffersAnswer, ReceiversHoldOwn,
         OutcomesAnswer, CallbacksOwn, ReceiversMatch, SendersMatch, SlotsMatch;
    ReceiverKeepsParts(s, a.x, if a.Arrive? then Handling(a.event) else Leaving);
  }

  lemma LookupFindsOwn(s: System, ev: Event)
    requires FriendsTable(s.friends, s.calls, s.phases) && LinksTable(s.links, s.calls, s.phases)
    ensures HoldsOwn(s.calls, AfterHandling(s.friends, s.links, ev))
  {
  }

  lemma ReadyKeepsParts(s: System, x: StreamId)
    requires ReceiversMatch(s.net, s.receivers) && SendersMatch(s.net, s.phases, s.relays) && SlotsMatch(s.net, s.calls, s.slots)
    requires Streams.Inv(s.net) && Streams.Enabled(s.net, Streams.ReadyOn(x))
    ensures var net := Streams.Do(s.net, Streams.ReadyOn(x));
            && Streams.Inv(net) && ReceiversMatch(net, s.receivers)
            && SendersMatch(net, s.phases, s.relays) && SlotsMatch(net, s.calls, s.slots)
  {
    Streams.StepKeepsInv(s.net, Streams.ReadyOn(x));
    hide Streams.Inv;
    assert Streams.Do(s.net, Streams.ReadyOn(x)).streams == s.net.streams;
  }

  lemma HandleKeepsInv(s: System, a: Step)
    requires Inv(s) && Enabled(s, a) && a.Handle?
    ensures Inv(Do(s, a))
  {
    hide Streams.Inv, Streams.Do, PhasesMatch, FriendsTable, LinksTable, HandlesOwned, BuffersAnswer, ReceiversHoldOwn,
         OutcomesAnswer, CallbacksOwn, ReceiversMatch, SendersMatch, SlotsMatch;
    var ev := s.receivers[a.x].event;
    ReadyKeepsParts(s, a.x);
    LookupFindsOwn(s, ev);
    var t := if ev.Ready? then s.(net := Streams.Do(s.net, Streams.ReadyOn(a.x))) else s;
    ReceiverKeepsParts(t, a.x, AfterHandling(s.friends, s.links, ev));
  }

  lemma DeliverKeepsInv(s: System, a: Step)
    requires Inv(s) && Enabled(s, a) && a.Deliver?
    ensures Inv(Do(s, a))
  {
    var w := s.receivers[a.x];
    assert HoldsOwn(s.calls, w);
    hide Streams.Inv, PhasesMatch, FriendsTable, LinksTable, HandlesOwned, BuffersAnswer, ReceiversHoldOwn,
         OutcomesAnswer, CallbacksOwn, ReceiversMatch, SendersMatch, SlotsMatch;
    BufferKeepsParts(s.calls, s.buffers, w.reply.requestId, [w.reply]);
    ReceiverKeepsParts(s, a.x, Listening);
  }

  lemma CallbackReturnsKeepsInv(s: System, a: Step)
    requires Inv(s) && Enabled(s, a) && a.CallbackReturns?
    ensures Inv(Do(s, a))
  {
    var w := s.receivers[a.x];
    assert HoldsOwn(s.calls, w);
    assert CallbacksOwn(s.calls, s.callbacks + [Callback(a.x, w.event, w.handle)]);
    hide Streams.Inv, PhasesMatch, FriendsTable, LinksTable, HandlesOwned, BuffersAnswer, ReceiversHoldOwn,
         OutcomesAnswer, CallbacksOwn, ReceiversMatch, SendersMatch, SlotsMatch;
    ReceiverKeepsParts(s, a.x, Listening);
  }

  /** Steps of the net that accept no command. */
  lemma NetKeepsParts(s: System, b: Streams.Step)
    requires SendersMatch(s.net, s.phases, s.relays) && SlotsMatch(s.net, s.calls, s.slots)
    requires Streams.Enabled(s.net, b) && !b.Enqueue?
    ensures SendersMatch(Streams.Do(s.net, b), s.phases, s.relays) && SlotsMatch(Streams.Do(s.net, b), s.calls, s.slots)
  {
    var net := Streams.Do(s.net, b);
    forall y | y in s.net.streams
      ensures y in net.streams && net.streams[y].accepted == s.net.streams[y].accepted
    {
    }
    assert b.Open? ==> net.streams[b.x].accepted == [];
  }

  /** Which streams a step of the net opens or ends. */
  lemma NetStepStreams(n: Streams.Net, b: Streams.Step)
    requires Streams.Enabled(n, b)
    ensures var m := Streams.Do(n, b);
            && m.streams.Keys == n.streams.Keys + {b.x} && (b.Open? <==> b.x !in n.streams)
            && (b.Open? ==> !m.streams[b.x].ended)
            && forall y :: y in n.streams ==> (m.streams[y].ended <==> n.streams[y].ended || (b.UnregisterOn? && y == b.x))
  {
  }

  lemma NetKeepsReceivers(s: System, b: Streams.Step)
    requires ReceiversMatch(s.net, s.receivers) && ReceiversHoldOwn(s.calls, s.receivers)
    requires Streams.Enabled(s.net, b)
    ensures PlainNetStep(b) ==>
              var receivers := if b.Open? then s.receivers[b.x := Listening] else s.receivers;
              ReceiversMatch(Streams.Do(s.net, b), receivers) && ReceiversHoldOwn(s.calls, receivers)
    ensures b.UnregisterOn? ==>
              ReceiversMatch(Streams.Do(s.net, b), s.receivers[b.x := Gone]) && ReceiversHoldOwn(s.calls, s.receivers[b.x := Gone])
    ensures b.Enqueue? ==> ReceiversMatch(Streams.Do(s.net, b), s.receivers)
  {
    NetStepStreams(s.net, b);
    hide Streams.Do, Streams.Enabled;
  }

  lemma NetKeepsInv(s: System, a: Step)
    requires Inv(s) && Enabled(s, a) && (a.Net? || a.EndSession?)
    ensures Inv(Do(s, a))
  {
    hide Streams.Inv, Streams.Do, PhasesMatch, FriendsTable, LinksTable, HandlesOwned, BuffersAnswer, ReceiversHoldOwn,
         OutcomesAnswer, CallbacksOwn, ReceiversMatch, SendersMatch, SlotsMatch;
    var b := if a.Net? then a.step else Streams.UnregisterOn(a.x);
    Streams.StepKeepsInv(s.net, b);
    NetKeepsParts(s, b);
    NetKeepsReceivers(s, b);
  }

  lemma EnqueueKeepsSenders(s: System, b: Streams.Step)
    requires SendersMatch(s.net, s.phases, s.relays) && Streams.Enabled(s.net, b) && b.Enqueue?
    ensures SendersMatch(Streams.Do(s.net, b), s.phases, s.relays)
  {
    assert Streams.Do(s.net, b).streams.Keys == s.net.streams.Keys;
  }

  /** An accepted request command gets the next slot of its stream; a relayed guard code moves
      nothing. */
  lemma EnqueueKeepsSlots(s: System, b: Streams.Step, r: RequestId)
    requires SlotsMatch(s.net, s.calls, s.slots) && Streams.Enabled(s.net, b) && b.Enqueue?
    requires IsRequest(b.command) ==> r in s.calls && r !in s.slots && s.calls[r].command == b.command && b.command.id == r
    ensures SlotsMatch(Streams.Do(s.net, b), s.calls,
                       if IsRequest(b.command) then s.slots[r := (b.x, |s.net.streams[b.x].accepted|)] else s.slots)
  {
    var net := Streams.Do(s.net, b);
    var slots := if IsRequest(b.command) then s.slots[r := (b.x, |s.net.streams[b.x].accepted|)] else s.slots;
    forall q | q in slots
      ensures q in s.calls && AtSlot(net, slots[q], s.calls[q].command)
    {
      if q in s.slots && (q != r || !IsRequest(b.command)) {
        assert AtSlot(s.net, s.slots[q], s.calls[q].command);
      }
    }
    forall y, k | y in net.streams && 0 <= k < |net.streams[y].accepted| && IsRequest(net.streams[y].accepted[k])
      ensures net.streams[y].accepted[k].id in slots && slots[net.streams[y].accepted[k].id] == (y, k)
    {
      if y != b.x || k < |s.net.streams[y].accepted| {
        assert s.net.streams[y].accepted[k] == net.streams[y].accepted[k];
      }
    }
  }

  lemma PushKeepsPhases(s: System, r: RequestId, slot: (StreamId, nat))
    requires PhasesMatch(s.calls, s.phases[r := Waiting], s.slots) && r in s.calls
    ensures PhasesMatch(s.calls, s.phases[r := Waiting], s.slots[r := slot])
  {
  }

  lemma OwnCommand(s: System, r: RequestId)
    requires HandlesOwned(s.calls, s.buffers) && r in s.calls
    ensures IsRequest(s.calls[r].command) && s.calls[r].command.id == r
  {
  }

  lemma PushKeepsInv(s: System, a: Step)
    requires Inv(s) && Enabled(s, a) && a.Push?
    ensures Inv(Do(s, a))
  {
    hide Streams.Inv, Streams.Do, PhasesMatch, FriendsTable, LinksTable, HandlesOwned, BuffersAnswer, ReceiversHoldOwn,
         OutcomesAnswer, CallbacksOwn, ReceiversMatch, SendersMatch, SlotsMatch;
    var b := Streams.Enqueue(s.phases[a.r].x, s.calls[a.r].command);
    OwnCommand(s, a.r);
    NotPushedYet(s, a.r);
    Streams.StepKeepsInv(s.net, b);
    EnqueueKeepsSlots(s, b, a.r);
    NetKeepsReceivers(s, b);
    PhaseKeepsParts(s, a.r, Waiting);
    EnqueueKeepsSenders(s.(phases := s.phases[a.r := Waiting]), b);
    PushKeepsPhases(s, a.r, (b.x, |s.net.streams[b.x].accepted|));
  }

  lemma RelayKeepsSenders(s: System, i: nat, relays: Relays)
    requires SendersMatch(s.net, s.phases, s.relays)
    requires relays == s.relays - {i} ||
             (i in relays && relays == s.relays[i := relays[i]] && relays[i].0 in s.net.streams && relays[i].1.SubmitGuardCode?)
    ensures SendersMatch(s.net, s.phases, relays)
  {
  }

  lemma RelayIsNoRequest(s: System, i: nat)
    requires SendersMatch(s.net, s.phases, s.relays) && i in s.relays
    ensures !IsRequest(s.relays[i].1)
  {
  }

  lemma RelayKeepsInv(s: System, a: Step)
    requires Inv(s) && Enabled(s, a) && (a.RelayReads? || a.RelayPushes?)
    ensures Inv(Do(s, a))
  {
    CurrentIsOpen(s);
    hide Streams.Inv, Streams.Do, PhasesMatch, FriendsTable, LinksTable, HandlesOwned, BuffersAnswer, ReceiversHoldOwn,
         OutcomesAnswer, CallbacksOwn, ReceiversMatch, SendersMatch, SlotsMatch;
    if a.RelayReads? {
      if s.net.current.Some? {
        RelayKeepsSenders(s, a.i, Do(s, a).relays);
      }
    } else {
      var b := Streams.Enqueue(s.relays[a.i].0, s.relays[a.i].1);
      RelayIsNoRequest(s, a.i);
      Streams.StepKeepsInv(s.net, b);
      EnqueueKeepsSlots(s, b, 0);
      NetKeepsReceivers(s, b);
      RelayKeepsSenders(s, a.i, s.relays - {a.i});
      EnqueueKeepsSenders(s.(relays := s.relays - {a.i}), b);
    }
  }

  lemma StepKeepsInv(s: System, a: Step)
    requires Inv(s) && Enabled(s, a)
    ensures Inv(Do(s, a))
  {
    hide Inv, Do;
    match a {
      case Net(_) => NetKeepsInv(s, a);
      case EndSession(_) => NetKeepsInv(s, a);
      case Arrive(_, _) => ArriveKeepsInv(s, a);
      case Leave(_) => ArriveKeepsInv(s, a);
      case Handle(_) => HandleKeepsInv(s, a);
      case Deliver(_) => DeliverKeepsInv(s, a);
      case CallbackReturns(_) => CallbackReturnsKeepsInv(s, a);
      case Begin(_, _, _, _, _) => BeginKeepsInv(s, a);
      case ReadSlot(_) => ReadSlotKeepsInv(s, a);
      case Push(_) => PushKeepsInv(s, a);
      case Expire(_) => ExpireKeepsInv(s, a);
      case Take(_) => TakeKeepsInv(s, a);
      case Remove(_) => RemoveKeepsInv(s, a);
      case RelayReads(_, _) => RelayKeepsInv(s, a);
      case RelayPushes(_) => RelayKeepsInv(s, a);
    }
  }

  lemma EmptyInv()
    ensures Inv(EMPTY)
  {
  }

  lemma {:induction false} RunKeepsInv(s: System, steps: seq<Step>, t: System)
    requires Inv(s) && Runs(s, steps, t)
    ensures Inv(t)
    decreases |steps|
  {
    hide Inv, Do, Enabled;
    if steps != [] {
      StepKeepsInv(s, steps[0]);
      RunKeepsInv(Do(s, steps[0]), steps[1..], t);
    }
  }

  lemma ReachableInv(s: System)
    requires Reachable(s)
    ensures Inv(s)
  {
    var steps :| Runs(EMPTY, steps, s);
    EmptyInv();
    hide Inv;
    RunKeepsInv(EMPTY, steps, s);
  }

  // ----- What holds in every run

  /** No cross-talk. Whatever arrives, a reply returned by a call carries the call's own request
      id and is of the call's own kind; so a late reply to a call that timed out is returned by
      no other call. */
  lemma NoCrossTalk(s: System, r: RequestId, reply: Reply)
    requires Reachable(s)
    requires r in s.phases && AnswerOf(s.phases[r]) == Some(reply)
    ensures reply.requestId == r
    ensures r in s.calls && (reply.FriendsReply? <==> s.calls[r].command.ListFriends?)
    ensures forall q :: q in s.phases && AnswerOf(s.phases[q]) == Some(reply) ==> q == r
  {
    ReachableInv(s);
    forall q | q in s.phases && AnswerOf(s.phases[q]) == Some(reply)
      ensures reply.requestId == q
    {
      assert Answers(s.calls, q, AnswerOf(s.phases[q]).value);
    }
  }

  /** The tables list exactly the calls between add and remove, each under its own channel; a
      guard or QR callback fires only for the link whose request id the event carries. */
  lemma TablesListCallsInFlight(s: System)
    requires Reachable(s)
    ensures s.friends.Keys == set r | r in s.calls && Active(s.phases, r) && s.calls[r].command.ListFriends?
    ensures s.links.chans.Keys == set r | r in s.calls && Active(s.phases, r) && s.calls[r].command.LinkAccount?
    ensures forall r :: r in s.links.guards <==> r in s.links.chans && s.calls[r].onGuard
    ensures forall r :: r in s.links.challenges <==> r in s.links.chans && s.calls[r].onChallenge
    ensures forall i :: 0 <= i < |s.callbacks| ==> CallsOwn(s.calls, s.callbacks[i].event, s.callbacks[i].handle)
  {
    hide Reachable;
    ReachableInv(s);
    InvTables(s);
    hide Inv, CallsOwn;
  }

  /** A call of that kind is between its add and its remove. */
  predicate InTable(s: System, r: RequestId, friends: bool) {
    r in s.calls && Active(s.phases, r) && (if friends then s.calls[r].command.ListFriends? else s.calls[r].command.LinkAccount?)
  }

  /** Nothing is dropped on the way to whom it is for. A receive loop that handles a guard prompt
      or a challenge goes on to call that link's own callback with that very event, exactly when
      the link is in flight and was given such a callback; one that handles a final reply goes on
      to deliver it into the call's own channel, exactly when the call is in flight and of that
      kind; a Ready makes its stream the registered worker; anything else it drops. */
  lemma HandlingReaches(s: System, x: StreamId, ev: Event)
    requires Reachable(s) && x in s.receivers && s.receivers[x] == Handling(ev) && Enabled(s, Handle(x))
    ensures var next := Do(s, Handle(x)).receivers[x];
            match ev
            case Guard(r, _) =>
              next == if InTable(s, r, false) && s.calls[r].onGuard then Calling(ev, s.calls[r].handle) else Listening
            case Challenge(r, _) =>
              next == if InTable(s, r, false) && s.calls[r].onChallenge then Calling(ev, s.calls[r].handle) else Listening
            case Final(reply) =>
              next == if InTable(s, reply.requestId, reply.FriendsReply?) then Delivering(reply, s.calls[reply.requestId].handle)
                      else Listening
            case Ready => next == Listening
            case StatusUpdate(_) => next == Listening
    ensures var t := Do(s, Handle(x)); t.net.current == if ev.Ready? then Some(x) else s.net.current
  {
    hide Reachable;
    ReachableInv(s);
    InvTables(s);
    hide Inv, CallbacksOwn;
  }

  /** What each operation of a call does, and what ends it: it asks the registered worker, or gives
      up at once if there is none; its command goes behind those queued on that stream; it takes
      what is in its channel, or runs out of time while it waits; and what ended it is what it
      returns. */
  lemma CallStepsExactly(s: System, r: RequestId)
    requires r in s.phases
    ensures Enabled(s, ReadSlot(r)) ==>
              var p := Do(s, ReadSlot(r)).phases[r];
              p == if s.net.current.None? then Returning(NoWorker) else Sending(s.net.current.value)
    ensures Enabled(s, Push(r)) ==>
              var (t, x) := (Do(s, Push(r)), s.phases[r].x);
              && t.phases[r] == Waiting && t.net.streams.Keys == s.net.streams.Keys
              && t.net.streams[x].queue == s.net.streams[x].queue + [s.calls[r].command]
              && t.net.streams[x].sent == s.net.streams[x].sent
    ensures Enabled(s, Expire(r)) <==> InFlight(s, r) && s.phases[r].Waiting?
    ensures Enabled(s, Expire(r)) ==> Do(s, Expire(r)).phases[r] == Returning(Deadline)
    ensures Enabled(s, Take(r)) ==> Do(s, Take(r)).phases[r] == Returning(Answer(s.buffers[s.calls[r].handle][0]))
    ensures Enabled(s, Remove(r)) ==> Do(s, Remove(r)).phases[r] == Done(s.phases[r].outcome)
  {
    hide Pending.RemoveLink;
  }

  /** A guard code goes to the worker registered when it is submitted, behind what is queued there;
      with none registered it goes nowhere. */
  lemma RelayStepsExactly(s: System, i: nat, command: Command)
    ensures Enabled(s, RelayReads(i, command)) ==>
              Do(s, RelayReads(i, command)).relays ==
              if s.net.current.None? then s.relays else s.relays[i := (s.net.current.value, command)]
    ensures i in s.relays && Enabled(s, RelayPushes(i)) ==>
              var (t, x) := (Do(s, RelayPushes(i)), s.relays[i].0);
              && t.net.streams.Keys == s.net.streams.Keys && t.relays == s.relays - {i}
              && t.net.streams[x].queue == s.net.streams[x].queue + [s.relays[i].1]
  {
  }

  /** A session's end frees the slot exactly if it still holds that session, and its receive loop
      reads no more. */
  lemma EndFreesOwnSlot(s: System, x: StreamId)
    requires Enabled(s, Leave(x)) || Enabled(s, EndSession(x))
    ensures Enabled(s, Leave(x)) ==> Do(s, Leave(x)).receivers[x] == Leaving && Do(s, Leave(x)).net == s.net
    ensures Enabled(s, EndSession(x)) ==>
              var t := Do(s, EndSession(x));
              && t.receivers[x] == Gone && t.net.streams[x].ended
              && t.net.current == if s.net.current == Some(x) then None else s.net.current
  {
  }

  lemma InvTables(s: System)
    requires Inv(s)
    ensures FriendsTable(s.friends, s.calls, s.phases) && LinksTable(s.links, s.calls, s.phases)
    ensures CallbacksOwn(s.calls, s.callbacks)
  {
    hide Streams.Inv, PhasesMatch, FriendsTable, LinksTable, HandlesOwned, BuffersAnswer, ReceiversHoldOwn,
         OutcomesAnswer, CallbacksOwn, ReceiversMatch, SendersMatch, SlotsMatch;
  }

  /** The registry slot never names an ended session, and every stream's commands are sent in
      the order in which they were accepted; whatever the callers do. */
  lemma StreamsStayConserved(s: System, x: StreamId)
    requires Reachable(s) && x in s.net.streams
    ensures Streams.SlotIsLastReady(s.net) && Streams.Conserved(s.net.streams[x])
    ensures s.net.current == Some(x) ==> x in s.receivers && !s.receivers[x].Gone?
  {
    ReachableInv(s);
    hide FriendsTable, LinksTable, BuffersAnswer, HandlesOwned, SlotsMatch, PhasesMatch;
  }

  // ----- Stragglers

  predicate CallingFor(w: Receiver, r: RequestId) {
    w.Calling? && IsInterim(w.event) && w.event.id == r
  }

  /** 1 while the stream's receive loop is in a callback for r. */
  function InCallback(s: System, x: StreamId, r: RequestId): nat {
    if x in s.receivers && CallingFor(s.receivers[x], r) then 1 else 0
  }

  /** Callbacks for r that the stream's receive loop has completed. */
  function Completed(callbacks: seq<Callback>, x: StreamId, r: RequestId): nat
    decreases |callbacks|
  {
    if callbacks == [] then 0
    else
      var last := callbacks[|callbacks| - 1];
      (if last.x == x && IsInterim(last.event) && last.event.id == r then 1 else 0)
      + Completed(callbacks[..|callbacks| - 1], x, r)
  }

  lemma CompletedAppend(callbacks: seq<Callback>, c: Callback, x: StreamId, r: RequestId)
    ensures Completed(callbacks + [c], x, r) ==
            Completed(callbacks, x, r) + if c.x == x && IsInterim(c.event) && c.event.id == r then 1 else 0
  {
    assert (callbacks + [c])[..|callbacks|] == callbacks;
  }

  lemma DoneLookupFindsNothing(s: System, r: RequestId, ev: Event)
    requires FriendsTable(s.friends, s.calls, s.phases) && LinksTable(s.links, s.calls, s.phases)
    requires r in s.phases && s.phases[r].Done?
    ensures !CallingFor(AfterHandling(s.friends, s.links, ev), r)
    ensures Concerns(ev, r) ==> Lookup(s.friends, s.links, ev) == None
  {
  }

  /** The call whose phase a step moves. */
  function Mover(a: Step): Option<RequestId> {
    match a
    case Begin(r, _, _, _, _) => Some(r)
    case ReadSlot(r) => Some(r)
    case Push(r) => Some(r)
    case Expire(r) => Some(r)
    case Take(r) => Some(r)
    case Remove(r) => Some(r)
    case _ => None
  }

  lemma OthersMoveNoPhase(s: System, a: Step)
    requires Enabled(s, a) && Mover(a).None?
    ensures Do(s, a).phases == s.phases
  {
    hide Streams.Do, Streams.Enabled, Lookup, AfterHandling;
  }

  /** t differs from s, among what callbacks depend on, in the phase of r alone. */
  predicate MovesPhase(s: System, t: System, r: RequestId) {
    && t.receivers == s.receivers && t.callbacks == s.callbacks
    && r in t.phases && t.phases == s.phases[r := t.phases[r]]
  }

  lemma BeginMoves(s: System, r: RequestId, h: Handle, command: Command, onGuard: bool, onChallenge: bool)
    ensures MovesPhase(s, BeginCall(s, r, h, command, onGuard, onChallenge), r)
  {
    hide Pending.AddLink;
  }

  lemma RemoveMoves(s: System, r: RequestId)
    requires r in s.calls && r in s.phases && s.phases[r].Returning?
    ensures MovesPhase(s, RemoveCall(s, r), r)
  {
    hide Pending.RemoveLink;
  }

  lemma MoverMovesItsPhase(s: System, a: Step)
    requires Enabled(s, a) && Mover(a).Some?
    ensures MovesPhase(s, Do(s, a), Mover(a).value)
  {
    hide Streams.Do, Streams.Enabled, BeginCall, RemoveCall;
    match a {
      case Begin(r, h, command, onGuard, onChallenge) =>
        BeginMoves(s, r, h, command, onGuard, onChallenge);
        hide MovesPhase;
      case Remove(r) =>
        RemoveMoves(s, r);
        hide MovesPhase;
      case _ =>
    }
  }

  lemma MovesOnlyUnfinished(s: System, a: Step)
    requires Enabled(s, a) && Mover(a).Some? && Mover(a).value in s.calls
    ensures Mover(a).value in s.phases
    ensures var p := s.phases[Mover(a).value]; !p.Done? && (p.Returning? ==> a.Remove?)
  {
    hide Streams.Enabled;
  }

  lemma DoneStays(s: System, a: Step, r: RequestId)
    requires s.phases.Keys == s.calls.Keys && Enabled(s, a)
    requires r in s.phases && s.phases[r].Done?
    ensures r in Do(s, a).phases && Do(s, a).phases[r] == s.phases[r]
  {
    hide Enabled, Do, Mover;
    if Mover(a).None? {
      OthersMoveNoPhase(s, a);
    } else {
      MoverMovesItsPhase(s, a);
      if Mover(a).value in s.calls {
        MovesOnlyUnfinished(s, a);
      }
    }
  }

  /** Only a lookup can put a receive loop into a callback. */
  lemma OtherStepStartsNoCallback(s: System, a: Step, x: StreamId, r: RequestId)
    requires Enabled(s, a) && !a.Handle? && !a.CallbackReturns?
    ensures Do(s, a).callbacks == s.callbacks && InCallback(Do(s, a), x, r) <= InCallback(s, x, r)
  {
    if Mover(a).Some? {
      MoverMovesItsPhase(s, a);
      hide Do, Enabled;
    } else {
      hide Streams.Do, Streams.Enabled;
    }
  }

  lemma HandleStartsNoCallback(s: System, a: Step, x: StreamId, r: RequestId)
    requires FriendsTable(s.friends, s.calls, s.phases) && LinksTable(s.links, s.calls, s.phases)
    requires Enabled(s, a) && a.Handle? && r in s.phases && s.phases[r].Done?
    ensures Do(s, a).callbacks == s.callbacks && InCallback(Do(s, a), x, r) <= InCallback(s, x, r)
  {
    DoneLookupFindsNothing(s, r, s.receivers[a.x].event);
    hide Streams.Do, Streams.Enabled, Lookup, AfterHandling, FriendsTable, LinksTable;
  }

  lemma DoneStep(s: System, a: Step, x: StreamId, r: RequestId)
    requires Inv(s) && Enabled(s, a)
    requires r in s.phases && s.phases[r].Done?
    ensures var t := Do(s, a);
            Completed(t.callbacks, x, r) + InCallback(t, x, r) <= Completed(s.callbacks, x, r) + InCallback(s, x, r)
  {
    if a.Handle? {
      HandleStartsNoCallback(s, a, x, r);
      hide Inv, Do, Enabled, Completed;
    } else if a.CallbackReturns? {
      var w := s.receivers[a.x];
      CompletedAppend(s.callbacks, Callback(a.x, w.event, w.handle), x, r);
      hide Inv, Completed;
    } else {
      OtherStepStartsNoCallback(s, a, x, r);
      hide Inv, Do, Enabled;
    }
  }

  lemma {:induction false} DoneRun(s: System, steps: seq<Step>, t: System, x: StreamId, r: RequestId)
    requires Inv(s) && Runs(s, steps, t)
    requires r in s.phases && s.phases[r].Done?
    ensures r in t.phases && t.phases[r] == s.phases[r]
    ensures Completed(t.callbacks, x, r) + InCallback(t, x, r) <= Completed(s.callbacks, x, r) + InCallback(s, x, r)
    decreases |steps|
  {
    assert s.phases.Keys == s.calls.Keys;
    hide Inv, Do, Enabled, Completed, InCallback;
    if steps != [] {
      DoneStep(s, steps[0], x, r);
      DoneStays(s, steps[0], r);
      StepKeepsInv(s, steps[0]);
      DoneRun(Do(s, steps[0]), steps[1..], t, x, r);
    }
  }

  /** Once a call has been removed its outcome is final, and each stream completes at most one
      more callback for it: the one its receive loop had already looked up. */
  lemma AtMostOneStraggler(s: System, steps: seq<Step>, t: System, x: StreamId, r: RequestId)
    requires Reachable(s) && Runs(s, steps, t)
    requires r in s.phases && s.phases[r].Done?
    ensures r in t.phases && t.phases[r] == s.phases[r]
    ensures Completed(t.callbacks, x, r) <= Completed(s.callbacks, x, r) + InCallback(s, x, r)
  {
    ReachableInv(s);
    hide Inv;
    DoneRun(s, steps, t, x, r);
  }

  // ----- When deliver blocks

  /** The receive loop has a reply to send and the waiter's channel is full. */
  predicate StuckDelivering(s: System, x: StreamId) {
    x in s.receivers && s.receivers[x].Delivering? && !Enabled(s, Deliver(x))
  }

  predicate DeliversTo(w: Receiver, r: RequestId) {
    w.Delivering? && w.reply.requestId == r
  }

  predicate HandlesReply(w: Receiver, r: RequestId) {
    w.Handling? && w.event.Final? && w.event.reply.requestId == r
  }

  /** The receive loops that have found r's waiter and are about to send to it. */
  function DeliveringTo(receivers: Receivers, r: RequestId): set<StreamId> {
    set x | x in receivers && DeliversTo(receivers[x], r)
  }

  /** The receive loops that have read a reply for r and are about to look its waiter up. */
  function HandlingReply(receivers: Receivers, r: RequestId): set<StreamId> {
    set x | x in receivers && HandlesReply(receivers[x], r)
  }

  function InboxOf(calls: Calls, buffers: Buffers, r: RequestId): seq<Reply> {
    if r in calls && calls[r].handle in buffers then buffers[calls[r].handle] else []
  }

  /** Replies for r whose waiter was found and which r has not taken. */
  function Held(s: System, r: RequestId): nat {
    |DeliveringTo(s.receivers, r)| + |InboxOf(s.calls, s.buffers, r)|
  }

  /** 1 for a lookup that finds r's waiter for a reply. */
  function FindOf(s: System, a: Step, r: RequestId): nat {
    if a.Handle? && a.x in s.receivers && HandlesReply(s.receivers[a.x], r) && Lookup(s.friends, s.links, s.receivers[a.x].event).Some?
    then 1 else 0
  }

  function TakeOf(a: Step, r: RequestId): nat {
    if a == Take(r) then 1 else 0
  }

  function ArrivalOf(a: Step, r: RequestId): nat {
    if a.Arrive? && a.event.Final? && a.event.reply.requestId == r then 1 else 0
  }

  /** Over a run from s: lookups that found r's waiter, replies r took, replies for r that came. */
  ghost function Finds(s: System, steps: seq<Step>, r: RequestId): nat
    decreases |steps|
  {
    if steps == [] || !Enabled(s, steps[0]) then 0
    else FindOf(s, steps[0], r) + Finds(Do(s, steps[0]), steps[1..], r)
  }

  function Takes(steps: seq<Step>, r: RequestId): nat
    decreases |steps|
  {
    if steps == [] then 0 else TakeOf(steps[0], r) + Takes(steps[1..], r)
  }

  function Arrivals(steps: seq<Step>, r: RequestId): nat
    decreases |steps|
  {
    if steps == [] then 0 else ArrivalOf(steps[0], r) + Arrivals(steps[1..], r)
  }

  /** Some receive loop cannot deliver to r, or will not be able to once another one has. */
  ghost predicate Blocks(s: System, r: RequestId) {
    exists x ::
      && x in s.receivers && DeliversTo(s.receivers[x], r)
      && (StuckDelivering(s, x) || BlockedByAnother(s, x, r))
  }

  ghost predicate BlockedByAnother(s: System, x: StreamId, r: RequestId) {
    exists y ::
      && y != x && y in s.receivers && DeliversTo(s.receivers[y], r)
      && Enabled(s, Deliver(y)) && StuckDelivering(Do(s, Deliver(y)), x)
  }

  lemma SetsAfterMove(receivers: Receivers, x: StreamId, w: Receiver, r: RequestId)
    ensures DeliveringTo(receivers[x := w], r) == DeliveringTo(receivers, r) - {x} + if DeliversTo(w, r) then {x} else {}
    ensures HandlingReply(receivers[x := w], r) == HandlingReply(receivers, r) - {x} + if HandlesReply(w, r) then {x} else {}
    ensures x in DeliveringTo(receivers, r) <==> x in receivers && DeliversTo(receivers[x], r)
    ensures x in HandlingReply(receivers, r) <==> x in receivers && HandlesReply(receivers[x], r)
  {
    hide DeliversTo, HandlesReply;
  }

  lemma OwnChannel(calls: Calls, buffers: Buffers, r: RequestId, q: RequestId, content: seq<Reply>)
    requires HandlesOwned(calls, buffers) && r in calls
    ensures InboxOf(calls, buffers[calls[r].handle := content], q) == if q == r then content else InboxOf(calls, buffers, q)
  {
  }

  /** A step changes what is held for r by what it finds and what r takes. */
  ghost predicate Balanced(s: System, a: Step, r: RequestId)
    requires Enabled(s, a)
  {
    Held(Do(s, a), r) + TakeOf(a, r) == Held(s, r) + FindOf(s, a, r)
  }

  lemma DeliverBalances(s: System, a: Step, r: RequestId)
    requires Enabled(s, a) && a.Deliver? && HandlesOwned(s.calls, s.buffers) && HoldsOwn(s.calls, s.receivers[a.x])
    ensures Balanced(s, a, r)
  {
    hide HandlesOwned, DeliveringTo, InboxOf, Lookup, Streams.Enabled;
    var w := s.receivers[a.x];
    SetsAfterMove(s.receivers, a.x, Listening, r);
    OwnInboxEmpty(s.calls, s.buffers, w);
    OwnChannel(s.calls, s.buffers, w.reply.requestId, r, [w.reply]);
  }

  lemma OwnInboxEmpty(calls: Calls, buffers: Buffers, w: Receiver)
    requires w.Delivering? && HoldsOwn(calls, w) && w.handle in buffers && buffers[w.handle] == []
    ensures w.reply.requestId in calls && calls[w.reply.requestId].handle == w.handle
    ensures InboxOf(calls, buffers, w.reply.requestId) == []
  {
  }

  lemma HandleBalances(s: System, a: Step, r: RequestId)
    requires Enabled(s, a) && a.Handle?
    ensures Balanced(s, a, r)
  {
    SetsAfterMove(s.receivers, a.x, AfterHandling(s.friends, s.links, s.receivers[a.x].event), r);
    LookupKeepsEvent(s, s.receivers[a.x].event);
    hide DeliveringTo, InboxOf, Lookup, AfterHandling, Streams.Do;
  }

  lemma LookupKeepsEvent(s: System, ev: Event)
    ensures forall r :: DeliversTo(AfterHandling(s.friends, s.links, ev), r) <==>
              ev.Final? && ev.reply.requestId == r && Lookup(s.friends, s.links, ev).Some?
    ensures forall r :: !HandlesReply(AfterHandling(s.friends, s.links, ev), r)
  {
    hide Lookup;
  }

  lemma TakeBalances(s: System, a: Step, r: RequestId)
    requires Enabled(s, a) && a.Take? && HandlesOwned(s.calls, s.buffers)
    ensures Balanced(s, a, r)
  {
    OwnChannel(s.calls, s.buffers, a.r, r, Inbox(s, a.r)[1..]);
    hide HandlesOwned, DeliveringTo, Lookup;
  }

  lemma BeginBalances(s: System, a: Step, r: RequestId)
    requires Enabled(s, a) && a.Begin? && HandlesOwned(s.calls, s.buffers) && ReceiversHoldOwn(s.calls, s.receivers)
    ensures Balanced(s, a, r)
  {
    hide DeliveringTo, Do, Enabled, Lookup, HoldsOwn;
    BeginFrame(s, a);
  }

  lemma BeginFrame(s: System, a: Step)
    requires Enabled(s, a) && a.Begin?
    ensures a.r !in s.calls && a.h !in s.buffers
    ensures var t := Do(s, a);
            && t.receivers == s.receivers
            && t.calls == s.calls[a.r := Call(a.command, a.h, a.onGuard, a.onChallenge)] && t.buffers == s.buffers[a.h := []]
  {
    hide Pending.AddLink;
  }

  /** Moving a receive loop that neither handles nor delivers a reply, to a place where it does
      neither. */
  lemma OtherReceiverBalances(s: System, a: Step, r: RequestId)
    requires Enabled(s, a) && (a.Arrive? || a.CallbackReturns? || a.Leave? || a.EndSession?)
    ensures Balanced(s, a, r)
  {
    hide DeliveringTo, InboxOf, Streams.Do, Streams.Enabled, Lookup;
    SetsAfterMove(s.receivers, a.x, Do(s, a).receivers[a.x], r);
  }

  lemma NetBalances(s: System, a: Step, r: RequestId)
    requires Enabled(s, a) && a.Net? && s.receivers.Keys == s.net.streams.Keys
    ensures Balanced(s, a, r)
  {
    if a.step.Open? {
      SetsAfterMove(s.receivers, a.step.x, Listening, r);
    }
    hide DeliveringTo, InboxOf, Streams.Do, Lookup;
  }

  lemma PhaseFrame(s: System, a: Step)
    requires Enabled(s, a) && (a.ReadSlot? || a.Push? || a.Expire? || a.Remove? || a.RelayReads? || a.RelayPushes?)
    ensures var t := Do(s, a); t.receivers == s.receivers && t.calls == s.calls && t.buffers == s.buffers
  {
    hide Streams.Do, Streams.Enabled, RemoveCall;
    if a.Remove? {
      RemoveFrame(s, a.r);
    }
  }

  lemma RemoveFrame(s: System, r: RequestId)
    requires r in s.calls && r in s.phases && s.phases[r].Returning?
    ensures var t := RemoveCall(s, r); t.receivers == s.receivers && t.calls == s.calls && t.buffers == s.buffers
  {
    hide Pending.RemoveLink;
  }

  lemma PhaseBalances(s: System, a: Step, r: RequestId)
    requires Enabled(s, a) && (a.ReadSlot? || a.Push? || a.Expire? || a.Remove? || a.RelayReads? || a.RelayPushes?)
    ensures Balanced(s, a, r)
  {
    hide DeliveringTo, InboxOf, Do, Enabled, Lookup;
    PhaseFrame(s, a);
  }

  lemma InvChannels(s: System)
    requires Inv(s)
    ensures HandlesOwned(s.calls, s.buffers) && ReceiversHoldOwn(s.calls, s.receivers) && BuffersAnswer(s.calls, s.buffers)
    ensures s.receivers.Keys == s.net.streams.Keys
  {
    hide Streams.Inv, PhasesMatch, FriendsTable, LinksTable, HandlesOwned, BuffersAnswer, ReceiversHoldOwn,
         OutcomesAnswer, CallbacksOwn, SendersMatch, SlotsMatch;
  }

  lemma StepBalances(s: System, a: Step, r: RequestId)
    requires Inv(s) && Enabled(s, a)
    ensures Balanced(s, a, r)
  {
    hide Inv, Enabled, Balanced, HandlesOwned, BuffersAnswer, HoldsOwn;
    InvChannels(s);
    match a {
      case Deliver(_) => DeliverIsOwn(s, a); DeliverBalances(s, a, r);
      case Handle(_) => HandleBalances(s, a, r);
      case Take(_) => TakeBalances(s, a, r);
      case Begin(_, _, _, _, _) => BeginBalances(s, a, r);
      case Net(_) => NetBalances(s, a, r);
      case Arrive(_, _) => OtherReceiverBalances(s, a, r);
      case CallbackReturns(_) => OtherReceiverBalances(s, a, r);
      case Leave(_) => OtherReceiverBalances(s, a, r);
      case EndSession(_) => OtherReceiverBalances(s, a, r);
      case _ => PhaseBalances(s, a, r);
    }
  }

  lemma DeliverIsOwn(s: System, a: Step)
    requires Enabled(s, a) && a.Deliver? && ReceiversHoldOwn(s.calls, s.receivers)
    ensures HoldsOwn(s.calls, s.receivers[a.x])
  {
    hide HoldsOwn;
  }

  lemma {:induction false} RunBalances(s: System, steps: seq<Step>, t: System, r: RequestId)
    requires Inv(s) && Runs(s, steps, t)
    ensures Inv(t) && Held(t, r) + Takes(steps, r) == Held(s, r) + Finds(s, steps, r)
    decreases |steps|
  {
    hide Inv, Do, Enabled, Held, TakeOf, FindOf;
    if steps != [] {
      StepBalances(s, steps[0], r);
      StepKeepsInv(s, steps[0]);
      RunBalances(Do(s, steps[0]), steps[1..], t, r);
    }
  }

  lemma TwoDelivering(receivers: Receivers, r: RequestId)
    ensures |DeliveringTo(receivers, r)| >= 2 <==>
            exists x, y :: x != y && x in DeliveringTo(receivers, r) && y in DeliveringTo(receivers, r)
  {
    hide DeliversTo;
    var d := DeliveringTo(receivers, r);
    if |d| >= 2 {
      var x :| x in d;
      assert |d - {x}| == |d| - 1;
      var y :| y in d - {x};
      assert x != y && x in d && y in d;
    }
    if x, y :| x != y && x in d && y in d {
      assert {x, y} <= d;
      assert |d - {x, y}| == |d| - 2;
    }
  }

  lemma OneDelivering(receivers: Receivers, r: RequestId)
    ensures |DeliveringTo(receivers, r)| >= 1 <==> exists x :: x in DeliveringTo(receivers, r)
  {
    hide DeliversTo;
    var d := DeliveringTo(receivers, r);
    if d != {} {
      var x :| x in d;
      assert |d - {x}| == |d| - 1;
    }
  }

  /** Whether a loop is stuck is whether its waiter's channel is empty. */
  lemma StuckOnFullChannel(s: System, x: StreamId, r: RequestId)
    requires Inv(s) && x in s.receivers && DeliversTo(s.receivers[x], r)
    ensures StuckDelivering(s, x) <==> InboxOf(s.calls, s.buffers, r) != []
    ensures r in s.calls && s.calls[r].handle == s.receivers[x].handle && s.calls[r].handle in s.buffers
    ensures |InboxOf(s.calls, s.buffers, r)| <= 1
  {
    InvChannels(s);
    hide Inv, Streams.Enabled;
    assert HoldsOwn(s.calls, s.receivers[x]);
  }

  lemma SecondDeliverySticks(s: System, x: StreamId, y: StreamId, r: RequestId)
    requires Inv(s) && x != y && x in s.receivers && y in s.receivers
    requires DeliversTo(s.receivers[x], r) && DeliversTo(s.receivers[y], r) && InboxOf(s.calls, s.buffers, r) == []
    ensures BlockedByAnother(s, x, r)
  {
    hide Inv, Streams.Enabled, Streams.Do, Lookup, AfterHandling;
    StuckOnFullChannel(s, x, r);
    StuckOnFullChannel(s, y, r);
    assert Enabled(s, Deliver(y));
    var t := Do(s, Deliver(y));
    assert t.receivers[x] == s.receivers[x] && t.buffers[s.receivers[x].handle] == [s.receivers[y].reply];
    assert StuckDelivering(t, x);
  }

  lemma BlockedHoldsTwo(s: System, r: RequestId)
    requires Inv(s) && Blocks(s, r)
    ensures Held(s, r) >= 2
  {
    hide Inv, DeliversTo, InboxOf, StuckDelivering, BlockedByAnother, DeliveringTo;
    var x :| x in s.receivers && DeliversTo(s.receivers[x], r) && (StuckDelivering(s, x) || BlockedByAnother(s, x, r));
    TwoDelivering(s.receivers, r);
    OneDelivering(s.receivers, r);
    InDelivering(s.receivers, x, r);
    StuckOnFullChannel(s, x, r);
    if BlockedByAnother(s, x, r) {
      AnotherDelivers(s, x, r);
    }
  }

  lemma InDelivering(receivers: Receivers, x: StreamId, r: RequestId)
    ensures x in DeliveringTo(receivers, r) <==> x in receivers && DeliversTo(receivers[x], r)
  {
    hide DeliversTo;
  }

  lemma TwoHeldBlock(s: System, r: RequestId)
    requires Inv(s) && Held(s, r) >= 2
    ensures Blocks(s, r)
  {
    hide Inv, DeliversTo, InboxOf, StuckDelivering, BlockedByAnother, DeliveringTo;
    TwoDelivering(s.receivers, r);
    OneDelivering(s.receivers, r);
    InboxAtMostOne(s, r);
    if InboxOf(s.calls, s.buffers, r) != [] {
      var x :| x in DeliveringTo(s.receivers, r);
      InDelivering(s.receivers, x, r);
      StuckOnFullChannel(s, x, r);
    } else {
      var x, y :| x != y && x in DeliveringTo(s.receivers, r) && y in DeliveringTo(s.receivers, r);
      InDelivering(s.receivers, x, r);
      InDelivering(s.receivers, y, r);
      SecondDeliverySticks(s, x, y, r);
    }
  }

  lemma NothingHeldYet(r: RequestId)
    ensures Held(EMPTY, r) == 0 && HandlingReply(EMPTY.receivers, r) == {}
  {
    assert DeliveringTo(EMPTY.receivers, r) == {};
  }

  /** In every run, a receive loop is blocked on its way to r, or will be after another's
      delivery, if and only if two lookups more have found r's waiter than replies were taken: a
      second reply is found before the first is taken. */
  lemma BlocksExactly(steps: seq<Step>, s: System, r: RequestId)
    requires Runs(EMPTY, steps, s)
    ensures Blocks(s, r) <==> Finds(EMPTY, steps, r) >= Takes(steps, r) + 2
  {
    hide Inv, Runs, Finds, Takes, Blocks, Held;
    EmptyInv();
    NothingHeldYet(r);
    RunBalances(EMPTY, steps, s, r);
    if Blocks(s, r) {
      BlockedHoldsTwo(s, r);
    }
    if Held(s, r) >= 2 {
      TwoHeldBlock(s, r);
    }
  }

  lemma AnotherDelivers(s: System, x: StreamId, r: RequestId)
    requires BlockedByAnother(s, x, r) && x in s.receivers && DeliversTo(s.receivers[x], r)
    ensures exists y, z :: y != z && y in DeliveringTo(s.receivers, r) && z in DeliveringTo(s.receivers, r)
  {
    hide Enabled, Do, StuckDelivering, DeliversTo;
    var y :| y != x && y in s.receivers && DeliversTo(s.receivers[y], r) && Enabled(s, Deliver(y)) && StuckDelivering(Do(s, Deliver(y)), x);
    assert y in DeliveringTo(s.receivers, r) && x in DeliveringTo(s.receivers, r);
  }

  lemma InboxAtMostOne(s: System, r: RequestId)
    requires Inv(s)
    ensures |InboxOf(s.calls, s.buffers, r)| <= 1
  {
    InvChannels(s);
    hide Inv;
  }

  // ----- At most one reply to a request

  lemma StepFindsWhatArrived(s: System, a: Step, r: RequestId)
    requires Enabled(s, a) && s.receivers.Keys == s.net.streams.Keys
    ensures FindOf(s, a, r) + |HandlingReply(Do(s, a).receivers, r)| <= ArrivalOf(a, r) + |HandlingReply(s.receivers, r)|
  {
    hide Streams.Do, HandlingReply, Lookup, AfterHandling, BeginCall, RemoveCall, TakeReply, PushCommand;
    if Mover(a).Some? {
      hide FindOf, ArrivalOf, Enabled;
      MoverMovesItsPhase(s, a);
      NoFind(s, a, r);
    } else if a.RelayReads? || a.RelayPushes? {
    } else {
      var x := if a.Net? then a.step.x else a.x;
      if a.Handle? {
        LookupKeepsEvent(s, s.receivers[x].event);
      }
      if x in Do(s, a).receivers {
        SetsAfterMove(s.receivers, x, Do(s, a).receivers[x], r);
      }
    }
  }

  lemma NoFind(s: System, a: Step, r: RequestId)
    requires !a.Handle?
    ensures FindOf(s, a, r) == 0
  {
  }

  lemma {:induction false} RunFindsWhatArrived(s: System, steps: seq<Step>, t: System, r: RequestId)
    requires Inv(s) && Runs(s, steps, t)
    ensures Finds(s, steps, r) + |HandlingReply(t.receivers, r)| <= Arrivals(steps, r) + |HandlingReply(s.receivers, r)|
    decreases |steps|
  {
    hide Inv, Do, Enabled, FindOf, ArrivalOf, HandlingReply;
    if steps != [] {
      InvChannels(s);
      StepFindsWhatArrived(s, steps[0], r);
      StepKeepsInv(s, steps[0]);
      RunFindsWhatArrived(Do(s, steps[0]), steps[1..], t, r);
    }
  }

  /** A run in which at most one reply comes for each request. */
  ghost predicate RepliesOnce(steps: seq<Step>) {
    forall r :: Arrivals(steps, r) <= 1
  }

  lemma StuckBlocks(s: System, x: StreamId)
    requires StuckDelivering(s, x)
    ensures x in s.receivers && s.receivers[x].Delivering? && Blocks(s, s.receivers[x].reply.requestId)
  {
    hide Enabled, BlockedByAnother;
    assert DeliversTo(s.receivers[x], s.receivers[x].reply.requestId);
  }

  lemma BlockedTakesTwo(steps: seq<Step>, s: System, r: RequestId)
    requires Runs(EMPTY, steps, s) && Blocks(s, r)
    ensures Arrivals(steps, r) >= 2
  {
    hide Inv, Runs, Finds, Takes, Arrivals, Blocks;
    EmptyInv();
    NothingHeldYet(r);
    RunFindsWhatArrived(EMPTY, steps, s, r);
    BlocksExactly(steps, s, r);
  }

  /** If at most one reply comes for each request, delivery never blocks a receive loop. */
  lemma OneReplyNeverBlocks(steps: seq<Step>, s: System, x: StreamId)
    requires Runs(EMPTY, steps, s) && RepliesOnce(steps)
    ensures !StuckDelivering(s, x)
  {
    hide Runs, Arrivals, Blocks, StuckDelivering;
    if StuckDelivering(s, x) {
      StuckBlocks(s, x);
      BlockedTakesTwo(steps, s, s.receivers[x].reply.requestId);
    }
  }

  // ----- A second reply does block

  lemma SecondReplySticks(s: System, x: StreamId, reply: Reply, h: Handle)
    requires x in s.receivers && s.receivers[x].Listening? && Streams.Enabled(s.net, Streams.ReadyOn(x))
    requires Lookup(s.friends, s.links, Final(reply)) == Some(h) && h in s.buffers && s.buffers[h] != []
    ensures Runs(s, [Arrive(x, Final(reply)), Handle(x)], Do(Do(s, Arrive(x, Final(reply))), Handle(x)))
    ensures StuckDelivering(Do(Do(s, Arrive(x, Final(reply))), Handle(x)), x)
  {
    hide Lookup;
    var s1 := Do(s, Arrive(x, Final(reply)));
    assert s1.receivers[x] == Handling(Final(reply));
    var s2 := Do(s1, Handle(x));
    assert s2.receivers[x] == Delivering(reply, h);
    assert Runs(s2, [], s2);
    RunsCons(s1, Handle(x), [], s2);
    RunsCons(s, Arrive(x, Final(reply)), [Handle(x)] + [], s2);
    assert [Arrive(x, Final(reply))] + ([Handle(x)] + []) == [Arrive(x, Final(reply)), Handle(x)];
  }

  lemma OneReplyFills(s: System, x: StreamId, reply: Reply, h: Handle)
    requires x in s.receivers && s.receivers[x].Listening? && Streams.Enabled(s.net, Streams.ReadyOn(x))
    requires Lookup(s.friends, s.links, Final(reply)) == Some(h) && h in s.buffers && s.buffers[h] == []
    ensures Enabled(s, Arrive(x, Final(reply)))
    ensures var s1 := Do(s, Arrive(x, Final(reply)));
            Enabled(s1, Handle(x)) && var s2 := Do(s1, Handle(x));
            Enabled(s2, Deliver(x)) && var s3 := Do(s2, Deliver(x));
            && s3.receivers == s.receivers[x := Listening] && s3.net == s.net && s3.friends == s.friends && s3.links == s.links
            && s3.buffers == s.buffers[h := [reply]]
  {
    hide Lookup;
    var s1 := Do(s, Arrive(x, Final(reply)));
    assert s1.receivers[x] == Handling(Final(reply));
    var s2 := Do(s1, Handle(x));
    assert s2.receivers[x] == Delivering(reply, h);
  }

  /** In any reachable state, two replies for a call, of either kind, that is in its table and
      has not taken the first leave the receive loop of an open stream stuck. */
  lemma DuplicateReplyBlocks(s: System, x: StreamId, reply: Reply) returns (steps: seq<Step>, t: System)
    requires Reachable(s)
    requires x in s.receivers && s.receivers[x].Listening?
    requires Lookup(s.friends, s.links, Final(reply)).Some?
    requires InFlight(s, reply.requestId) && Inbox(s, reply.requestId) == []
    ensures Runs(s, steps, t) && StuckDelivering(t, x)
  {
    ReachableInv(s);
    var h := s.calls[reply.requestId].handle;
    FindsOwnChannel(s, reply);
    assert Streams.Enabled(s.net, Streams.ReadyOn(x));
    hide Inv, Streams.Inv, Do, Enabled, Lookup, AfterHandling;
    var arrive := Arrive(x, Final(reply));
    OneReplyFills(s, x, reply, h);
    var s1 := Do(s, arrive);
    var s2 := Do(s1, Handle(x));
    var s3 := Do(s2, Deliver(x));
    SecondReplySticks(s3, x, reply, h);
    var tail := [arrive, Handle(x)];
    t := Do(Do(s3, arrive), Handle(x));
    RunsCons(s2, Deliver(x), tail, t);
    RunsCons(s1, Handle(x), [Deliver(x)] + tail, t);
    RunsCons(s, arrive, [Handle(x)] + ([Deliver(x)] + tail), t);
    steps := [arrive] + ([Handle(x)] + ([Deliver(x)] + tail));
  }

  lemma FindsOwnChannel(s: System, reply: Reply)
    requires Inv(s) && Lookup(s.friends, s.links, Final(reply)).Some? && reply.requestId in s.calls
    ensures Lookup(s.friends, s.links, Final(reply)).value == s.calls[reply.requestId].handle
  {
    InvTables(s);
    hide Inv, CallbacksOwn;
  }

  lemma RunsCons(s: System, a: Step, steps: seq<Step>, t: System)
    requires Enabled(s, a) && Runs(Do(s, a), steps, t)
    ensures Runs(s, [a] + steps, t)
  {
    hide Enabled, Do;
    assert ([a] + steps)[1..] == steps;
  }

  /** One call of the kind asked for, and one open stream. */
  lemma OneCallOneStream(command: Command) returns (s: System)
    requires IsRequest(command) && command.id == 0
    ensures Reachable(s) && 0 in s.receivers && s.receivers[0].Listening? && InFlight(s, 0) && Inbox(s, 0) == []
    ensures if command.ListFriends? then 0 in s.friends else 0 in s.links.chans
  {
    var open, begin := Net(Streams.Open(0)), Begin(0, 0, command, false, false);
    var s1 := Do(EMPTY, open);
    s := Do(s1, begin);
    assert Runs(s, [], s);
    RunsCons(s1, begin, [], s);
    RunsCons(EMPTY, open, [begin] + [], s);
  }

  /** Such a state is reached, for a friends call and for a link call. */
  lemma BlockedLoopIsReached(command: Command, reply: Reply) returns (steps: seq<Step>, t: System)
    requires IsRequest(command) && command.id == 0 && reply.requestId == 0 && (reply.FriendsReply? <==> command.ListFriends?)
    ensures Runs(EMPTY, steps, t) && StuckDelivering(t, 0)
  {
    hide Runs, StuckDelivering, InFlight;
    var s := OneCallOneStream(command);
    var more;
    more, t := DuplicateReplyBlocks(s, 0, reply);
    var before :| Runs(EMPTY, before, s);
    RunsAppend(EMPTY, before, s, more, t);
    steps := before + more;
  }

  lemma {:induction false} RunsAppend(s: System, a: seq<Step>, m: System, b: seq<Step>, t: System)
    requires Runs(s, a, m) && Runs(m, b, t)
    ensures Runs(s, a + b, t)
    decreases |a|
  {
    hide Do, Enabled;
    if a == [] {
      assert a + b == b;
    } else {
      RunsAppend(Do(s, a[0]), a[1..], m, b, t);
      assert (a + b)[1..] == a[1..] + b;
    }
  }

  // ----- Progress

  lemma InvProgress(s: System)
    requires Inv(s)
    ensures HandlesOwned(s.calls, s.buffers) && PhasesMatch(s.calls, s.phases, s.slots) && SendersMatch(s.net, s.phases, s.relays)
    ensures ReceiversMatch(s.net, s.receivers) && ReceiversHoldOwn(s.calls, s.receivers)
  {
    hide Streams.Inv, PhasesMatch, FriendsTable, LinksTable, HandlesOwned, BuffersAnswer, ReceiversHoldOwn,
         OutcomesAnswer, CallbacksOwn, ReceiversMatch, SendersMatch, SlotsMatch;
  }

  /** In every run, a call that has begun can always take its next step, except a push into a full
      queue; while it waits it can always run out of time. */
  lemma CallsGoOn(s: System, r: RequestId)
    requires Reachable(s) && r in s.calls
    ensures r in s.phases && s.calls[r].handle in s.buffers
    ensures match s.phases[r]
            case Added => Enabled(s, ReadSlot(r))
            case Sending(y) => y in s.net.streams && (Enabled(s, Push(r)) <==> |s.net.streams[y].queue| < 8)
            case Waiting => Enabled(s, Expire(r)) && (Enabled(s, Take(r)) <==> s.buffers[s.calls[r].handle] != [])
            case Returning(_) => Enabled(s, Remove(r))
            case Done(_) => true
  {
    hide Inv, Reachable, ReceiversMatch, ReceiversHoldOwn;
    ReachableInv(s);
    InvProgress(s);
  }

  /** In every run, a receive loop can always take its next step, except a delivery into a channel
      that holds a reply. */
  lemma LoopsGoOn(s: System, x: StreamId, ev: Event)
    requires Reachable(s) && x in s.receivers
    ensures x in s.net.streams
    ensures match s.receivers[x]
            case Listening => Enabled(s, Leave(x)) && Enabled(s, Arrive(x, ev))
            case Handling(_) => Enabled(s, Handle(x))
            case Delivering(_, h) => h in s.buffers && (Enabled(s, Deliver(x)) <==> s.buffers[h] == [])
            case Calling(_, _) => Enabled(s, CallbackReturns(x))
            case Leaving => Enabled(s, EndSession(x))
            case Gone => s.net.streams[x].ended
  {
    hide Inv, Reachable, PhasesMatch, SendersMatch;
    ReachableInv(s);
    InvProgress(s);
  }
}
