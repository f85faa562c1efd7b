/** From the worker's run to the caller (worker/agent.py, workers/server.go, workers/link.go,
    workers/friends.go): over every run of WorkerStream, what the control plane makes of a request
    is what the run the worker chose for it reported. The reply a call returns is that run's own,
    list and token included; and the prompt callbacks of a link complete with that run's prompts,
    in their order, none missing before the answer, none twice. */
module Delivery {
  import opened Wrappers
  import opened Messages
  import opened WorkerAgent
  import C = Correlation
  import Pending
  import Streams
  import W = WorkerStream

  type StreamId = C.StreamId

  /** The run a worker chose for a request when it received the command. */
  datatype Report = LinkReport(link: LinkRun) | FriendsReport(friends: FriendsRun)

  type Reports = map<RequestId, Report>

  function EventsOf(r: RequestId, report: Report): seq<Event> {
    match report
    case LinkReport(run) => LinkEvents(r, run)
    case FriendsReport(run) => FriendsEvents(r, run)
  }

  /** What a step chooses. */
  function Choose(w: W.World, a: W.Step, reports: Reports): Reports
    requires W.Enabled(w, a)
  {
    if !a.TakeCommand? then reports
    else
      match w.sys.net.streams[a.x].sent[w.processes[a.x].taken]
      case LinkAccount(r, _, _) => reports[r := LinkReport(a.link)]
      case ListFriends(r, _) => reports[r := FriendsReport(a.friends)]
      case SubmitGuardCode(_, _) => reports
  }

  /** What a run of the whole chooses. */
  ghost function Chosen(w: W.World, steps: seq<W.Step>, reports: Reports): Reports
    decreases |steps|
  {
    if steps == [] || !W.Enabled(w, steps[0]) then reports
    else Chosen(W.Do(w, steps[0]), steps[1..], Choose(w, steps[0], reports))
  }

  // ----- What is known of one request

  /** The events of r's callbacks that have completed, in order. */
  function Called(callbacks: seq<C.Callback>, r: RequestId): seq<Event>
    decreases |callbacks|
  {
    if callbacks == [] then []
    else
      var last := callbacks[|callbacks| - 1];
      Called(callbacks[..|callbacks| - 1], r) + if Concerns(last.event, r) then [last.event] else []
  }

  /** open: the call is in its table. busy: a receive loop has found the call's channel or
      callback and is about to use it. */
  datatype View = View(upcoming: seq<Event>, inbox: seq<Reply>, answer: Option<Reply>, called: seq<Event>, open: bool, busy: bool)

  predicate Busy(v: C.Receiver, r: RequestId) {
    (v.Calling? || v.Delivering?) && W.InHand(v, r) != []
  }

  function Inbox(s: C.System, r: RequestId): seq<Reply> {
    if C.InFlight(s, r) then C.Inbox(s, r) else []
  }

  function Answer(s: C.System, r: RequestId): Option<Reply> {
    if r in s.phases then C.AnswerOf(s.phases[r]) else None
  }

  /** The view of a request whose command is number k of the stream with this receive loop and
      process. */
  function ViewAt(s: C.System, v: C.Receiver, p: W.Process, k: nat, r: RequestId): View {
    View(W.Upcoming(v, p, k, r), Inbox(s, r), Answer(s, r), Called(s.callbacks, r), C.Active(s.phases, r), Busy(v, r))
  }

  predicate Started(w: W.World, r: RequestId) {
    && r in w.sys.slots && w.sys.slots[r].0 in w.processes && w.sys.slots[r].0 in w.sys.receivers
    && w.sys.slots[r].1 < w.processes[w.sys.slots[r].0].taken
  }

  function ViewOf(w: W.World, r: RequestId): View
    requires Started(w, r)
  {
    var (x, k) := w.sys.slots[r];
    ViewAt(w.sys, w.sys.receivers[x], w.processes[x], k, r)
  }

  /** The call hears of everything its run can report. */
  predicate HearsAll(call: C.Call) {
    call.command.ListFriends? || (call.onGuard && call.onChallenge)
  }

  /** evs, all that the run reports, is split between what is to come, what the callbacks brought
      and the reply; nothing is lost while the call is there to hear it. */
  ghost predicate Split(r: RequestId, evs: seq<Event>, v: View, call: C.Call) {
    && RunShape(r, evs) && OfKind(evs, call) && Suffix(evs, v)
    && (HearsAll(call) ==> InOrder(evs, v))
  }

  predicate OfKind(evs: seq<Event>, call: C.Call) {
    && evs != [] && evs[|evs| - 1].Final?
    && (evs[|evs| - 1].reply.FriendsReply? <==> call.command.ListFriends?)
    && (call.command.ListFriends? ==> |evs| == 1)
  }

  /** What is to come is the end of evs, and the only reply is evs' own. */
  predicate Suffix(evs: seq<Event>, v: View) {
    && evs != [] && evs[|evs| - 1].Final?
    && |v.upcoming| <= |evs| && v.upcoming == evs[|evs| - |v.upcoming|..]
    && (v.inbox != [] ==> v.inbox == [evs[|evs| - 1].reply])
    && (v.answer.Some? ==> v.answer.value == evs[|evs| - 1].reply)
  }

  ghost predicate InOrder(evs: seq<Event>, v: View) {
    && |v.called| < |evs| && |v.called| + |v.upcoming| <= |evs| && v.called == evs[..|v.called|]
    && (v.upcoming != [] && (v.open || v.busy) ==> |v.called| + |v.upcoming| == |evs|)
    && (v.inbox != [] || v.answer.Some? ==> |v.called| == |evs| - 1)
  }

  // ----- How one step moves the view

  predicate Stays(v: View, u: View) {
    && u.upcoming == v.upcoming && u.inbox == v.inbox && u.answer == v.answer && u.called == v.called
    && (u.open ==> v.open) && (u.busy ==> v.busy || v.open)
  }

  /** The receive loop finds nobody to give the event to. */
  predicate Drops(v: View, u: View) {
    && v.upcoming != [] && u == v.(upcoming := v.upcoming[1..], busy := false) && !v.open
  }

  predicate Calls(v: View, u: View) {
    && v.upcoming != [] && v.busy && IsInterim(v.upcoming[0])
    && u == v.(upcoming := v.upcoming[1..], called := v.called + [v.upcoming[0]], busy := false)
  }

  predicate Delivers(v: View, u: View) {
    && v.upcoming != [] && v.busy && v.upcoming[0].Final?
    && u == v.(upcoming := v.upcoming[1..], inbox := [v.upcoming[0].reply], busy := false)
  }

  predicate Takes(v: View, u: View) {
    |v.inbox| == 1 && u == v.(inbox := [], answer := Some(v.inbox[0]))
  }

  /** A call that does not hear of everything may also have an event dropped while it is open. */
  predicate Moves(v: View, u: View, hearsAll: bool) {
    || Stays(v, u) || Drops(v, u) || Calls(v, u) || Delivers(v, u) || Takes(v, u)
    || (!hearsAll && v.upcoming != [] && u == v.(upcoming := v.upcoming[1..], busy := false))
  }

  lemma LastIsFinal(r: RequestId, evs: seq<Event>)
    requires RunShape(r, evs)
    ensures evs != [] && evs[|evs| - 1].Final?
  {
  }

  /** The first of what is to come is the next event of the run. */
  lemma NextEvent(evs: seq<Event>, up: seq<Event>)
    requires up != [] && |up| <= |evs| && up == evs[|evs| - |up|..]
    ensures up[0] == evs[|evs| - |up|] && up[1..] == evs[|evs| - |up[1..]|..]
  {
  }

  lemma CallKeepsOrder(evs: seq<Event>, v: View, u: View)
    requires InOrder(evs, v) && Calls(v, u) && |v.upcoming| <= |evs| && v.upcoming == evs[|evs| - |v.upcoming|..]
    requires evs[|evs| - 1].Final?
    ensures InOrder(evs, u)
  {
    NextEvent(evs, v.upcoming);
    assert evs[..|v.called|] + [evs[|v.called|]] == evs[..|v.called| + 1];
  }

  lemma MovesKeepOrder(evs: seq<Event>, v: View, u: View)
    requires InOrder(evs, v) && Moves(v, u, true) && |v.upcoming| <= |evs| && v.upcoming == evs[|evs| - |v.upcoming|..]
    requires evs[|evs| - 1].Final? && (v.upcoming != [] && v.upcoming[0].Final? ==> |v.upcoming| == 1)
    ensures InOrder(evs, u)
  {
    if Calls(v, u) {
      CallKeepsOrder(evs, v, u);
    }
    hide Calls;
  }

  /** Of a run's events only the last is final. */
  lemma OnlyLastIsFinal(r: RequestId, evs: seq<Event>, up: seq<Event>)
    requires RunShape(r, evs) && up != [] && |up| <= |evs| && up == evs[|evs| - |up|..] && up[0].Final?
    ensures |up| == 1 && up[0] == evs[|evs| - 1]
  {
    NextEvent(evs, up);
  }

  lemma MovesLittle(v: View, u: View, hearsAll: bool)
    requires Moves(v, u, hearsAll)
    ensures u.upcoming == v.upcoming || (v.upcoming != [] && u.upcoming == v.upcoming[1..])
    ensures u.inbox == v.inbox || u.inbox == [] || (v.upcoming != [] && v.upcoming[0].Final? && u.inbox == [v.upcoming[0].reply])
    ensures u.answer == v.answer || (|v.inbox| == 1 && u.answer == Some(v.inbox[0]))
  {
  }

  lemma MovesKeepSuffix(evs: seq<Event>, v: View, u: View, hearsAll: bool)
    requires Suffix(evs, v) && Moves(v, u, hearsAll)
    requires v.upcoming != [] && v.upcoming[0].Final? ==> v.upcoming[0] == evs[|evs| - 1]
    ensures Suffix(evs, u)
  {
    hide Moves;
    MovesLittle(v, u, hearsAll);
    if v.upcoming != [] {
      NextEvent(evs, v.upcoming);
    }
  }

  lemma MovesKeepSplit(r: RequestId, evs: seq<Event>, v: View, u: View, call: C.Call)
    requires Split(r, evs, v, call) && Moves(v, u, HearsAll(call))
    ensures Split(r, evs, u, call)
  {
    hide RunShape, InOrder, HearsAll, Moves, OfKind;
    if v.upcoming != [] && v.upcoming[0].Final? {
      OnlyLastIsFinal(r, evs, v.upcoming);
    }
    MovesKeepSuffix(evs, v, u, HearsAll(call));
    if HearsAll(call) {
      MovesKeepOrder(evs, v, u);
    }
  }

  // ----- The control plane's side of the view

  lemma CalledMore(callbacks: seq<C.Callback>, cb: C.Callback, r: RequestId)
    ensures Called(callbacks + [cb], r) == Called(callbacks, r) + if Concerns(cb.event, r) then [cb.event] else []
  {
    assert (callbacks + [cb])[..|callbacks|] == callbacks;
  }

  /** r's call, channel, answer and callbacks are the same, and it has not entered its table. */
  predicate SysStays(s: C.System, t: C.System, r: RequestId) {
    && r in s.calls && r in t.calls && t.calls[r] == s.calls[r]
    && Inbox(t, r) == Inbox(s, r) && Answer(t, r) == Answer(s, r) && Called(t.callbacks, r) == Called(s.callbacks, r)
    && (C.Active(t.phases, r) ==> C.Active(s.phases, r))
  }

  lemma PhaseStepStays(s: C.System, b: C.Step, r: RequestId)
    requires C.Enabled(s, b) && (b.ReadSlot? || b.Push? || b.Expire?) && C.InFlight(s, r)
    ensures SysStays(s, C.Do(s, b), r)
  {
    hide Streams.Do, Streams.Enabled, Called;
  }

  lemma RemoveStays(s: C.System, q: RequestId, r: RequestId)
    requires q in s.calls && q in s.phases && s.phases[q].Returning? && C.InFlight(s, r)
    ensures SysStays(s, C.RemoveCall(s, q), r)
  {
    hide Pending.RemoveLink, Called;
  }

  lemma BeginStays(s: C.System, q: RequestId, h: C.Handle, command: Command, onGuard: bool, onChallenge: bool, r: RequestId)
    requires q != r && h !in s.buffers && C.InFlight(s, r)
    ensures SysStays(s, C.BeginCall(s, q, h, command, onGuard, onChallenge), r)
  {
    hide Pending.AddLink, Called;
  }

  lemma TakeOtherStays(s: C.System, q: RequestId, r: RequestId)
    requires q != r && C.InFlight(s, q) && C.Inbox(s, q) != [] && C.InFlight(s, r) && C.HandlesOwned(s.calls, s.buffers)
    ensures SysStays(s, C.TakeReply(s, q), r)
  {
    hide Called;
  }

  lemma DeliverOtherStays(s: C.System, x: StreamId, r: RequestId)
    requires x in s.receivers && s.receivers[x].Delivering? && s.receivers[x].reply.requestId != r
    requires C.HoldsOwn(s.calls, s.receivers[x]) && C.HandlesOwned(s.calls, s.buffers) && C.InFlight(s, r)
    ensures SysStays(s, C.DeliverReply(s, x), r)
  {
    hide Called;
  }

  lemma CallbackOtherStays(s: C.System, x: StreamId, r: RequestId)
    requires x in s.receivers && s.receivers[x].Calling? && !Concerns(s.receivers[x].event, r) && C.InFlight(s, r)
    ensures SysStays(s, C.FinishCallback(s, x), r)
  {
    CalledMore(s.callbacks, C.Callback(x, s.receivers[x].event, s.receivers[x].handle), r);
    hide Called;
  }

  lemma OtherStepStays(s: C.System, b: C.Step, r: RequestId)
    requires C.Enabled(s, b) && C.InFlight(s, r)
    requires b.Net? || b.Arrive? || b.Handle? || b.Leave? || b.EndSession? || b.RelayReads? || b.RelayPushes?
    ensures SysStays(s, C.Do(s, b), r)
  {
    hide Streams.Do, Streams.Enabled, C.AfterHandling, Called;
  }

  /** The step is the control plane's doing something with a reply or prompt of r. */
  predicate Touches(s: C.System, b: C.Step, r: RequestId) {
    match b
    case Deliver(x) => x in s.receivers && s.receivers[x].Delivering? && s.receivers[x].reply.requestId == r
    case CallbackReturns(x) => x in s.receivers && s.receivers[x].Calling? && Concerns(s.receivers[x].event, r)
    case Take(q) => q == r
    case _ => false
  }

  lemma SysStepStays(s: C.System, b: C.Step, r: RequestId)
    requires C.Inv(s) && C.Enabled(s, b) && r in s.calls && !Touches(s, b, r)
    ensures SysStays(s, C.Do(s, b), r)
  {
    W.InvParts(s);
    W.CallsInFlight(s, r);
    hide C.Inv, C.BeginCall, C.RemoveCall, C.TakeReply, C.DeliverReply, C.FinishCallback, C.HandleEvent, C.PushCommand, SysStays,
         C.HandlesOwned, C.PhasesMatch, C.BuffersAnswer, C.HoldsOwn, Streams.Do, Streams.Enabled, Concerns;
    match b {
      case Begin(q, h, command, onGuard, onChallenge) => BeginStays(s, q, h, command, onGuard, onChallenge, r);
      case Remove(q) => RemoveStays(s, q, r);
      case Take(q) => TakeOtherStays(s, q, r);
      case Deliver(x) => DeliverOtherStays(s, x, r);
      case CallbackReturns(x) => CallbackOtherStays(s, x, r);
      case ReadSlot(_) => PhaseStepStays(s, b, r);
      case Push(_) => PhaseStepStays(s, b, r);
      case Expire(_) => PhaseStepStays(s, b, r);
      case _ => OtherStepStays(s, b, r);
    }
  }

  // ----- The receive loop's side

  /** The loop at x is not the one that moves. */
  lemma LoopStays(s: C.System, b: C.Step, x: StreamId)
    requires C.Enabled(s, b) && x in s.receivers
    requires !(b.Arrive? || b.Handle? || b.Deliver? || b.CallbackReturns? || b.Leave? || b.EndSession?) || b.x != x
    requires b.Net? && b.step.Open? ==> b.step.x != x
    ensures x in C.Do(s, b).receivers && C.Do(s, b).receivers[x] == s.receivers[x]
  {
    hide Streams.Do, Streams.Enabled, C.AfterHandling, C.PushCommand;
    if b.Begin? {
      BeginKeepsLoops(s, b.r, b.h, b.command, b.onGuard, b.onChallenge);
    } else if b.Remove? {
      RemoveKeepsLoops(s, b.r);
    } else if b.Push? {
      PushKeepsLoops(s, b.r);
    }
  }

  lemma BeginKeepsLoops(s: C.System, r: RequestId, h: C.Handle, command: Command, onGuard: bool, onChallenge: bool)
    ensures C.BeginCall(s, r, h, command, onGuard, onChallenge).receivers == s.receivers
  {
    hide Pending.AddLink;
  }

  lemma RemoveKeepsLoops(s: C.System, r: RequestId)
    requires r in s.calls && r in s.phases && s.phases[r].Returning?
    ensures C.RemoveCall(s, r).receivers == s.receivers
  {
    hide Pending.RemoveLink;
  }

  lemma PushKeepsLoops(s: C.System, r: RequestId)
    requires C.InFlight(s, r) && s.phases[r].Sending?
    requires Streams.Enabled(s.net, Streams.Enqueue(s.phases[r].x, s.calls[r].command))
    ensures C.PushCommand(s, r).receivers == s.receivers
  {
    hide Streams.Do;
  }

  lemma SameLoopStays(s: C.System, t: C.System, v: C.Receiver, u: C.Receiver, p: W.Process, q: W.Process, k: nat, r: RequestId)
    requires SysStays(s, t, r) && W.InHand(u, r) == W.InHand(v, r) && (Busy(u, r) ==> Busy(v, r))
    requires W.About(q.outbox, r) + W.Rest(q, k) == W.About(p.outbox, r) + W.Rest(p, k)
    ensures Stays(ViewAt(s, v, p, k, r), ViewAt(t, u, q, k, r))
  {
    var (a, b) := (W.About(p.outbox, r), W.Rest(p, k));
    var (c, d) := (W.About(q.outbox, r), W.Rest(q, k));
    assert W.InHand(v, r) + a + b == W.InHand(v, r) + (a + b);
    assert W.InHand(v, r) + c + d == W.InHand(v, r) + (c + d);
    hide W.InHand, W.About, W.Rest, Busy, Called, Inbox, Answer;
  }

  // ----- A receive loop with an event about r in hand

  lemma HeadInHand(v: C.Receiver, p: W.Process, k: nat, r: RequestId)
    requires W.InHand(v, r) != []
    ensures W.InHand(v, r) == [W.InHand(v, r)[0]]
    ensures var up := W.Upcoming(v, p, k, r);
            up != [] && up[0] == W.InHand(v, r)[0] && up[1..] == W.About(p.outbox, r) + W.Rest(p, k)
  {
    var (a, b) := (W.About(p.outbox, r), W.Rest(p, k));
    assert W.InHand(v, r) + a + b == [W.InHand(v, r)[0]] + (a + b);
    hide W.About, W.Rest;
  }

  lemma EmptyHand(u: C.Receiver, p: W.Process, k: nat, r: RequestId)
    requires W.InHand(u, r) == []
    ensures W.Upcoming(u, p, k, r) == W.About(p.outbox, r) + W.Rest(p, k)
  {
    hide W.About, W.Rest;
  }

  /** What Handle makes of an event about a call: on to its callback or channel, or dropped. */
  lemma HandledMoves(s: C.System, x: StreamId, p: W.Process, k: nat, r: RequestId, evs: seq<Event>)
    requires C.Inv(s) && C.Enabled(s, C.Handle(x)) && r in s.calls && Concerns(s.receivers[x].event, r)
    requires Split(r, evs, ViewAt(s, s.receivers[x], p, k, r), s.calls[r])
    ensures x in C.Do(s, C.Handle(x)).receivers
    ensures Moves(ViewAt(s, s.receivers[x], p, k, r), ViewAt(C.Do(s, C.Handle(x)), C.Do(s, C.Handle(x)).receivers[x], p, k, r),
                  HearsAll(s.calls[r]))
  {
    hide C.Inv, C.Do, C.Enabled, Called, Inbox, Answer, W.About, W.Rest, RunShape, InOrder, Suffix, C.Active, C.AfterHandling;
    LoopIsEnabled(s, C.Handle(x));
    var v := s.receivers[x];
    SysStepStays(s, C.Handle(x), r);
    HeadInHand(v, p, k, r);
    var next := HandledTo(s, x);
    HandledCall(s, x, r);
    if next.Listening? {
      EmptyHand(next, p, k, r);
    }
    CallIsRequest(s, r);
    if HearsAll(s.calls[r]) {
      HeadHeard(r, evs, ViewAt(s, v, p, k, r), s.calls[r]);
    }
  }

  /** A call that hears of everything hears of what comes next. */
  lemma HeadHeard(r: RequestId, evs: seq<Event>, v: View, call: C.Call)
    requires Split(r, evs, v, call) && v.upcoming != [] && HearsAll(call)
    ensures Hears(call, v.upcoming[0]) || !IsRequest(call.command)
  {
    KindOfHead(r, evs, v, call);
    hide Split;
  }

  lemma CallIsRequest(s: C.System, r: RequestId)
    requires C.Inv(s) && r in s.calls
    ensures IsRequest(s.calls[r].command)
  {
    hide C.Inv;
    W.InvParts(s);
    C.OwnCommand(s, r);
  }

  lemma HandledTo(s: C.System, x: StreamId) returns (next: C.Receiver)
    requires C.Enabled(s, C.Handle(x))
    ensures x in C.Do(s, C.Handle(x)).receivers && next == C.Do(s, C.Handle(x)).receivers[x]
    ensures next == C.AfterHandling(s.friends, s.links, s.receivers[x].event)
    ensures C.Do(s, C.Handle(x)).phases == s.phases
  {
    hide Streams.Do, Streams.Enabled, C.AfterHandling;
    next := C.AfterHandling(s.friends, s.links, s.receivers[x].event);
  }

  /** Whether an open call hears of such an event. */
  predicate Hears(call: C.Call, ev: Event) {
    match ev
    case Guard(_, _) => call.command.LinkAccount? && call.onGuard
    case Challenge(_, _) => call.command.LinkAccount? && call.onChallenge
    case Final(reply) => if reply.FriendsReply? then call.command.ListFriends? else call.command.LinkAccount?
    case _ => false
  }

  lemma HeardFinal(s: C.System, r: RequestId, ev: Event)
    requires C.FriendsTable(s.friends, s.calls, s.phases) && C.LinksTable(s.links, s.calls, s.phases)
    requires r in s.calls && Concerns(ev, r) && ev.Final?
    ensures C.Lookup(s.friends, s.links, ev).Some? <==> C.Active(s.phases, r) && Hears(s.calls[r], ev)
  {
  }

  lemma HeardPrompt(s: C.System, r: RequestId, ev: Event)
    requires C.LinksTable(s.links, s.calls, s.phases) && r in s.calls && Concerns(ev, r) && !ev.Final?
    ensures C.Lookup(s.friends, s.links, ev).Some? <==> C.Active(s.phases, r) && Hears(s.calls[r], ev)
  {
  }

  /** The event is kept exactly when its call is open and hears of such events. */
  lemma HandledCall(s: C.System, x: StreamId, r: RequestId)
    requires C.Inv(s) && C.Enabled(s, C.Handle(x)) && r in s.calls && Concerns(s.receivers[x].event, r)
    ensures var (ev, next) := (s.receivers[x].event, C.AfterHandling(s.friends, s.links, s.receivers[x].event));
            if C.Active(s.phases, r) && Hears(s.calls[r], ev) then W.InHand(next, r) == [ev] && Busy(next, r) else next.Listening?
  {
    hide C.Inv, C.Enabled, C.FriendsTable, C.LinksTable, C.CallbacksOwn, C.Lookup, C.Active, Hears;
    LoopIsEnabled(s, C.Handle(x));
    C.InvTables(s);
    if s.receivers[x].event.Final? {
      HeardFinal(s, r, s.receivers[x].event);
    } else {
      HeardPrompt(s, r, s.receivers[x].event);
    }
  }

  /** The head of what is to come is of the kind its call is about. */
  lemma KindOfHead(r: RequestId, evs: seq<Event>, v: View, call: C.Call)
    requires Split(r, evs, v, call) && v.upcoming != []
    ensures v.upcoming[0].Final? ==> (v.upcoming[0].reply.FriendsReply? <==> call.command.ListFriends?)
    ensures call.command.ListFriends? ==> v.upcoming[0].Final?
    ensures v.upcoming[0].Final? || IsInterim(v.upcoming[0])
  {
    assert v.upcoming[0] == evs[|evs| - |v.upcoming|];
  }

  lemma ReturnDone(s: C.System, x: StreamId)
    requires C.Enabled(s, C.CallbackReturns(x))
    ensures x in s.receivers && s.receivers[x].Calling?
    ensures C.Do(s, C.CallbackReturns(x)) ==
            s.(callbacks := s.callbacks + [C.Callback(x, s.receivers[x].event, s.receivers[x].handle)],
               receivers := s.receivers[x := C.Listening])
  {
  }

  lemma CallbackMoves(s: C.System, x: StreamId, p: W.Process, k: nat, r: RequestId)
    requires C.Inv(s) && C.Enabled(s, C.CallbackReturns(x)) && r in s.calls && Concerns(s.receivers[x].event, r)
    ensures x in C.Do(s, C.CallbackReturns(x)).receivers
    ensures Calls(ViewAt(s, s.receivers[x], p, k, r),
                  ViewAt(C.Do(s, C.CallbackReturns(x)), C.Do(s, C.CallbackReturns(x)).receivers[x], p, k, r))
  {
    hide C.Inv, C.Do, C.Enabled, W.About, W.Rest, Called, C.HandlesOwned, C.BuffersAnswer, C.PhasesMatch;
    ReturnDone(s, x);
    W.InvParts(s);
    var v := s.receivers[x];
    HeadInHand(v, p, k, r);
    EmptyHand(C.Listening, p, k, r);
    CalledMore(s.callbacks, C.Callback(x, v.event, v.handle), r);
  }

  lemma DeliveryDone(s: C.System, x: StreamId)
    requires C.Enabled(s, C.Deliver(x))
    ensures x in s.receivers && s.receivers[x].Delivering?
    ensures C.Do(s, C.Deliver(x)) ==
            s.(buffers := s.buffers[s.receivers[x].handle := [s.receivers[x].reply]], receivers := s.receivers[x := C.Listening])
  {
  }

  lemma DeliveryMoves(s: C.System, x: StreamId, p: W.Process, k: nat, r: RequestId)
    requires C.Enabled(s, C.Deliver(x)) && s.receivers[x].reply.requestId == r
    requires C.Inv(s) && r in s.calls
    ensures x in C.Do(s, C.Deliver(x)).receivers
    ensures Delivers(ViewAt(s, s.receivers[x], p, k, r),
                     ViewAt(C.Do(s, C.Deliver(x)), C.Do(s, C.Deliver(x)).receivers[x], p, k, r))
  {
    hide C.Inv, C.Do, C.Enabled, W.About, W.Rest, Called, C.HandlesOwned, C.BuffersAnswer, C.PhasesMatch;
    DeliveryDone(s, x);
    W.InvParts(s);
    W.CallsInFlight(s, r);
    HeadInHand(s.receivers[x], p, k, r);
    EmptyHand(C.Listening, p, k, r);
  }

  lemma TakeDone(s: C.System, r: RequestId)
    requires C.Enabled(s, C.Take(r))
    ensures C.InFlight(s, r) && C.Inbox(s, r) != [] && C.Active(s.phases, r)
    ensures C.Do(s, C.Take(r)) ==
            s.(phases := s.phases[r := C.Returning(C.Answer(C.Inbox(s, r)[0]))],
               buffers := s.buffers[s.calls[r].handle := C.Inbox(s, r)[1..]])
  {
  }

  lemma TakeMoves(s: C.System, v: C.Receiver, p: W.Process, k: nat, r: RequestId)
    requires C.Inv(s) && C.Enabled(s, C.Take(r))
    ensures Takes(ViewAt(s, v, p, k, r), ViewAt(C.Do(s, C.Take(r)), v, p, k, r))
  {
    hide C.Inv, C.Do, C.Enabled, W.Upcoming, Called, C.HandlesOwned, C.PhasesMatch, Busy;
    TakeDone(s, r);
    W.InvParts(s);
    assert |C.Inbox(s, r)| <= 1;
    hide C.BuffersAnswer;
  }

  // ----- Each step of the streams and workers

  /** An event about r in a receive loop's hands came over r's own stream. */
  lemma HandIsOwn(w: W.World, y: StreamId, r: RequestId)
    requires W.Inv(w) && y in w.sys.receivers && W.InHand(w.sys.receivers[y], r) != []
    ensures y in w.processes && W.StartedOn(w.sys.slots, y, w.processes[y].taken, r)
  {
    SameStreams(w);
    hide C.Inv, W.Tokens, W.ThreadsOf, W.InHand;
    assert W.ProcessOk(w.sys, y, w.processes[y]);
  }

  lemma SameStreams(w: W.World)
    requires W.Inv(w)
    ensures C.Inv(w.sys) && w.processes.Keys == w.sys.net.streams.Keys && w.sys.receivers.Keys == w.sys.net.streams.Keys
    ensures forall r :: r in w.sys.slots ==> r in w.sys.calls && w.sys.slots[r].0 in w.processes
  {
    W.InvParts(w.sys);
    hide C.Inv, W.Tokens, W.ProcessOk;
  }

  /** A loop that deals with something not about r has nothing about r in hand, before or after. */
  lemma LoopOther(s: C.System, b: C.Step, x: StreamId, r: RequestId)
    requires C.Enabled(s, b) && x in s.receivers && !Touches(s, b, r)
    requires b.Handle? || b.Deliver? || b.CallbackReturns? || b.Leave? || b.EndSession?
    requires b.x == x && (b.Handle? ==> !Concerns(s.receivers[x].event, r))
    ensures x in C.Do(s, b).receivers
    ensures W.InHand(C.Do(s, b).receivers[x], r) == W.InHand(s.receivers[x], r) == []
  {
    hide Streams.Do, Streams.Enabled, C.Lookup;
  }

  /** The step is one of the loop at r's stream dealing with an event about r, or of r's call. */
  predicate Deals(s: C.System, b: C.Step, x: StreamId, r: RequestId) {
    Touches(s, b, r) || (b == C.Handle(x) && x in s.receivers && s.receivers[x].Handling? && Concerns(s.receivers[x].event, r))
  }

  lemma DealingIsOwn(w: W.World, b: C.Step, x: StreamId, r: RequestId)
    requires W.Inv(w) && C.Enabled(w.sys, b) && Touches(w.sys, b, r) && !b.Take?
    requires r in w.sys.slots && w.sys.slots[r].0 == x
    ensures b.x == x
  {
    hide W.Inv, Streams.Enabled;
    HandIsOwn(w, b.x, r);
  }

  lemma DealingMoves(w: W.World, b: C.Step, r: RequestId, evs: seq<Event>)
    requires W.Inv(w) && C.Enabled(w.sys, b) && Started(w, r) && Deals(w.sys, b, w.sys.slots[r].0, r)
    requires Split(r, evs, ViewOf(w, r), w.sys.calls[r])
    ensures var (x, k) := w.sys.slots[r];
            && x in C.Do(w.sys, b).receivers
            && Moves(ViewOf(w, r), ViewAt(C.Do(w.sys, b), C.Do(w.sys, b).receivers[x], w.processes[x], k, r), HearsAll(w.sys.calls[r]))
  {
    hide W.Inv, C.Inv, C.Do, Split, Stays, Drops, Calls, Delivers, Takes, ViewAt;
    SameStreams(w);
    var (x, k) := w.sys.slots[r];
    if b.Take? {
      LoopStays(w.sys, b, x);
      TakeMoves(w.sys, w.sys.receivers[x], w.processes[x], k, r);
    } else if b.Handle? {
      HandledMoves(w.sys, x, w.processes[x], k, r, evs);
    } else {
      DealingIsOwn(w, b, x, r);
      if b.Deliver? {
        DeliveryMoves(w.sys, x, w.processes[x], k, r);
      } else {
        CallbackMoves(w.sys, x, w.processes[x], k, r);
      }
    }
  }

  lemma QuietMoves(w: W.World, b: C.Step, r: RequestId)
    requires W.Inv(w) && C.Enabled(w.sys, b) && Started(w, r) && !Deals(w.sys, b, w.sys.slots[r].0, r)
    requires !b.Arrive? && (b.Net? && b.step.Open? ==> b.step.x != w.sys.slots[r].0)
    ensures var (x, k) := w.sys.slots[r];
            && x in C.Do(w.sys, b).receivers
            && Stays(ViewOf(w, r), ViewAt(C.Do(w.sys, b), C.Do(w.sys, b).receivers[x], w.processes[x], k, r))
  {
    hide W.Inv, C.Inv, C.Do, C.Enabled, W.InHand, W.About, W.Rest, SysStays, Called;
    SameStreams(w);
    var (x, k) := w.sys.slots[r];
    SysStepStays(w.sys, b, r);
    if (b.Handle? || b.Deliver? || b.CallbackReturns? || b.Leave? || b.EndSession?) && b.x == x {
      LoopIsEnabled(w.sys, b);
      LoopOther(w.sys, b, x, r);
    } else {
      LoopStays(w.sys, b, x);
    }
    SameLoopStays(w.sys, C.Do(w.sys, b), w.sys.receivers[x], C.Do(w.sys, b).receivers[x], w.processes[x], w.processes[x], k, r);
  }

  lemma LoopIsEnabled(s: C.System, b: C.Step)
    requires C.Enabled(s, b) && (b.Handle? || b.Deliver? || b.CallbackReturns? || b.Leave? || b.EndSession?)
    ensures b.x in s.receivers && (b.Handle? ==> s.receivers[b.x].Handling?)
  {
  }

  lemma SysMoves(w: W.World, b: C.Step, r: RequestId, evs: seq<Event>)
    requires W.Inv(w) && C.Enabled(w.sys, b) && Started(w, r) && !b.Arrive? && (b.Net? && b.step.Open? ==> b.step.x != w.sys.slots[r].0)
    requires Split(r, evs, ViewOf(w, r), w.sys.calls[r])
    ensures var v := W.World(C.Do(w.sys, b), w.processes);
            && Started(v, r) && r in v.sys.calls && v.sys.calls[r] == w.sys.calls[r]
            && Moves(ViewOf(w, r), ViewOf(v, r), HearsAll(w.sys.calls[r]))
  {
    hide W.Inv, C.Inv, C.Do, C.Enabled, Split, Stays, Drops, Calls, Delivers, Takes, ViewAt, Deals;
    SameStreams(w);
    W.StepKeepsSlots(w.sys, b);
    CallStays(w.sys, b, r);
    if Deals(w.sys, b, w.sys.slots[r].0, r) {
      DealingMoves(w, b, r, evs);
    } else {
      QuietMoves(w, b, r);
    }
  }

  lemma CallStays(s: C.System, b: C.Step, r: RequestId)
    requires C.Enabled(s, b) && r in s.calls
    ensures r in C.Do(s, b).calls && C.Do(s, b).calls[r] == s.calls[r]
  {
    hide Streams.Do, Streams.Enabled, C.AfterHandling, C.PushCommand, C.TakeReply;
    if b.Begin? {
      BeginKeepsCall(s, b.r, b.h, b.command, b.onGuard, b.onChallenge, r);
    } else if b.Remove? {
      RemoveKeepsCall(s, b.r, r);
    } else if b.Push? {
      PushKeepsCalls(s, b.r);
    } else if b.Take? {
      TakeKeepsCalls(s, b.r);
    }
  }

  lemma BeginKeepsCall(s: C.System, q: RequestId, h: C.Handle, command: Command, onGuard: bool, onChallenge: bool, r: RequestId)
    requires q != r && r in s.calls
    ensures var t := C.BeginCall(s, q, h, command, onGuard, onChallenge); r in t.calls && t.calls[r] == s.calls[r]
  {
    hide Pending.AddLink;
  }

  lemma RemoveKeepsCall(s: C.System, q: RequestId, r: RequestId)
    requires q in s.calls && q in s.phases && s.phases[q].Returning? && r in s.calls
    ensures C.RemoveCall(s, q).calls == s.calls
  {
    hide Pending.RemoveLink;
  }

  lemma PushKeepsCalls(s: C.System, r: RequestId)
    requires C.InFlight(s, r) && s.phases[r].Sending?
    requires Streams.Enabled(s.net, Streams.Enqueue(s.phases[r].x, s.calls[r].command))
    ensures C.PushCommand(s, r).calls == s.calls
  {
    hide Streams.Do;
  }

  lemma TakeKeepsCalls(s: C.System, r: RequestId)
    requires C.InFlight(s, r) && C.Inbox(s, r) != []
    ensures C.TakeReply(s, r).calls == s.calls
  {
  }

  // ----- Steps of a process

  lemma SystemStays(s: C.System, r: RequestId)
    requires r in s.calls
    ensures SysStays(s, s, r)
  {
  }

  /** The process of r's stream puts an event in its outbox, or receives another command. */
  lemma ProcessMoves(w: W.World, y: StreamId, q: W.Process, r: RequestId)
    requires W.Inv(w) && Started(w, r) && y in w.processes && w.processes[y].taken <= q.taken
    requires y == w.sys.slots[r].0 ==>
               var (p, k) := (w.processes[y], w.sys.slots[r].1);
               W.About(q.outbox, r) + W.Rest(q, k) == W.About(p.outbox, r) + W.Rest(p, k)
    ensures var v := W.World(w.sys, w.processes[y := q]);
            Started(v, r) && Stays(ViewOf(w, r), ViewOf(v, r))
  {
    hide W.Inv, C.Inv, W.About, W.Rest, W.InHand, Called, SysStays;
    SameStreams(w);
    SystemStays(w.sys, r);
    var (x, k) := w.sys.slots[r];
    SameLoopStays(w.sys, w.sys, w.sys.receivers[x], w.sys.receivers[x], w.processes[x], w.processes[y := q][x], k, r);
  }

  lemma EmitMoves(w: W.World, y: StreamId, j: nat, r: RequestId)
    requires W.Inv(w) && W.Enabled(w, W.Emit(y, j)) && Started(w, r)
    ensures var v := W.Do(w, W.Emit(y, j)); Started(v, r) && Stays(ViewOf(w, r), ViewOf(v, r))
  {
    hide W.Inv, C.Inv, W.Upcoming, W.About, W.Rest, Stays, ViewAt, W.TokenAt;
    SameStreams(w);
    var (x, k) := w.sys.slots[r];
    var p := w.processes[y];
    if y == x {
      TokenHere(w, r);
      ThreadsHere(w, x);
      EmittedRest(w.sys, w.sys.receivers[x], x, p, j, k, r);
    }
    ProcessMoves(w, y, W.Emitted(p, j), r);
  }

  lemma TokenHere(w: W.World, r: RequestId)
    requires W.Inv(w) && Started(w, r)
    ensures C.InFlight(w.sys, r)
    ensures var (x, k) := w.sys.slots[r]; W.TokenAt(w.sys, w.sys.receivers[x], w.processes[x], k, r)
  {
    hide C.Inv, W.ProcessesOk, W.TokenAt;
    SlotInCalls(w, r);
    assert C.InFlight(w.sys, r) && W.Token(w, r);
    W.TokenOn(w, w.sys.slots[r].0, r);
  }

  lemma SlotInCalls(w: W.World, r: RequestId)
    requires W.Inv(w) && r in w.sys.slots
    ensures r in w.sys.calls
  {
    hide W.ProcessesOk, W.Tokens;
    W.SlotIsCall(w.sys, r);
  }

  lemma ThreadsHere(w: W.World, x: StreamId)
    requires W.Inv(w) && x in w.processes
    ensures W.ThreadsOf(w.sys.slots, x, w.processes[x])
  {
    hide C.Inv, W.Tokens, W.OriginOf, W.ThreadsOf;
    assert W.ProcessOk(w.sys, x, w.processes[x]);
  }

  lemma EmittedRest(s: C.System, v: C.Receiver, x: StreamId, p: W.Process, j: nat, k: nat, r: RequestId)
    requires C.InFlight(s, r) && W.TokenAt(s, v, p, k, r) && r in s.slots && s.slots[r] == (x, k) && W.ThreadsOf(s.slots, x, p)
    requires j in p.threads && p.threads[j].remaining != []
    ensures var q := W.Emitted(p, j); W.About(q.outbox, r) + W.Rest(q, k) == W.About(p.outbox, r) + W.Rest(p, k)
  {
    var ev := p.threads[j].remaining[0];
    var q := W.Emitted(p, j);
    assert Concerns(ev, p.threads[j].r) && s.slots[p.threads[j].r] == (x, j);
    if j == k {
      W.EmittingConcernsOwn(s, v, p, k, r);
      W.EmittedKeepsUpcoming(C.Listening, p, k, r);
    } else {
      if Concerns(ev, r) { W.ConcernsOne(ev, r, p.threads[j].r); }
      W.EmittedKeepsOthers(C.Listening, p, j, k, r);
    }
    hide W.TokenAt, W.ThreadsOf, W.About, W.Rest, Concerns;
    EmptyHand(C.Listening, p, k, r);
    EmptyHand(C.Listening, q, k, r);
  }

  lemma ReceiveMoves(w: W.World, y: StreamId, link: LinkRun, friends: FriendsRun, r: RequestId)
    requires W.Inv(w) && W.Enabled(w, W.TakeCommand(y, link, friends)) && Started(w, r)
    ensures var v := W.Do(w, W.TakeCommand(y, link, friends)); Started(v, r) && Stays(ViewOf(w, r), ViewOf(v, r))
  {
    hide W.Inv, C.Inv, W.About, Stays, ViewAt, LinkEvents, FriendsEvents;
    ProcessMoves(w, y, W.Received(w.processes[y], w.sys.net.streams[y].sent[w.processes[y].taken], link, friends), r);
  }

  lemma SendMoves(w: W.World, y: StreamId, r: RequestId)
    requires W.Inv(w) && W.Enabled(w, W.Send(y)) && Started(w, r)
    ensures var v := W.Do(w, W.Send(y));
            Started(v, r) && v.sys.calls == w.sys.calls && Stays(ViewOf(w, r), ViewOf(v, r))
  {
    hide W.Inv, C.Inv, C.Do, C.Enabled, W.About, Called, Concerns;
    SameStreams(w);
    var (x, k) := w.sys.slots[r];
    var p := w.processes[y];
    var b := C.Arrive(y, p.outbox[0]);
    var q := p.(outbox := p.outbox[1..]);
    var t := C.Do(w.sys, b);
    W.ArriveSets(w.sys, y, p.outbox[0]);
    SysStepStays(w.sys, b, r);
    if y == x {
      W.AboutCons(p.outbox, r);
      ArrivedStays(w.sys, t, p, q, p.outbox[0], k, r);
    } else {
      SameLoopStays(w.sys, t, w.sys.receivers[x], t.receivers[x], w.processes[x], w.processes[x], k, r);
    }
  }

  lemma ArrivedStays(s: C.System, t: C.System, p: W.Process, q: W.Process, ev: Event, k: nat, r: RequestId)
    requires SysStays(s, t, r) && W.Rest(q, k) == W.Rest(p, k)
    requires W.About(p.outbox, r) == W.OneAbout(ev, r) + W.About(q.outbox, r)
    ensures Stays(ViewAt(s, C.Listening, p, k, r), ViewAt(t, C.Handling(ev), q, k, r))
  {
    hide W.About, W.Rest, Called, Inbox, Answer;
    var (a, b, c) := (W.OneAbout(ev, r), W.About(q.outbox, r), W.Rest(q, k));
    assert W.InHand(C.Handling(ev), r) == a && W.InHand(C.Listening, r) == [];
    assert [] + (a + b) + c == a + b + c;
    hide W.InHand;
  }

  /** Every step moves the view of a request already started in one of these ways. */
  lemma StepMoves(w: W.World, a: W.Step, r: RequestId, evs: seq<Event>)
    requires W.Inv(w) && W.Enabled(w, a) && Started(w, r) && Split(r, evs, ViewOf(w, r), w.sys.calls[r])
    ensures var v := W.Do(w, a);
            && Started(v, r) && r in v.sys.calls && v.sys.calls[r] == w.sys.calls[r]
            && Moves(ViewOf(w, r), ViewOf(v, r), HearsAll(w.sys.calls[r]))
  {
    hide W.Inv, C.Inv, C.Do, C.Enabled, Split, Stays, Drops, Calls, Delivers, Takes, ViewAt;
    SameStreams(w);
    match a {
      case ControlPlane(b) => SysMoves(w, b, r, evs);
      case Connect(y) =>
        SysMoves(w, C.Net(Streams.Open(y)), r, evs);
        ConnectedElsewhere(w, y, r);
      case TakeCommand(y, link, friends) => ReceiveMoves(w, y, link, friends, r);
      case Emit(y, j) => EmitMoves(w, y, j, r);
      case Send(y) => SendMoves(w, y, r);
    }
  }

  lemma ConnectedElsewhere(w: W.World, y: StreamId, r: RequestId)
    requires W.Enabled(w, W.Connect(y)) && Started(W.World(C.Do(w.sys, C.Net(Streams.Open(y))), w.processes), r)
    ensures Started(W.Do(w, W.Connect(y)), r)
    ensures ViewOf(W.Do(w, W.Connect(y)), r) == ViewOf(W.World(C.Do(w.sys, C.Net(Streams.Open(y))), w.processes), r)
  {
    hide C.Do, C.Enabled, ViewAt;
  }

  // ----- A request starts

  /** Nothing has called back for a request whose command was not received. */
  ghost predicate UncalledOk(w: W.World) {
    forall r :: !Started(w, r) ==> Called(w.sys.callbacks, r) == []
  }

  lemma StartedStays(w: W.World, a: W.Step, r: RequestId)
    requires W.Inv(w) && W.Enabled(w, a) && Started(w, r)
    ensures Started(W.Do(w, a), r)
  {
    hide C.Inv, C.Do, C.Enabled, W.ProcessOk, W.Tokens;
    SameStreams(w);
    match a {
      case ControlPlane(b) => W.StepKeepsSlots(w.sys, b); ReceiversGrow(w.sys, b);
      case Connect(x) => W.StepKeepsSlots(w.sys, C.Net(Streams.Open(x))); ReceiversGrow(w.sys, C.Net(Streams.Open(x)));
      case Send(x) => W.ArriveSets(w.sys, x, w.processes[x].outbox[0]);
      case _ =>
    }
  }

  lemma ReceiversGrow(s: C.System, b: C.Step)
    requires C.Enabled(s, b)
    ensures s.receivers.Keys <= C.Do(s, b).receivers.Keys
  {
    hide Streams.Do, Streams.Enabled, C.AfterHandling, C.PushCommand;
    if b.Begin? {
      BeginKeepsLoops(s, b.r, b.h, b.command, b.onGuard, b.onChallenge);
    } else if b.Remove? {
      RemoveKeepsLoops(s, b.r);
    } else if b.Push? {
      PushKeepsLoops(s, b.r);
    }
  }

  lemma CallbacksOfOthers(s: C.System, b: C.Step)
    requires C.Enabled(s, b) && !b.CallbackReturns?
    ensures C.Do(s, b).callbacks == s.callbacks
  {
    hide Streams.Do, Streams.Enabled, C.AfterHandling;
    if b.Begin? {
      BeginCallbacks(s, b.r, b.h, b.command, b.onGuard, b.onChallenge);
    } else if b.Remove? {
      RemoveCallbacks(s, b.r);
    }
  }

  lemma BeginCallbacks(s: C.System, r: RequestId, h: C.Handle, command: Command, onGuard: bool, onChallenge: bool)
    ensures C.BeginCall(s, r, h, command, onGuard, onChallenge).callbacks == s.callbacks
  {
    hide Pending.AddLink;
  }

  lemma RemoveCallbacks(s: C.System, r: RequestId)
    requires r in s.calls && r in s.phases && s.phases[r].Returning?
    ensures C.RemoveCall(s, r).callbacks == s.callbacks
  {
    hide Pending.RemoveLink;
  }

  lemma CallbackIsStarted(w: W.World, x: StreamId, r: RequestId)
    requires W.Inv(w) && C.Enabled(w.sys, C.CallbackReturns(x)) && Concerns(w.sys.receivers[x].event, r)
    ensures Started(w, r)
  {
    hide W.Inv;
    HandIsOwn(w, x, r);
  }

  lemma UncalledKept(w: W.World, a: W.Step)
    requires W.Inv(w) && W.Enabled(w, a) && UncalledOk(w)
    ensures UncalledOk(W.Do(w, a))
  {
    hide W.Inv, C.Inv, C.Do, C.Enabled, Called, Concerns;
    var v := W.Do(w, a);
    forall r | !Started(v, r)
      ensures Called(v.sys.callbacks, r) == []
    {
      if Started(w, r) {
        StartedStays(w, a, r);
      }
      StepUncalled(w, a, r);
    }
  }

  lemma StepUncalled(w: W.World, a: W.Step, r: RequestId)
    requires W.Inv(w) && W.Enabled(w, a) && !Started(w, r) && Called(w.sys.callbacks, r) == []
    ensures Called(W.Do(w, a).sys.callbacks, r) == []
  {
    hide W.Inv, C.Inv, C.Enabled, Called, Started;
    match a {
      case ControlPlane(b) =>
        if b.CallbackReturns? {
          ReturnUncalled(w, b.x, r);
        } else {
          CallbacksOfOthers(w.sys, b);
          hide C.Do;
        }
      case Connect(x) => CallbacksOfOthers(w.sys, C.Net(Streams.Open(x))); hide C.Do;
      case Send(x) => CallbacksOfOthers(w.sys, C.Arrive(x, w.processes[x].outbox[0])); hide C.Do;
      case _ =>
    }
  }

  lemma ReturnUncalled(w: W.World, x: StreamId, r: RequestId)
    requires W.Inv(w) && C.Enabled(w.sys, C.CallbackReturns(x)) && !Started(w, r) && Called(w.sys.callbacks, r) == []
    ensures Called(C.Do(w.sys, C.CallbackReturns(x)).callbacks, r) == []
  {
    hide W.Inv, C.Do, Called, Concerns, Started;
    ReturnDone(w.sys, x);
    var v := w.sys.receivers[x];
    if Concerns(v.event, r) {
      CallbackIsStarted(w, x, r);
    }
    CalledMore(w.sys.callbacks, C.Callback(x, v.event, v.handle), r);
  }

  /** The events of the run chosen for a command, in full. */
  lemma ChosenSplits(w: W.World, a: W.Step, r: RequestId, reports: Reports)
    requires W.Inv(w) && W.Enabled(w, a) && UncalledOk(w) && !Started(w, r) && Started(W.Do(w, a), r)
    ensures r in w.sys.calls && r in W.Do(w, a).sys.calls && W.Do(w, a).sys.calls[r] == w.sys.calls[r]
    ensures var (v, chosen) := (W.Do(w, a), Choose(w, a, reports));
            r in chosen && Split(r, EventsOf(r, chosen[r]), ViewOf(v, r), v.sys.calls[r])
  {
    hide W.Inv, C.Inv, C.Do, C.Enabled, Called, ViewAt, Split, W.Received;
    StartsByTaking(w, a, r);
    var x := a.x;
    var p := w.processes[x];
    var command := w.sys.net.streams[x].sent[p.taken];
    NotUnderWay(w, x, r);
    var report := if command.LinkAccount? then LinkReport(a.link) else FriendsReport(a.friends);
    assert Choose(w, a, reports) == reports[r := report];
    StartSplits(w.sys, w.sys.receivers[x], p, command, a.link, a.friends, r, report);
  }

  /** Only the receipt of its command starts a request. */
  lemma StartsByTaking(w: W.World, a: W.Step, r: RequestId)
    requires W.Inv(w) && W.Enabled(w, a) && !Started(w, r) && Started(W.Do(w, a), r)
    ensures a.TakeCommand? && r in w.sys.slots && w.sys.slots[r] == (a.x, w.processes[a.x].taken) && a.x in w.sys.receivers
    ensures var command := w.sys.net.streams[a.x].sent[w.processes[a.x].taken];
            && IsRequest(command) && command.id == r && r in w.sys.calls && w.sys.calls[r].command == command
  {
    hide C.Inv, C.Do, C.Enabled, W.Inv;
    SameStreams(w);
    match a {
      case ControlPlane(b) => PushStartsNothing(w, b, r);
      case Connect(x) => PushStartsNothing(w, C.Net(Streams.Open(x)), r);
      case TakeCommand(x, _, _) => TakenIsCalls(w, x, r);
      case Emit(_, _) =>
      case Send(x) => W.ArriveSets(w.sys, x, w.processes[x].outbox[0]);
    }
  }

  /** A command accepted is behind everything its process has received. */
  lemma PushStartsNothing(w: W.World, b: C.Step, r: RequestId)
    requires W.Inv(w) && C.Enabled(w.sys, b) && r in C.Do(w.sys, b).slots
    ensures r in w.sys.slots ==> C.Do(w.sys, b).slots[r] == w.sys.slots[r]
    ensures r !in w.sys.slots ==>
              var (x, k) := C.Do(w.sys, b).slots[r]; x in w.processes && w.processes[x].taken <= k
  {
    hide C.Inv, C.Do, C.Enabled, W.Tokens, W.OriginOf, W.ThreadsOf;
    SameStreams(w);
    if b.Push? {
      W.PushAccepts(w.sys, b);
      var x := w.sys.phases[b.r].x;
      assert W.ProcessOk(w.sys, x, w.processes[x]);
      W.InvStreams(w.sys, x);
      hide Streams.Conserved;
    } else {
      W.SlotsOfOthers(w.sys, b);
    }
  }

  lemma TakenIsCalls(w: W.World, x: StreamId, r: RequestId)
    requires W.Inv(w) && x in w.processes && x in w.sys.net.streams && w.processes[x].taken < |w.sys.net.streams[x].sent|
    requires r in w.sys.slots && w.sys.slots[r] == (x, w.processes[x].taken)
    ensures var command := w.sys.net.streams[x].sent[w.processes[x].taken];
            && IsRequest(command) && command.id == r && r in w.sys.calls && w.sys.calls[r].command == command
  {
    hide C.Inv, W.ProcessesOk, W.Tokens;
    SlotInCalls(w, r);
    W.TakenCommandOwner(w.sys, x, w.processes[x].taken);
    W.SentAtSlot(w.sys, x, w.processes[x].taken);
    W.SlotCommand(w.sys, r);
  }

  /** Before that, nothing about it is anywhere. */
  lemma NotUnderWay(w: W.World, x: StreamId, r: RequestId)
    requires W.Inv(w) && x in w.processes && x in w.sys.receivers && r in w.sys.calls
    requires r in w.sys.slots && w.sys.slots[r] == (x, w.processes[x].taken)
    ensures W.InHand(w.sys.receivers[x], r) == [] && W.About(w.processes[x].outbox, r) == []
    ensures Inbox(w.sys, r) == [] && Answer(w.sys, r) == None
  {
    hide C.Inv, W.ProcessesOk, W.InHand, W.About, W.Rest;
    assert C.InFlight(w.sys, r) && W.Token(w, r);
    W.TokenOn(w, x, r);
    var (v, p) := (w.sys.receivers[x], w.processes[x]);
    assert W.Upcoming(v, p, p.taken, r) == [];
    assert |W.InHand(v, r)| + |W.About(p.outbox, r)| <= |W.Upcoming(v, p, p.taken, r)|;
    hide W.OneToken;
  }

  lemma StartSplits(s: C.System, v: C.Receiver, p: W.Process, command: Command, link: LinkRun, friends: FriendsRun,
                    r: RequestId, report: Report)
    requires r in s.calls && s.calls[r].command == command && IsRequest(command) && command.id == r
    requires W.InHand(v, r) == [] && W.About(p.outbox, r) == []
    requires Inbox(s, r) == [] && Answer(s, r) == None && Called(s.callbacks, r) == []
    requires report == if command.LinkAccount? then LinkReport(link) else FriendsReport(friends)
    ensures Split(r, EventsOf(r, report), ViewAt(s, v, W.Received(p, command, link, friends), p.taken, r), s.calls[r])
  {
    hide W.InHand, W.About, Called, Inbox, Answer, LinkEvents, FriendsEvents, RunShape;
    var q := W.Received(p, command, link, friends);
    var evs := EventsOf(r, report);
    RunsReportOnce(r, link, friends);
    KindOfRun(r, link, friends);
    assert W.Rest(q, p.taken) == evs && q.outbox == p.outbox;
    assert W.Upcoming(v, q, p.taken, r) == evs;
    assert evs[0..] == evs;
    assert !Busy(v, r);
  }

  lemma KindOfRun(r: RequestId, link: LinkRun, friends: FriendsRun)
    ensures var evs := LinkEvents(r, link); evs != [] && evs[|evs| - 1].Final? && evs[|evs| - 1].reply.LinkReply?
    ensures var evs := FriendsEvents(r, friends); |evs| == 1 && evs[0].Final? && evs[0].reply.FriendsReply?
  {
  }

  // ----- Every run

  /** Every request whose command a worker has received has its run, and what that run reports is
      split between what is to come, the callbacks and the reply. */
  ghost predicate AllSplit(w: W.World, reports: Reports) {
    forall r :: Started(w, r) ==>
      r in reports && r in w.sys.calls && Split(r, EventsOf(r, reports[r]), ViewOf(w, r), w.sys.calls[r])
  }

  lemma ChoiceIsNew(w: W.World, a: W.Step, reports: Reports, r: RequestId)
    requires W.Inv(w) && W.Enabled(w, a) && Started(w, r) && r in reports
    ensures r in Choose(w, a, reports) && Choose(w, a, reports)[r] == reports[r]
  {
    hide W.Inv, C.Inv, C.Enabled;
    if a.TakeCommand? {
      SameStreams(w);
      W.SentAtSlot(w.sys, a.x, w.processes[a.x].taken);
    }
  }

  lemma StepSplits(w: W.World, a: W.Step, reports: Reports)
    requires W.Inv(w) && W.Enabled(w, a) && UncalledOk(w) && AllSplit(w, reports)
    ensures AllSplit(W.Do(w, a), Choose(w, a, reports))
  {
    hide W.Inv, W.Do, W.Enabled, UncalledOk, Started, ViewOf, Split, Moves, EventsOf, Choose;
    var v := W.Do(w, a);
    forall r | Started(v, r)
      ensures r in Choose(w, a, reports) && r in v.sys.calls
      ensures Split(r, EventsOf(r, Choose(w, a, reports)[r]), ViewOf(v, r), v.sys.calls[r])
    {
      if Started(w, r) {
        ChoiceIsNew(w, a, reports, r);
        StepMoves(w, a, r, EventsOf(r, reports[r]));
        MovesKeepSplit(r, EventsOf(r, reports[r]), ViewOf(w, r), ViewOf(v, r), w.sys.calls[r]);
      } else {
        ChosenSplits(w, a, r, reports);
      }
    }
  }

  lemma {:induction false} RunSplits(w: W.World, steps: seq<W.Step>, v: W.World, reports: Reports)
    requires W.Inv(w) && UncalledOk(w) && AllSplit(w, reports) && W.Runs(w, steps, v)
    ensures W.Inv(v) && UncalledOk(v) && AllSplit(v, Chosen(w, steps, reports))
    decreases |steps|
  {
    hide W.Inv, W.Do, W.Enabled, UncalledOk, AllSplit, Choose;
    if steps != [] {
      W.StepKeepsInv(w, steps[0]);
      UncalledKept(w, steps[0]);
      StepSplits(w, steps[0], reports);
      RunSplits(W.Do(w, steps[0]), steps[1..], v, Choose(w, steps[0], reports));
    }
  }

  lemma ReachableSplit(steps: seq<W.Step>, w: W.World)
    requires W.Runs(W.EMPTY, steps, w)
    ensures W.Inv(w) && UncalledOk(w) && AllSplit(w, Chosen(W.EMPTY, steps, map[]))
  {
    hide W.Inv, W.Runs, Chosen, W.Enabled, Split;
    W.EmptyInv();
    NothingStarted();
    RunSplits(W.EMPTY, steps, w, map[]);
  }

  lemma NothingStarted()
    ensures UncalledOk(W.EMPTY) && AllSplit(W.EMPTY, map[])
  {
    hide Split;
  }

  // ----- What a caller gets

  /** The reply in which a run ends. */
  predicate IsReplyOf(reply: Reply, r: RequestId, report: Report) {
    match report
    case LinkReport(run) =>
      && (run.end.Ok? ==> reply == LinkReply(r, LinkOk(run.end.value.0, run.end.value.1)))
      && (run.end.Err? ==>
            reply == LinkReply(r, LinkError(if run.end.error.LoginError? then "LOGIN_FAILED" else "STEAM_ERROR")))
    case FriendsReport(run) =>
      && (run.end.Ok? ==> reply == FriendsReply(r, FriendsOk(run.end.value.0, run.end.value.1)))
      && (run.end.Err? ==>
            reply == FriendsReply(r, FriendsError(if run.end.error.SteamGuardRequired? then "STEAM_GUARD_REQUIRED"
                                                  else if run.end.error.LoginError? then "LOGIN_FAILED" else "STEAM_ERROR")))
  }

  /** The prompts of a run, first to last, as far as evs goes. */
  predicate ArePrompts(evs: seq<Event>, r: RequestId, prompts: seq<Prompt>) {
    && |evs| <= |prompts|
    && forall i :: 0 <= i < |evs| ==>
         match prompts[i]
         case GuardNeeded(kind) => evs[i] == Guard(r, kind)
         case QrUrl(url) => evs[i] == Challenge(r, url)
  }

  lemma LastIsReply(r: RequestId, report: Report)
    ensures var evs := EventsOf(r, report); evs != [] && evs[|evs| - 1].Final? && IsReplyOf(evs[|evs| - 1].reply, r, report)
  {
  }

  lemma FirstArePrompts(r: RequestId, run: LinkRun, n: nat)
    requires n <= |run.prompts|
    ensures |LinkEvents(r, run)| == |run.prompts| + 1 && ArePrompts(LinkEvents(r, run)[..n], r, run.prompts)
  {
    forall i | 0 <= i < n
      ensures LinkEvents(r, run)[..n][i] == PromptEvent(r, run.prompts[i])
    {
    }
  }

  lemma AnsweredIsStarted(w: W.World, r: RequestId)
    requires W.Inv(w) && r in w.sys.calls && (Answer(w.sys, r).Some? || Inbox(w.sys, r) != [])
    ensures Started(w, r)
  {
    hide C.Inv, W.ProcessesOk, W.OneToken, W.Upcoming;
    assert C.InFlight(w.sys, r) && W.Token(w, r);
  }

  /** In every run, a reply that a call returns is the reply of the run that its worker chose when
      it received the call's command: the very owner and token of a link, the very owner and list
      of friends. */
  lemma ReturnsTheRunsReply(steps: seq<W.Step>, w: W.World, r: RequestId)
    requires W.Runs(W.EMPTY, steps, w) && r in w.sys.phases && C.AnswerOf(w.sys.phases[r]).Some?
    ensures var reports := Chosen(W.EMPTY, steps, map[]);
            r in reports && IsReplyOf(C.AnswerOf(w.sys.phases[r]).value, r, reports[r])
  {
    hide W.Runs, W.Inv, C.Inv, Chosen, IsReplyOf, EventsOf, Started, InOrder, RunShape;
    ReachableSplit(steps, w);
    SameStreams(w);
    W.InvParts(w.sys);
    AnsweredIsStarted(w, r);
    var reports := Chosen(W.EMPTY, steps, map[]);
    LastIsReply(r, reports[r]);
    AnswerInView(w, r);
    assert Split(r, EventsOf(r, reports[r]), ViewOf(w, r), w.sys.calls[r]);
    hide AllSplit;
  }

  lemma AnswerInView(w: W.World, r: RequestId)
    requires Started(w, r)
    ensures ViewOf(w, r).answer == Answer(w.sys, r) && ViewOf(w, r).called == Called(w.sys.callbacks, r)
    ensures ViewOf(w, r).inbox == Inbox(w.sys, r)
  {
    hide W.Upcoming, Called, Busy;
  }

  /** In every run, the callbacks that have completed for a link that was given both are the
      prompts of its run, the first to the last, as far as they go, kinds and URLs included; and
      when the call has an answer in its channel or has returned one, they are all of them. */
  lemma PromptsAreTheRuns(steps: seq<W.Step>, w: W.World, r: RequestId)
    requires W.Runs(W.EMPTY, steps, w) && r in w.sys.calls
    requires w.sys.calls[r].command.LinkAccount? && w.sys.calls[r].onGuard && w.sys.calls[r].onChallenge
    ensures var (called, reports) := (Called(w.sys.callbacks, r), Chosen(W.EMPTY, steps, map[]));
            && (called != [] || Answer(w.sys, r).Some? || Inbox(w.sys, r) != [] ==> Started(w, r))
            && (Started(w, r) ==>
                  && r in reports && reports[r].LinkReport? && ArePrompts(called, r, reports[r].link.prompts)
                  && (Answer(w.sys, r).Some? || Inbox(w.sys, r) != [] ==> |called| == |reports[r].link.prompts|))
  {
    hide W.Runs, W.Inv, C.Inv, Chosen, Started, Called, RunShape, LinkEvents, FriendsEvents;
    var reports := Chosen(W.EMPTY, steps, map[]);
    ReachableSplit(steps, w);
    if Answer(w.sys, r).Some? || Inbox(w.sys, r) != [] {
      AnsweredIsStarted(w, r);
    }
    if Started(w, r) {
      var evs := EventsOf(r, reports[r]);
      AnswerInView(w, r);
      assert Split(r, evs, ViewOf(w, r), w.sys.calls[r]);
      CalledArePrompts(w, r, reports[r]);
    }
    hide AllSplit, ArePrompts;
  }

  lemma CalledArePrompts(w: W.World, r: RequestId, report: Report)
    requires Started(w, r) && r in w.sys.calls && w.sys.calls[r].command.LinkAccount? && HearsAll(w.sys.calls[r])
    requires Split(r, EventsOf(r, report), ViewOf(w, r), w.sys.calls[r])
    ensures report.LinkReport? && ArePrompts(ViewOf(w, r).called, r, report.link.prompts)
    ensures ViewOf(w, r).answer.Some? || ViewOf(w, r).inbox != [] ==> |ViewOf(w, r).called| == |report.link.prompts|
  {
    hide ViewOf;
    var v := ViewOf(w, r);
    KindOfRun(r, if report.LinkReport? then report.link else LinkRun([], Err(OtherFailure(""))),
              if report.FriendsReport? then report.friends else FriendsRun(Err(OtherFailure(""))));
    FirstArePrompts(r, report.link, 0);
    FirstArePrompts(r, report.link, |v.called|);
  }
}
