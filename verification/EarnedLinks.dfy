/** What a login owes its Steam Guard code (worker/steam_client.py, begin_credentials_link): a
    login that asked for a code reports success only after it took one. Over every run of
    Platform, for the reply wherever it is: with the worker, on the stream, in the control plane,
    or stored as an account's token. */
module EarnedLinks {
  import opened Wrappers
  import opened Messages
  import A = Accounts
  import C = Correlation
  import Credentials
  import Crypto
  import G = GuardHandoff
  import L = AccountLinks
  import LS = LinkStack
  import P = PasswordHash
  import PL = Platform
  import Replies
  import Streams
  import W = WorkerStream
  import WorkerAgent

  type StreamId = C.StreamId
  type Processes = map<StreamId, W.Process>
  type Guards = map<StreamId, G.System>

  /** The run of r is over, and its wait for a code, if it had one, returned one. */
  predicate EarnedBy(slots: C.Slots, processes: Processes, guards: Guards, r: RequestId) {
    && r in slots && slots[r].0 in processes && slots[r].0 in guards
    && slots[r].1 < processes[slots[r].0].taken && W.Rest(processes[slots[r].0], slots[r].1) == []
    && (r in guards[slots[r].0].waiters ==> guards[slots[r].0].waiters[r].Returned?)
  }

  predicate Earned(slots: C.Slots, processes: Processes, guards: Guards, reply: Reply) {
    reply.LinkReply? && reply.link.LinkOk? ==> EarnedBy(slots, processes, guards, reply.requestId)
  }

  function IsEarned(slots: C.Slots, processes: Processes, guards: Guards): Reply -> bool {
    reply => Earned(slots, processes, guards, reply)
  }

  predicate GoodFinal(good: Reply -> bool, ev: Event) {
    ev.Final? ==> good(ev.reply)
  }

  ghost predicate GoodOutbox(good: Reply -> bool, outbox: seq<Event>) {
    forall i :: 0 <= i < |outbox| ==> GoodFinal(good, outbox[i])
  }

  ghost predicate GoodOutboxes(good: Reply -> bool, processes: Processes) {
    forall x :: x in processes ==> GoodOutbox(good, processes[x].outbox)
  }

  /** Every reply of success, in the control plane or in an outbox, is earned. */
  ghost predicate AllEarned(w: W.World, guards: Guards) {
    var good := IsEarned(w.sys.slots, w.processes, guards);
    Replies.All(good, w.sys) && GoodOutboxes(good, w.processes)
  }

  // ----- What is earned stays earned

  /** A process and its guard-code field move on: runs that are over stay over, codes that were
      returned stay returned, and only a run that is not over starts to wait. */
  ghost predicate MovesOn(slots: C.Slots, x: StreamId, p: W.Process, g: G.System, q: W.Process, h: G.System) {
    && p.taken <= q.taken
    && (forall k: nat :: k < p.taken && W.Rest(p, k) == [] ==> W.Rest(q, k) == [])
    && (forall r :: r in g.waiters && g.waiters[r].Returned? ==> r in h.waiters && h.waiters[r].Returned?)
    && (forall r :: r in h.waiters && r !in g.waiters ==> r in slots && slots[r].0 == x && W.Rest(p, slots[r].1) != [])
  }

  ghost predicate AllMoveOn(slots: C.Slots, processes: Processes, guards: Guards, processes': Processes, guards': Guards) {
    forall x :: x in processes && x in guards ==>
      x in processes' && x in guards' && MovesOn(slots, x, processes[x], guards[x], processes'[x], guards'[x])
  }

  lemma StaysEarned(slots: C.Slots, processes: Processes, guards: Guards,
                    slots': C.Slots, processes': Processes, guards': Guards, r: RequestId)
    requires EarnedBy(slots, processes, guards, r) && W.SlotsStay(slots, slots')
    requires AllMoveOn(slots, processes, guards, processes', guards')
    ensures EarnedBy(slots', processes', guards', r)
  {
    hide W.Rest;
    var (x, k) := slots[r];
    assert MovesOn(slots, x, processes[x], guards[x], processes'[x], guards'[x]);
  }

  lemma EarnedRepliesStay(w: W.World, guards: Guards, v: W.World, guards': Guards)
    requires W.SlotsStay(w.sys.slots, v.sys.slots) && AllMoveOn(w.sys.slots, w.processes, guards, v.processes, guards')
    requires Replies.All(IsEarned(w.sys.slots, w.processes, guards), v.sys)
    ensures Replies.All(IsEarned(v.sys.slots, v.processes, guards'), v.sys)
    ensures forall reply :: IsEarned(w.sys.slots, w.processes, guards)(reply) ==> IsEarned(v.sys.slots, v.processes, guards')(reply)
  {
    hide W.SlotsStay, AllMoveOn, EarnedBy, Replies.All;
    var good, good' := IsEarned(w.sys.slots, w.processes, guards), IsEarned(v.sys.slots, v.processes, guards');
    forall reply | good(reply)
      ensures good'(reply)
    {
      if reply.LinkReply? && reply.link.LinkOk? {
        StaysEarned(w.sys.slots, w.processes, guards, v.sys.slots, v.processes, guards', reply.requestId);
      }
    }
    Replies.Weaken(good, good', v.sys);
  }

  lemma WeakerOutboxes(good: Reply -> bool, better: Reply -> bool, processes: Processes)
    requires GoodOutboxes(good, processes) && forall reply :: good(reply) ==> better(reply)
    ensures GoodOutboxes(better, processes)
  {
  }

  /** A step that puts nothing new into an outbox. */
  lemma QuietlyMovedOn(w: W.World, guards: Guards, v: W.World, guards': Guards)
    requires W.SlotsStay(w.sys.slots, v.sys.slots) && AllMoveOn(w.sys.slots, w.processes, guards, v.processes, guards')
    requires Replies.All(IsEarned(w.sys.slots, w.processes, guards), v.sys)
    requires GoodOutboxes(IsEarned(w.sys.slots, w.processes, guards), v.processes)
    ensures AllEarned(v, guards')
  {
    hide W.SlotsStay, AllMoveOn, Replies.All, GoodOutboxes, Earned;
    EarnedRepliesStay(w, guards, v, guards');
    WeakerOutboxes(IsEarned(w.sys.slots, w.processes, guards), IsEarned(v.sys.slots, v.processes, guards'), v.processes);
  }

  lemma Unmoved(slots: C.Slots, processes: Processes, guards: Guards)
    ensures AllMoveOn(slots, processes, guards, processes, guards)
  {
  }

  /** One process, or its field, moves on. */
  lemma OneMovesOn(slots: C.Slots, processes: Processes, guards: Guards, x: StreamId, q: W.Process, h: G.System)
    requires x in processes && x in guards && MovesOn(slots, x, processes[x], guards[x], q, h)
    ensures AllMoveOn(slots, processes, guards, processes[x := q], guards[x := h])
  {
    hide MovesOn;
    forall y | y in processes && y in guards && y != x
      ensures MovesOn(slots, y, processes[y], guards[y], processes[y], guards[y])
    {
      StaysAsIs(slots, y, processes[y], guards[y]);
    }
  }

  lemma StaysAsIs(slots: C.Slots, x: StreamId, p: W.Process, g: G.System)
    ensures MovesOn(slots, x, p, g, p, g)
  {
  }

  lemma SameSlots(slots: C.Slots)
    ensures W.SlotsStay(slots, slots)
  {
  }

  lemma OutboxReplaced(good: Reply -> bool, processes: Processes, x: StreamId, q: W.Process)
    requires GoodOutboxes(good, processes) && GoodOutbox(good, q.outbox)
    ensures GoodOutboxes(good, processes[x := q])
  {
    hide GoodOutbox;
  }

  lemma OutboxAt(good: Reply -> bool, processes: Processes, x: StreamId)
    requires GoodOutboxes(good, processes) && x in processes
    ensures GoodOutbox(good, processes[x].outbox)
  {
    hide GoodOutbox;
  }

  // ----- Steps of the control plane, and a new connection

  lemma SysStepEarns(w: W.World, guards: Guards, b: C.Step, v: W.World)
    requires AllEarned(w, guards) && C.Inv(w.sys) && C.Enabled(w.sys, b) && !b.Arrive? && v == W.World(C.Do(w.sys, b), w.processes)
    ensures AllEarned(v, guards)
  {
    hide C.Inv, C.Enabled, C.Do, W.SlotsStay, Replies.All, GoodOutboxes, AllMoveOn, Earned;
    W.StepKeepsSlots(w.sys, b);
    Replies.StaysGood(IsEarned(w.sys.slots, w.processes, guards), w.sys, b);
    Unmoved(w.sys.slots, w.processes, guards);
    QuietlyMovedOn(w, guards, v, guards);
  }

  lemma ConnectEarns(w: W.World, guards: Guards, x: StreamId)
    requires AllEarned(w, guards) && C.Inv(w.sys) && W.Enabled(w, W.Connect(x)) && guards.Keys == w.processes.Keys
    ensures AllEarned(W.Do(w, W.Connect(x)), guards[x := G.EMPTY])
  {
    hide C.Inv, C.Enabled, C.Do, W.SlotsStay, Replies.All, GoodOutboxes, Earned, MovesOn;
    var b := C.Net(Streams.Open(x));
    var v := W.World(C.Do(w.sys, b), w.processes[x := W.CONNECTED]);
    var good := IsEarned(w.sys.slots, w.processes, guards);
    W.StepKeepsSlots(w.sys, b);
    Replies.StaysGood(good, w.sys, b);
    forall y | y in w.processes && y in guards
      ensures y in v.processes && MovesOn(w.sys.slots, y, w.processes[y], guards[y], v.processes[y], guards[x := G.EMPTY][y])
    {
      StaysAsIs(w.sys.slots, y, w.processes[y], guards[y]);
    }
    ConnectedOutbox(good);
    OutboxReplaced(good, w.processes, x, W.CONNECTED);
    QuietlyMovedOn(w, guards, v, guards[x := G.EMPTY]);
  }

  lemma ConnectedOutbox(good: Reply -> bool)
    ensures GoodOutbox(good, W.CONNECTED.outbox)
  {
  }

  // ----- Steps of a worker

  lemma SendEarns(w: W.World, guards: Guards, x: StreamId)
    requires AllEarned(w, guards) && C.Inv(w.sys) && W.Enabled(w, W.Send(x)) && x in guards
    ensures AllEarned(W.Do(w, W.Send(x)), guards)
  {
    hide C.Inv, C.Enabled, C.Do, W.SlotsStay, Replies.All, GoodOutboxes, Earned, MovesOn, AllMoveOn;
    var p := w.processes[x];
    var q := p.(outbox := p.outbox[1..]);
    var b := C.Arrive(x, p.outbox[0]);
    var good := IsEarned(w.sys.slots, w.processes, guards);
    OutboxAt(good, w.processes, x);
    W.StepKeepsSlots(w.sys, b);
    assert GoodFinal(good, p.outbox[0]);
    Replies.StaysGood(good, w.sys, b);
    SentMovesOn(w.sys.slots, x, p, guards[x]);
    OneMovesOn(w.sys.slots, w.processes, guards, x, q, guards[x]);
    assert guards[x := guards[x]] == guards;
    OutboxReplaced(good, w.processes, x, q);
    QuietlyMovedOn(w, guards, W.World(C.Do(w.sys, b), w.processes[x := q]), guards);
  }

  lemma SentMovesOn(slots: C.Slots, x: StreamId, p: W.Process, g: G.System)
    requires p.outbox != []
    ensures MovesOn(slots, x, p, g, p.(outbox := p.outbox[1..]), g)
  {
  }

  /** A step of the process at x, or of its field, that leaves the outbox alone. */
  lemma ProcessStepEarns(w: W.World, guards: Guards, x: StreamId, q: W.Process, h: G.System)
    requires AllEarned(w, guards) && x in w.processes && x in guards
    requires MovesOn(w.sys.slots, x, w.processes[x], guards[x], q, h) && q.outbox == w.processes[x].outbox
    ensures AllEarned(W.World(w.sys, w.processes[x := q]), guards[x := h])
  {
    hide W.SlotsStay, Replies.All, GoodOutboxes, Earned, MovesOn, AllMoveOn;
    var good := IsEarned(w.sys.slots, w.processes, guards);
    OutboxAt(good, w.processes, x);
    OutboxReplaced(good, w.processes, x, q);
    OneMovesOn(w.sys.slots, w.processes, guards, x, q, h);
    SameSlots(w.sys.slots);
    QuietlyMovedOn(w, guards, W.World(w.sys, w.processes[x := q]), guards[x := h]);
  }

  lemma ReceivedMovesOn(slots: C.Slots, x: StreamId, p: W.Process, g: G.System, h: G.System, command: Command,
                        link: WorkerAgent.LinkRun, friends: WorkerAgent.FriendsRun)
    requires h.waiters == g.waiters
    ensures MovesOn(slots, x, p, g, W.Received(p, command, link, friends), h)
  {
    hide WorkerAgent.LinkEvents, WorkerAgent.FriendsEvents;
  }

  lemma GuardStepMovesOn(slots: C.Slots, x: StreamId, p: W.Process, g: G.System, b: G.Step)
    requires G.Enabled(g, b) && !b.Prompt?
    ensures MovesOn(slots, x, p, g, p, G.Do(g, b))
    ensures b.WriteCode? ==> G.Do(g, b).waiters == g.waiters
  {
    PL.GuardStepFrame(g, b);
  }

  /** A prompt finds its run not over yet, and leaves the others alone. */
  lemma PromptMovesOn(slots: C.Slots, x: StreamId, p: W.Process, g: G.System, k: nat, r: RequestId)
    requires W.ThreadsOf(slots, x, p) && k in p.threads && p.threads[k].remaining != [] && p.threads[k].remaining[0].Guard?
    requires r == p.threads[k].remaining[0].id && G.Enabled(g, G.Prompt(r))
    ensures MovesOn(slots, x, p, g, W.Emitted(p, k), G.Do(g, G.Prompt(r)))
  {
    assert Concerns(p.threads[k].remaining[0], p.threads[k].r);
    assert slots[r] == (x, k);
  }

  /** An event of a run leaves the runs that are over alone. */
  lemma EmitMovesOn(slots: C.Slots, x: StreamId, p: W.Process, g: G.System, k: nat)
    requires k in p.threads && p.threads[k].remaining != []
    ensures MovesOn(slots, x, p, g, W.Emitted(p, k), g)
  {
  }

  lemma OutboxGrows(good: Reply -> bool, outbox: seq<Event>, ev: Event)
    requires GoodOutbox(good, outbox) && GoodFinal(good, ev)
    ensures GoodOutbox(good, outbox + [ev])
  {
  }

  /** What is emitted next is the last of its run, if it is the final reply. */
  lemma FinalEndsRun(w: W.World, x: StreamId, k: nat)
    requires W.Inv(w) && x in w.processes && k in w.processes[x].threads && w.processes[x].threads[k].remaining != []
    requires w.processes[x].threads[k].remaining[0].Final?
    ensures var (p, r) := (w.processes[x], w.processes[x].threads[k].r);
            && p.threads[k].remaining[1..] == [] && p.threads[k].remaining[0].reply.requestId == r
            && r in w.sys.slots && w.sys.slots[r] == (x, k) && k < p.taken
  {
    var p := w.processes[x];
    var r := p.threads[k].r;
    PL.ThreadsHere(w, x);
    assert Concerns(p.threads[k].remaining[0], r);
    hide C.Inv, W.Inv, W.Token, W.Tokens, W.ProcessOk, W.Upcoming;
    W.InvParts(w.sys);
    TokenOf(w, r);
    W.TokenOn(w, x, r);
    W.TokenParts(w.sys, w.sys.receivers[x], p, k, r);
    FinalIsLast(w.sys.receivers[x], p, k, r, C.Inbox(w.sys, r), W.Answered(w.sys, r));
  }

  lemma TokenOf(w: W.World, r: RequestId)
    requires W.Inv(w) && r in w.sys.calls
    ensures C.InFlight(w.sys, r) && W.Token(w, r)
  {
    hide C.Inv, W.ProcessesOk, W.Token;
  }

  lemma FinalIsLast(v: C.Receiver, p: W.Process, k: nat, r: RequestId, inbox: seq<Reply>, answered: bool)
    requires W.OneToken(r, W.Upcoming(v, p, k, r), inbox, answered)
    requires k in p.threads && p.threads[k].remaining != [] && p.threads[k].remaining[0].Final?
    ensures p.threads[k].remaining[1..] == []
  {
    var before := W.InHand(v, r) + W.About(p.outbox, r);
    var all := W.Upcoming(v, p, k, r);
    assert all == before + p.threads[k].remaining;
    assert all[|before|] == p.threads[k].remaining[0];
    hide W.InHand, W.About;
  }

  /** A run puts its next event, earned if it is a reply of success, in the outbox. */
  lemma EventEarns(w: W.World, guards: Guards, x: StreamId, k: nat, h: G.System)
    requires x in w.processes && x in guards && k in w.processes[x].threads && w.processes[x].threads[k].remaining != []
    requires AllEarned(w, guards) && MovesOn(w.sys.slots, x, w.processes[x], guards[x], W.Emitted(w.processes[x], k), h)
    requires GoodFinal(IsEarned(w.sys.slots, w.processes[x := W.Emitted(w.processes[x], k)], guards[x := h]),
                       w.processes[x].threads[k].remaining[0])
    ensures AllEarned(W.World(w.sys, w.processes[x := W.Emitted(w.processes[x], k)]), guards[x := h])
  {
    hide W.SlotsStay, Replies.All, GoodOutboxes, GoodOutbox, GoodFinal, Earned, MovesOn, AllMoveOn, W.Emitted;
    var p := w.processes[x];
    var q := W.Emitted(p, k);
    var v := W.World(w.sys, w.processes[x := q]);
    var good, good' := IsEarned(w.sys.slots, w.processes, guards), IsEarned(w.sys.slots, v.processes, guards[x := h]);
    OneMovesOn(w.sys.slots, w.processes, guards, x, q, h);
    SameSlots(w.sys.slots);
    EarnedRepliesStay(w, guards, v, guards[x := h]);
    WeakerOutboxes(good, good', w.processes);
    OutboxAt(good', w.processes, x);
    EmittedOutbox(p, k);
    OutboxGrows(good', p.outbox, p.threads[k].remaining[0]);
    OutboxReplaced(good', w.processes, x, q);
  }

  lemma EmitEarns(w: W.World, guards: Guards, x: StreamId, k: nat)
    requires W.Enabled(w, W.Emit(x, k)) && x in guards && PL.MayReport(guards[x], w.processes[x].threads[k].remaining[0])
    requires AllEarned(w, guards) && W.Inv(w)
    ensures AllEarned(W.Do(w, W.Emit(x, k)), guards)
  {
    hide W.Inv, AllEarned, GoodFinal, MovesOn, W.Emitted, W.Enabled, W.Do, PL.MayReport;
    PL.EmittedWorld(w, x, k);
    EmitMovesOn(w.sys.slots, x, w.processes[x], guards[x], k);
    ReportIsEarned(w, guards, x, k);
    assert guards[x := guards[x]] == guards;
    EventEarns(w, guards, x, k, guards[x]);
  }

  lemma EmittedOutbox(p: W.Process, k: nat)
    requires k in p.threads && p.threads[k].remaining != []
    ensures W.Emitted(p, k).outbox == p.outbox + [p.threads[k].remaining[0]]
  {
  }

  lemma ReportIsEarned(w: W.World, guards: Guards, x: StreamId, k: nat)
    requires W.Inv(w) && x in w.processes && k in w.processes[x].threads && w.processes[x].threads[k].remaining != []
    requires x in guards && PL.MayReport(guards[x], w.processes[x].threads[k].remaining[0])
    ensures GoodFinal(IsEarned(w.sys.slots, w.processes[x := W.Emitted(w.processes[x], k)], guards), w.processes[x].threads[k].remaining[0])
  {
    hide W.Inv;
    if w.processes[x].threads[k].remaining[0].Final? {
      FinalEndsRun(w, x, k);
    }
  }

  // ----- Every run

  lemma WorkerStepEarns(c: A.Setup, s: PL.State, a: PL.Step)
    requires W.Inv(s.world) && C.Inv(s.world.sys) && s.guards.Keys == s.world.processes.Keys && AllEarned(s.world, s.guards)
    requires PL.Enabled(c, s, a) && (a.Connect? || a.Emit? || a.Send?)
    ensures AllEarned(PL.WorldAfter(c, s, a), PL.GuardsAfter(c, s, a))
  {
    hide W.Inv, C.Inv, AllEarned, W.Do, C.Enabled, PL.MayReport;
    match a {
      case Connect(x) => ConnectEarns(s.world, s.guards, x);
      case Send(x) => SendEarns(s.world, s.guards, x);
      case Emit(x, k) => EmitEarns(s.world, s.guards, x, k);
    }
  }

  lemma TakeEarns(c: A.Setup, s: PL.State, a: PL.Step)
    requires AllEarned(s.world, s.guards) && PL.Enabled(c, s, a) && (a.TakeCommand? || a.TakeGuardCode?)
    ensures AllEarned(PL.WorldAfter(c, s, a), PL.GuardsAfter(c, s, a))
  {
    hide AllEarned, G.Do, G.Enabled, W.Received, MovesOn, PL.Genuine;
    var x := a.x;
    var (p, command) := (s.world.processes[x], PL.NextCommand(s, x));
    if a.TakeCommand? {
      ReceivedMovesOn(s.world.sys.slots, x, p, s.guards[x], s.guards[x], command, a.link, a.friends);
      ReceivedOutbox(p, command, a.link, a.friends);
      ProcessStepEarns(s.world, s.guards, x, W.Received(p, command, a.link, a.friends), s.guards[x]);
      assert s.guards[x := s.guards[x]] == s.guards;
    } else {
      var h := G.Do(s.guards[x], PL.Submitting(s, x));
      GuardStepMovesOn(s.world.sys.slots, x, p, s.guards[x], PL.Submitting(s, x));
      ReceivedMovesOn(s.world.sys.slots, x, p, s.guards[x], h, command, PL.NO_LINK, PL.NO_FRIENDS);
      ReceivedOutbox(p, command, PL.NO_LINK, PL.NO_FRIENDS);
      ProcessStepEarns(s.world, s.guards, x, W.Received(p, command, PL.NO_LINK, PL.NO_FRIENDS), h);
    }
  }

  lemma ReceivedOutbox(p: W.Process, command: Command, link: WorkerAgent.LinkRun, friends: WorkerAgent.FriendsRun)
    ensures W.Received(p, command, link, friends).outbox == p.outbox
  {
  }

  lemma GuardEarns(c: A.Setup, s: PL.State, a: PL.Step)
    requires s.guards.Keys == s.world.processes.Keys
    requires AllEarned(s.world, s.guards) && PL.Enabled(c, s, a) && (a.Guard? || a.App?)
    ensures AllEarned(PL.WorldAfter(c, s, a), PL.GuardsAfter(c, s, a))
  {
    hide AllEarned, G.Do, G.Enabled, MovesOn, A.Enabled;
    if a.Guard? {
      GuardStepMovesOn(s.world.sys.slots, a.x, s.world.processes[a.x], s.guards[a.x], a.g);
      ProcessStepEarns(s.world, s.guards, a.x, s.world.processes[a.x], G.Do(s.guards[a.x], a.g));
      assert s.world.processes[a.x := s.world.processes[a.x]] == s.world.processes;
    }
  }

  lemma PromptAfter(c: A.Setup, s: PL.State, a: PL.Step)
    requires PL.Enabled(c, s, a) && a.Prompt?
    ensures var (x, r) := (a.x, PL.NextEvent(s, a.x, a.k).id);
            && G.Enabled(s.guards[x], G.Prompt(r)) && PL.GuardsAfter(c, s, a) == s.guards[x := G.Do(s.guards[x], G.Prompt(r))]
            && PL.WorldAfter(c, s, a) == W.World(s.world.sys, s.world.processes[x := W.Emitted(s.world.processes[x], a.k)])
  {
    hide G.Do, G.Enabled, W.Emitted;
  }

  lemma PromptEarns(c: A.Setup, s: PL.State, a: PL.Step)
    requires PL.Enabled(c, s, a) && a.Prompt?
    requires W.Inv(s.world) && AllEarned(s.world, s.guards)
    ensures AllEarned(PL.WorldAfter(c, s, a), PL.GuardsAfter(c, s, a))
  {
    hide W.Inv, C.Inv, W.ThreadsOf, AllEarned, MovesOn, W.Emitted, W.Do, G.Do, G.Enabled, PL.WorldAfter, PL.GuardsAfter;
    PromptAfter(c, s, a);
    PL.ThreadsHere(s.world, a.x);
    var r := PL.NextEvent(s, a.x, a.k).id;
    PromptMovesOn(s.world.sys.slots, a.x, s.world.processes[a.x], s.guards[a.x], a.k, r);
    EventEarns(s.world, s.guards, a.x, a.k, G.Do(s.guards[a.x], G.Prompt(r)));
  }

  lemma ControlPlaneEarns(c: A.Setup, s: PL.State, a: PL.Step)
    requires C.Inv(s.world.sys) && AllEarned(s.world, s.guards) && PL.Enabled(c, s, a)
    requires a.Net? || a.AskWorker? || a.LinkReturns? || a.AskFriends? || a.FriendsReturn?
    ensures AllEarned(PL.WorldAfter(c, s, a), PL.GuardsAfter(c, s, a))
  {
    hide C.Inv, C.Do, C.Enabled, AllEarned, A.Enabled, L.Enabled, LS.Enabled, LS.Routed, LS.UsedRequest, PL.WorldAfter, PL.GuardsAfter;
    PL.SysStepAlone(c, s, a);
    SysStepEarns(s.world, s.guards, PL.WorldStep(c, s, a).value.step, PL.WorldAfter(c, s, a));
  }

  lemma StepKeepsEarned(c: A.Setup, s: PL.State, a: PL.Step)
    requires P.Lawful(c.creds.pr) && PL.Inv(c, s) && L.Known(s.app.links) && PL.Enabled(c, s, a) && AllEarned(s.world, s.guards)
    ensures var t := PL.Do(c, s, a); AllEarned(t.world, t.guards)
  {
    hide P.Lawful, PL.PartsReachable, PL.GoodWorld, PL.AskedOk, PL.GuardsOk, L.Known, PL.Enabled, W.Inv, C.Inv, AllEarned,
         PL.WorldAfter, PL.GuardsAfter, PL.AppAfter, PL.AskedAfter;
    PL.InvSys(c, s);
    PL.GuardsAreProcesses(s.world, s.guards);
    match a {
      case Connect(_) => WorkerStepEarns(c, s, a);
      case Emit(_, _) => WorkerStepEarns(c, s, a);
      case Send(_) => WorkerStepEarns(c, s, a);
      case TakeCommand(_, _, _) => TakeEarns(c, s, a);
      case TakeGuardCode(_) => TakeEarns(c, s, a);
      case Prompt(_, _) => PromptEarns(c, s, a);
      case Guard(_, _) => GuardEarns(c, s, a);
      case App(_) => GuardEarns(c, s, a);
      case _ => ControlPlaneEarns(c, s, a);
    }
  }

  lemma {:induction false} RunKeepsEarned(c: A.Setup, s: PL.State, steps: seq<PL.Step>, t: PL.State)
    requires Credentials.Sound(c.creds) && PL.Inv(c, s) && PL.Runs(c, s, steps, t) && AllEarned(s.world, s.guards)
    ensures AllEarned(t.world, t.guards)
    decreases |steps|
  {
    hide P.Lawful, P.CollisionFree, Crypto.Lawful, PL.Inv, L.Known, PL.Do, PL.Enabled, AllEarned;
    if steps != [] {
      StepKeepsEarned(c, s, steps[0]);
      PL.StepKeepsInv(c, s, steps[0]);
      RunKeepsEarned(c, PL.Do(c, s, steps[0]), steps[1..], t);
    }
  }

  lemma ReachableEarned(c: A.Setup, s: PL.State)
    requires Credentials.Sound(c.creds) && PL.Reachable(c, s)
    ensures AllEarned(s.world, s.guards)
  {
    hide P.Lawful, P.CollisionFree, Crypto.Lawful, PL.Inv, PL.Runs;
    var steps :| PL.Runs(c, PL.EMPTY, steps, s);
    PL.EmptyInv(c);
    assert AllEarned(PL.EMPTY.world, PL.EMPTY.guards);
    hide AllEarned;
    RunKeepsEarned(c, PL.EMPTY, steps, s);
  }

  // ----- What holds in every run

  lemma EarnedPhases(w: W.World, guards: Guards, r: RequestId)
    requires AllEarned(w, guards) && r in w.sys.phases && C.AnswerOf(w.sys.phases[r]).Some?
    ensures Earned(w.sys.slots, w.processes, guards, C.AnswerOf(w.sys.phases[r]).value)
  {
    hide Replies.GoodReceivers, Replies.GoodBuffers, GoodOutboxes, Earned;
    assert IsEarned(w.sys.slots, w.processes, guards)(C.AnswerOf(w.sys.phases[r]).value);
  }

  /** No other process knows the login. */
  lemma WaitsOnItsProcess(c: A.Setup, s: PL.State, x: StreamId, r: RequestId)
    requires Credentials.Sound(c.creds) && PL.Reachable(c, s) && x in s.guards && r in s.guards[x].waiters
    ensures r in s.world.sys.slots && s.world.sys.slots[r].0 == x
  {
    hide P.Lawful, P.CollisionFree, Crypto.Lawful, PL.Reachable, PL.Inv, PL.GuardOk, G.Reachable;
    PL.ReachableInv(c, s);
    PL.ReachableInParts(c, s);
    PL.GuardsHere(c, s, x);
    PL.GuardParts(s.world.sys.slots, s.world.sys.net.streams[x].sent, x, s.world.processes[x], s.guards[x]);
    hide PL.LoginsOk, PL.CodesCame;
  }

  /** A link call that returns a token to a login that asked, on whatever worker, for a code
      returns it after that login took a code: one submitted to that worker, not empty, and the
      latest when the login looked. */
  lemma SuccessTookACode(c: A.Setup, s: PL.State, x: StreamId, r: RequestId)
    requires Credentials.Sound(c.creds) && PL.Reachable(c, s)
    requires r in s.world.sys.phases && C.AnswerOf(s.world.sys.phases[r]).Some?
    requires C.AnswerOf(s.world.sys.phases[r]).value.LinkReply? && C.AnswerOf(s.world.sys.phases[r]).value.link.LinkOk?
    requires x in s.guards && r in s.guards[x].waiters
    ensures var g := s.guards[x];
            && g.waiters[r].Returned? && g.waiters[r].submission.code != ""
            && G.IsSubmission(g.written, g.waiters[r].submission) && g.waiters[r].submission.number + 1 == g.waiters[r].at
  {
    hide P.Lawful, P.CollisionFree, Crypto.Lawful, PL.Reachable, A.Reachable, W.Reachable, LS.Reachable, G.Reachable, AllEarned;
    ReachableEarned(c, s);
    PL.ReachableInParts(c, s);
    PL.RepliesNameSubjects(c, s, r);
    EarnedPhases(s.world, s.guards, r);
    WaitsOnItsProcess(c, s, x, r);
    G.ReturnedOnceAndLatest(s.guards[x], r);
  }

  /** So is a token on record for an account: if the login of its link asked for a code, it took
      one. */
  lemma StoredTokenTookACode(c: A.Setup, s: PL.State, x: StreamId, acc: A.AccountId, r: RequestId)
    requires Credentials.Sound(c.creds) && PL.Reachable(c, s)
    requires acc in s.app.links.made && s.app.links.made[acc].token.Some? && s.app.links.made[acc].request == Some(r)
    requires x in s.guards && r in s.guards[x].waiters
    ensures s.guards[x].waiters[r].Returned? && s.guards[x].waiters[r].submission.code != ""
  {
    hide P.Lawful, P.CollisionFree, Crypto.Lawful, PL.Reachable, A.Reachable, W.Reachable, LS.Reachable, G.Reachable;
    PL.ReachableInParts(c, s);
    LS.TokenCameUnderOwnRequest(A.LinkSetup(c), PL.Stack(s), acc);
    SuccessTookACode(c, s, x, r);
  }
}
