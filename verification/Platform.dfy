/** The whole of account linking and friends listing: the control plane's handlers, keys and
    accounts (Accounts), its worker streams, and the worker processes (WorkerStream), each with
    the guard-code field its logins share (GuardHandoff).

    A worker's runs report what SteamLogin and PollLoop let them report. Nothing else is assumed
    of a reply here: what Accounts and LinkStack ask of the worker is proved. */
module Platform {
  import opened Wrappers
  import opened Messages
  import A = Accounts
  import C = Correlation
  import Credentials
  import Crypto
  import G = GuardHandoff
  import Jwt
  import L = AccountLinks
  import LS = LinkStack
  import P = PasswordHash
  import Replies
  import SteamLogin
  import Streams
  import W = WorkerStream
  import WorkerAgent

  type StreamId = C.StreamId

  /** guards holds each process's guard-code field; asked the request id a friends handler that
      is waiting chose. */
  datatype State = State(world: W.World, app: A.State, guards: map<StreamId, G.System>, asked: map<nat, RequestId>)

  const EMPTY := State(W.EMPTY, A.EMPTY, map[], map[])

  /** Net, Connect, Take*, Emit, Prompt and Send are steps of the streams and workers; Guard is
      one of a login thread waiting, or of the command thread setting the event; App is one of
      the handlers; the others are where handlers and streams meet. */
  datatype Step =
    | Net(b: C.Step)
    | Connect(x: StreamId)
    | TakeCommand(x: StreamId, link: WorkerAgent.LinkRun, friends: WorkerAgent.FriendsRun)
    | TakeGuardCode(x: StreamId)
    | Emit(x: StreamId, k: nat)
    | Prompt(x: StreamId, k: nat)
    | Send(x: StreamId)
    | Guard(x: StreamId, g: G.Step)
    | App(a: A.Step)
    | AskWorker(r: RequestId, h: C.Handle)
    | LinkReturns(r: RequestId)
    | AskFriends(f: nat, r: RequestId, h: C.Handle)
    | FriendsReturn(f: nat)

  // ----- What a worker's runs may report

  ghost predicate Genuine(c: A.Setup, command: Command, link: WorkerAgent.LinkRun, friends: WorkerAgent.FriendsRun) {
    match command
    case LinkAccount(_, username, password) => SteamLogin.GenuineLink(c.claims, username, password, link)
    case ListFriends(_, refreshToken) => SteamLogin.GenuineFriends(c.claims, refreshToken, friends)
    case SubmitGuardCode(_, _) => true
  }

  const NO_LINK := WorkerAgent.LinkRun([], Err(WorkerAgent.OtherFailure("")))
  const NO_FRIENDS := WorkerAgent.FriendsRun(Err(WorkerAgent.OtherFailure("")))

  /** A login thread reports after its wait for a code, and success only if it got one. */
  predicate MayReport(g: G.System, ev: Event) {
    ev.Final? && ev.reply.requestId in g.waiters ==>
      var w := g.waiters[ev.reply.requestId];
      w.Returned? || (w.Failed? && ev.reply.LinkReply? && ev.reply.link.LinkError?)
  }

  /** What the friends provider makes of a call's outcome. */
  function OwnerIn(o: C.Outcome): Option<string> {
    match o
    case Answer(FriendsReply(_, FriendsOk(owner, _))) => Some(owner)
    case _ => None
  }

  function Stack(s: State): LS.State {
    LS.State(s.world.sys, s.app.links)
  }

  predicate HasNext(s: State, x: StreamId) {
    && x in s.world.processes && x in s.world.sys.net.streams && x in s.guards
    && s.world.processes[x].taken < |s.world.sys.net.streams[x].sent|
  }

  function NextCommand(s: State, x: StreamId): Command
    requires HasNext(s, x)
  {
    s.world.sys.net.streams[x].sent[s.world.processes[x].taken]
  }

  predicate HasEvent(s: State, x: StreamId, k: nat) {
    x in s.guards && W.Enabled(s.world, W.Emit(x, k))
  }

  function NextEvent(s: State, x: StreamId, k: nat): Event
    requires HasEvent(s, x, k)
  {
    s.world.processes[x].threads[k].remaining[0]
  }

  /** submit_guard_code, called with the code alone; the number of the command names the call. */
  function Submitting(s: State, x: StreamId): G.Step
    requires HasNext(s, x) && NextCommand(s, x).SubmitGuardCode?
  {
    G.WriteCode(s.world.processes[x].taken, NextCommand(s, x).id, NextCommand(s, x).code)
  }

  function AskingFriends(s: State, f: nat, r: RequestId, h: C.Handle): C.Step
    requires f in s.app.calls && s.app.calls[f].Sent?
  {
    C.Begin(r, h, ListFriends(r, s.app.calls[f].token), false, false)
  }

  ghost predicate Enabled(c: A.Setup, s: State, a: Step) {
    match a
    case Net(b) =>
      && W.Enabled(s.world, W.ControlPlane(b)) && !b.Begin? && !b.Remove?
      && (b.RelayReads? ==> LS.Routed(s.app.links.codes, b.command.id))
    case Connect(x) => W.Enabled(s.world, W.Connect(x))
    case TakeCommand(x, link, friends) =>
      HasNext(s, x) && IsRequest(NextCommand(s, x)) && Genuine(c, NextCommand(s, x), link, friends)
    case TakeGuardCode(x) =>
      HasNext(s, x) && NextCommand(s, x).SubmitGuardCode? && G.Enabled(s.guards[x], Submitting(s, x))
    case Emit(x, k) => HasEvent(s, x, k) && !NextEvent(s, x, k).Guard? && MayReport(s.guards[x], NextEvent(s, x, k))
    case Prompt(x, k) =>
      HasEvent(s, x, k) && NextEvent(s, x, k).Guard? && G.Enabled(s.guards[x], G.Prompt(NextEvent(s, x, k).id))
    case Send(x) => W.Enabled(s.world, W.Send(x))
    case Guard(x, g) => x in s.guards && !g.Prompt? && !g.WriteCode? && G.Enabled(s.guards[x], g)
    case App(b) =>
      && A.Enabled(c, s.app, b) && !b.Reply?
      && (b.Links? ==> !b.link.AddPending? && !b.link.End? && (b.link.RecordReq? ==> b.link.r !in s.world.sys.calls))
    case AskWorker(r, h) => LS.Enabled(A.LinkSetup(c), Stack(s), LS.AskWorker(r, h))
    case LinkReturns(r) => LS.Enabled(A.LinkSetup(c), Stack(s), LS.LinkReturns(r))
    case AskFriends(f, r, h) =>
      && f in s.app.calls && s.app.calls[f].Sent? && f !in s.asked
      && C.Enabled(s.world.sys, AskingFriends(s, f, r, h))
      && r !in s.app.links.links && !LS.UsedRequest(s.app.links.made, r)
    case FriendsReturn(f) =>
      && f in s.asked && C.Enabled(s.world.sys, C.Remove(s.asked[f]))
      && A.Enabled(c, s.app, A.Reply(f, OwnerIn(s.world.sys.phases[s.asked[f]].outcome)))
  }

  /** The step each part takes, if it takes one. */
  ghost function WorldStep(c: A.Setup, s: State, a: Step): Option<W.Step>
    requires Enabled(c, s, a)
  {
    match a
    case Net(b) => Some(W.ControlPlane(b))
    case Connect(x) => Some(W.Connect(x))
    case TakeCommand(x, link, friends) => Some(W.TakeCommand(x, link, friends))
    case TakeGuardCode(x) => Some(W.TakeCommand(x, NO_LINK, NO_FRIENDS))
    case Emit(x, k) => Some(W.Emit(x, k))
    case Prompt(x, k) => Some(W.Emit(x, k))
    case Send(x) => Some(W.Send(x))
    case Guard(_, _) => None
    case App(_) => None
    case AskWorker(r, h) => Some(W.ControlPlane(LS.Asking(s.app.links.links, r, h)))
    case LinkReturns(r) => Some(W.ControlPlane(C.Remove(r)))
    case AskFriends(f, r, h) => Some(W.ControlPlane(AskingFriends(s, f, r, h)))
    case FriendsReturn(f) => Some(W.ControlPlane(C.Remove(s.asked[f])))
  }

  ghost function AppStep(c: A.Setup, s: State, a: Step): Option<A.Step>
    requires Enabled(c, s, a)
  {
    match a
    case App(b) => Some(b)
    case AskWorker(r, _) => Some(A.Links(L.AddPending(r)))
    case LinkReturns(r) => Some(A.Links(L.End(r, LS.OutcomeOf(s.world.sys.phases[r].outcome))))
    case FriendsReturn(f) => Some(A.Reply(f, OwnerIn(s.world.sys.phases[s.asked[f]].outcome)))
    case _ => None
  }

  ghost function GuardStep(c: A.Setup, s: State, a: Step): Option<(StreamId, G.Step)>
    requires Enabled(c, s, a)
  {
    match a
    case TakeGuardCode(x) => Some((x, Submitting(s, x)))
    case Prompt(x, k) => Some((x, G.Prompt(NextEvent(s, x, k).id)))
    case Guard(x, g) => Some((x, g))
    case _ => None
  }

  lemma WorldStepEnabled(c: A.Setup, s: State, a: Step)
    requires Enabled(c, s, a) && WorldStep(c, s, a).Some?
    ensures W.Enabled(s.world, WorldStep(c, s, a).value)
  {
    hide C.Enabled, A.Enabled, L.Enabled, G.Enabled, Genuine, LS.Routed, LS.UsedRequest;
  }

  lemma AppStepEnabled(c: A.Setup, s: State, a: Step)
    requires Enabled(c, s, a) && AppStep(c, s, a).Some?
    ensures A.Enabled(c, s.app, AppStep(c, s, a).value)
  {
    hide C.Enabled, L.Enabled, G.Enabled, W.Enabled, Genuine, LS.Routed, LS.UsedRequest, Credentials.Enabled;
  }

  lemma GuardStepEnabled(c: A.Setup, s: State, a: Step)
    requires Enabled(c, s, a) && GuardStep(c, s, a).Some?
    ensures var (x, g) := GuardStep(c, s, a).value; x in s.guards && G.Enabled(s.guards[x], g)
  {
    hide C.Enabled, A.Enabled, L.Enabled, G.Enabled, W.Enabled, Genuine, LS.Routed, LS.UsedRequest;
  }

  ghost function WorldAfter(c: A.Setup, s: State, a: Step): W.World
    requires Enabled(c, s, a)
  {
    WorldStepOk(c, s, a);
    if WorldStep(c, s, a).Some? then W.Do(s.world, WorldStep(c, s, a).value) else s.world
  }

  lemma WorldStepOk(c: A.Setup, s: State, a: Step)
    requires Enabled(c, s, a)
    ensures WorldStep(c, s, a).Some? ==> W.Enabled(s.world, WorldStep(c, s, a).value)
  {
    if WorldStep(c, s, a).Some? {
      WorldStepEnabled(c, s, a);
    }
  }

  ghost function AppAfter(c: A.Setup, s: State, a: Step): A.State
    requires Enabled(c, s, a) && P.Lawful(c.creds.pr) && L.Known(s.app.links)
  {
    AppStepOk(c, s, a);
    if AppStep(c, s, a).Some? then A.Do(c, s.app, AppStep(c, s, a).value) else s.app
  }

  lemma AppStepOk(c: A.Setup, s: State, a: Step)
    requires Enabled(c, s, a)
    ensures AppStep(c, s, a).Some? ==> A.Enabled(c, s.app, AppStep(c, s, a).value)
  {
    if AppStep(c, s, a).Some? {
      AppStepEnabled(c, s, a);
    }
  }

  ghost function GuardsAfter(c: A.Setup, s: State, a: Step): map<StreamId, G.System>
    requires Enabled(c, s, a)
  {
    GuardStepOk(c, s, a);
    if a.Connect? then s.guards[a.x := G.EMPTY]
    else if GuardStep(c, s, a).Some? then
      var (x, g) := GuardStep(c, s, a).value;
      s.guards[x := G.Do(s.guards[x], g)]
    else s.guards
  }

  lemma GuardStepOk(c: A.Setup, s: State, a: Step)
    requires Enabled(c, s, a)
    ensures GuardStep(c, s, a).Some? ==> var (x, g) := GuardStep(c, s, a).value; x in s.guards && G.Enabled(s.guards[x], g)
  {
    if GuardStep(c, s, a).Some? {
      GuardStepEnabled(c, s, a);
    }
  }

  ghost function AskedAfter(s: State, a: Step): map<nat, RequestId> {
    match a
    case AskFriends(f, r, _) => s.asked[f := r]
    case FriendsReturn(f) => s.asked - {f}
    case _ => s.asked
  }

  ghost function Do(c: A.Setup, s: State, a: Step): State
    requires Enabled(c, s, a) && P.Lawful(c.creds.pr) && L.Known(s.app.links)
  {
    State(WorldAfter(c, s, a), AppAfter(c, s, a), GuardsAfter(c, s, a), AskedAfter(s, a))
  }

  ghost predicate Runs(c: A.Setup, s: State, steps: seq<Step>, t: State)
    requires P.Lawful(c.creds.pr)
    decreases |steps|
  {
    if steps == [] then s == t
    else L.Known(s.app.links) && Enabled(c, s, steps[0]) && Runs(c, Do(c, s, steps[0]), steps[1..], t)
  }

  ghost predicate Reachable(c: A.Setup, s: State)
    requires P.Lawful(c.creds.pr)
  {
    exists steps :: Runs(c, EMPTY, steps, s)
  }

  // ----- The invariant

  /** A reply that names the subject of the token it is about. */
  predicate GoodReply(c: A.Setup, calls: C.Calls, reply: Reply) {
    match reply
    case LinkReply(_, link) => L.OwnerOfToken(A.LinkSetup(c), link)
    case FriendsReply(r, FriendsOk(owner, _)) =>
      r in calls && calls[r].command.ListFriends? && SteamLogin.IsSubject(c.claims, calls[r].command.refreshToken, owner)
    case FriendsReply(_, FriendsError(_)) => true
  }

  function Good(c: A.Setup, calls: C.Calls): Reply -> bool {
    reply => GoodReply(c, calls, reply)
  }

  predicate GoodEvent(c: A.Setup, calls: C.Calls, ev: Event) {
    ev.Final? ==> GoodReply(c, calls, ev.reply)
  }

  ghost predicate GoodEvents(c: A.Setup, calls: C.Calls, evs: seq<Event>) {
    forall i :: 0 <= i < |evs| ==> GoodEvent(c, calls, evs[i])
  }

  ghost predicate GoodProcess(c: A.Setup, calls: C.Calls, p: W.Process) {
    GoodEvents(c, calls, p.outbox) && forall k :: k in p.threads ==> GoodEvents(c, calls, p.threads[k].remaining)
  }

  ghost predicate GoodProcesses(c: A.Setup, calls: C.Calls, processes: map<StreamId, W.Process>) {
    forall x :: x in processes ==> GoodProcess(c, calls, processes[x])
  }

  ghost predicate GoodWorld(c: A.Setup, w: W.World) {
    Replies.All(Good(c, w.sys.calls), w.sys) && GoodProcesses(c, w.sys.calls, w.processes)
  }

  /** The call a friends handler waits for is about the token it sent. */
  predicate AskedFor(calls: C.Calls, handlers: map<nat, A.Call>, f: nat, r: RequestId) {
    f in handlers && handlers[f].Sent? && r in calls && calls[r].command == ListFriends(r, handlers[f].token)
  }

  ghost predicate AskedOk(calls: C.Calls, handlers: map<nat, A.Call>, asked: map<nat, RequestId>) {
    forall f :: f in asked ==> AskedFor(calls, handlers, f, asked[f])
  }

  /** Every code in the field's history came in a command on the stream, under its request id. */
  ghost predicate CodesCame(sent: seq<Command>, taken: nat, written: seq<(RequestId, string)>) {
    forall k :: 0 <= k < |written| ==> Came(sent, taken, written[k])
  }

  ghost predicate Came(sent: seq<Command>, taken: nat, code: (RequestId, string)) {
    exists j: nat :: CodeAt(sent, taken, code, j)
  }

  predicate CodeAt(sent: seq<Command>, taken: nat, code: (RequestId, string), j: nat) {
    j < taken && j < |sent| && sent[j] == SubmitGuardCode(code.0, code.1)
  }

  /** A login waits once: after its prompt nothing in its run prompts again. */
  predicate PromptsOnce(evs: seq<Event>) {
    forall i, j :: 0 <= i < j < |evs| ==> !evs[i].Guard? || !evs[j].Guard?
  }

  predicate Unprompted(evs: seq<Event>, r: RequestId, waiters: G.Waiters) {
    forall i :: 0 <= i < |evs| && evs[i].Guard? ==> r !in waiters
  }

  ghost predicate WaitersOk(slots: C.Slots, x: StreamId, p: W.Process, waiters: G.Waiters) {
    && (forall r :: r in waiters ==> W.StartedOn(slots, x, p.taken, r))
    && (forall k :: k in p.threads ==>
          PromptsOnce(p.threads[k].remaining) && Unprompted(p.threads[k].remaining, p.threads[k].r, waiters))
  }

  predicate GuardsAreLogins(sent: seq<Command>, k: nat, evs: seq<Event>) {
    forall i :: 0 <= i < |evs| && evs[i].Guard? ==> k < |sent| && sent[k].LinkAccount?
  }

  predicate IsLogin(slots: C.Slots, sent: seq<Command>, r: RequestId) {
    r in slots && slots[r].1 < |sent| && sent[slots[r].1].LinkAccount?
  }

  /** Only runs of LinkAccount commands wait for codes. */
  ghost predicate LoginsOk(slots: C.Slots, sent: seq<Command>, p: W.Process, waiters: G.Waiters) {
    && (forall r :: r in waiters ==> IsLogin(slots, sent, r))
    && (forall k :: k in p.threads ==> GuardsAreLogins(sent, k, p.threads[k].remaining))
  }

  ghost predicate GuardOk(slots: C.Slots, sent: seq<Command>, x: StreamId, p: W.Process, g: G.System) {
    && G.Reachable(g)
    && CodesCame(sent, p.taken, g.written)
    && (forall j :: j in g.submitters ==> j < p.taken)
    && WaitersOk(slots, x, p, g.waiters)
    && LoginsOk(slots, sent, p, g.waiters)
  }

  ghost predicate GuardsOk(w: W.World, guards: map<StreamId, G.System>) {
    && guards.Keys == w.processes.Keys
    && forall x :: x in guards ==>
         x in w.sys.net.streams && GuardOk(w.sys.slots, w.sys.net.streams[x].sent, x, w.processes[x], guards[x])
  }

  /** Each part is in a state of a run of its own. */
  ghost predicate PartsReachable(c: A.Setup, s: State)
    requires P.Lawful(c.creds.pr)
  {
    W.Reachable(s.world) && A.Reachable(c, s.app) && LS.Reachable(A.LinkSetup(c), Stack(s))
  }

  ghost predicate Inv(c: A.Setup, s: State)
    requires P.Lawful(c.creds.pr)
  {
    && PartsReachable(c, s)
    && GoodWorld(c, s.world)
    && AskedOk(s.world.sys.calls, s.app.calls, s.asked)
    && GuardsOk(s.world, s.guards)
  }

  // ----- Calls only grow

  ghost predicate CallsGrow(calls: C.Calls, calls': C.Calls) {
    forall r :: r in calls ==> r in calls' && calls'[r] == calls[r]
  }

  lemma SysStepGrows(s: C.System, w: C.Step)
    requires C.Enabled(s, w)
    ensures CallsGrow(s.calls, C.Do(s, w).calls)
    ensures !w.Begin? ==> C.Do(s, w).calls == s.calls
  {
    if w.Begin? {
      C.BeginFrame(s, w);
      hide C.Do, C.Enabled;
    } else {
      LS.OthersKeepCalls(s, w);
      hide C.Do, C.Enabled;
    }
  }

  lemma GrownReply(c: A.Setup, calls: C.Calls, calls': C.Calls, reply: Reply)
    requires CallsGrow(calls, calls') && GoodReply(c, calls, reply)
    ensures GoodReply(c, calls', reply)
  {
    hide L.OwnerOfToken, SteamLogin.IsSubject;
  }

  lemma GrownReplies(c: A.Setup, calls: C.Calls, calls': C.Calls, s: C.System)
    requires CallsGrow(calls, calls') && Replies.All(Good(c, calls), s)
    ensures Replies.All(Good(c, calls'), s)
  {
    hide GoodReply, Replies.All, CallsGrow;
    forall reply | Good(c, calls)(reply)
      ensures Good(c, calls')(reply)
    {
      GrownReply(c, calls, calls', reply);
    }
    Replies.Weaken(Good(c, calls), Good(c, calls'), s);
  }

  lemma GrownEvents(c: A.Setup, calls: C.Calls, calls': C.Calls, evs: seq<Event>)
    requires CallsGrow(calls, calls') && GoodEvents(c, calls, evs)
    ensures GoodEvents(c, calls', evs)
  {
    hide GoodReply, CallsGrow;
    forall i | 0 <= i < |evs|
      ensures GoodEvent(c, calls', evs[i])
    {
      assert GoodEvent(c, calls, evs[i]);
      if evs[i].Final? {
        GrownReply(c, calls, calls', evs[i].reply);
      }
    }
  }

  lemma GrownProcesses(c: A.Setup, calls: C.Calls, calls': C.Calls, processes: map<StreamId, W.Process>)
    requires CallsGrow(calls, calls') && GoodProcesses(c, calls, processes)
    ensures GoodProcesses(c, calls', processes)
  {
    hide GoodEvents, CallsGrow;
    forall x | x in processes
      ensures GoodProcess(c, calls', processes[x])
    {
      assert GoodProcess(c, calls, processes[x]);
      GrownEvents(c, calls, calls', processes[x].outbox);
      forall k | k in processes[x].threads
        ensures GoodEvents(c, calls', processes[x].threads[k].remaining)
      {
        GrownEvents(c, calls, calls', processes[x].threads[k].remaining);
      }
    }
  }

  // ----- What streams have sent only grows, and slots stay

  ghost predicate StreamsGrow(s: C.System, t: C.System) {
    && W.SlotsStay(s.slots, t.slots)
    && forall x :: x in s.net.streams ==> x in t.net.streams && s.net.streams[x].sent <= t.net.streams[x].sent
  }

  lemma NetGrows(n: Streams.Net, b: Streams.Step)
    requires Streams.Enabled(n, b)
    ensures forall x :: x in n.streams ==> x in Streams.Do(n, b).streams && n.streams[x].sent <= Streams.Do(n, b).streams[x].sent
  {
  }

  lemma SysNetGrows(s: C.System, w: C.Step)
    requires C.Enabled(s, w)
    ensures forall x :: x in s.net.streams ==> x in C.Do(s, w).net.streams && s.net.streams[x].sent <= C.Do(s, w).net.streams[x].sent
  {
    hide Streams.Do, C.BeginCall, C.RemoveCall, C.TakeReply, C.AfterHandling;
    match w {
      case Net(b) => NetGrows(s.net, b);
      case Handle(x) => NetGrows(s.net, Streams.ReadyOn(x));
      case EndSession(x) => NetGrows(s.net, Streams.UnregisterOn(x));
      case Push(r) => NetGrows(s.net, Streams.Enqueue(s.phases[r].x, s.calls[r].command));
      case RelayPushes(i) => NetGrows(s.net, Streams.Enqueue(s.relays[i].0, s.relays[i].1));
      case Begin(r, h, command, onGuard, onChallenge) => LS.BeginNet(s, r, h, command, onGuard, onChallenge);
      case Remove(r) => LS.RemoveNet(s, r);
      case Take(r) => LS.TakeNet(s, r);
      case _ =>
    }
  }

  lemma SysStepStreams(s: C.System, w: C.Step)
    requires C.Inv(s) && C.Enabled(s, w)
    ensures StreamsGrow(s, C.Do(s, w))
  {
    hide C.Inv, C.Do, C.Enabled, W.SlotsStay;
    W.StepKeepsSlots(s, w);
    SysNetGrows(s, w);
  }

  lemma GrownLogins(slots: C.Slots, sent: seq<Command>, slots': C.Slots, sent': seq<Command>, p: W.Process, waiters: G.Waiters)
    requires LoginsOk(slots, sent, p, waiters) && W.SlotsStay(slots, slots') && sent <= sent'
    ensures LoginsOk(slots', sent', p, waiters)
  {
    forall k | k in p.threads
      ensures GuardsAreLogins(sent', k, p.threads[k].remaining)
    {
      assert GuardsAreLogins(sent, k, p.threads[k].remaining);
    }
    forall r | r in waiters
      ensures IsLogin(slots', sent', r)
    {
      assert IsLogin(slots, sent, r);
    }
  }

  lemma GrownGuard(s: C.System, t: C.System, x: StreamId, p: W.Process, g: G.System)
    requires StreamsGrow(s, t) && x in s.net.streams && GuardOk(s.slots, s.net.streams[x].sent, x, p, g)
    ensures x in t.net.streams && GuardOk(t.slots, t.net.streams[x].sent, x, p, g)
  {
    hide G.Reachable, PromptsOnce, Unprompted, LoginsOk;
    GrownLogins(s.slots, s.net.streams[x].sent, t.slots, t.net.streams[x].sent, p, g.waiters);
    assert forall r :: W.StartedOn(s.slots, x, p.taken, r) ==> W.StartedOn(t.slots, x, p.taken, r);
    forall code | Came(s.net.streams[x].sent, p.taken, code)
      ensures Came(t.net.streams[x].sent, p.taken, code)
    {
      var j: nat :| CodeAt(s.net.streams[x].sent, p.taken, code, j);
      assert CodeAt(t.net.streams[x].sent, p.taken, code, j);
    }
    hide Came, W.StartedOn, W.SlotsStay;
  }

  // ----- Steps of a worker process

  /** Only the process at x changes, and only by a step of the worker. */
  lemma ReplacedProcessGood(c: A.Setup, calls: C.Calls, processes: map<StreamId, W.Process>, x: StreamId, p: W.Process)
    requires GoodProcesses(c, calls, processes) && GoodProcess(c, calls, p)
    ensures GoodProcesses(c, calls, processes[x := p])
  {
    hide GoodProcess;
  }

  lemma GoodRun(c: A.Setup, calls: C.Calls, command: Command, link: WorkerAgent.LinkRun, friends: WorkerAgent.FriendsRun)
    requires Genuine(c, command, link, friends) && IsRequest(command) && command.id in calls && calls[command.id].command == command
    ensures command.LinkAccount? ==> GoodEvents(c, calls, WorkerAgent.LinkEvents(command.id, link))
    ensures command.ListFriends? ==> GoodEvents(c, calls, WorkerAgent.FriendsEvents(command.id, friends))
  {
    hide Jwt.SteamIdFromJwt;
  }

  lemma ReceivedGood(c: A.Setup, calls: C.Calls, p: W.Process, command: Command, link: WorkerAgent.LinkRun, friends: WorkerAgent.FriendsRun)
    requires GoodProcess(c, calls, p)
    requires IsRequest(command) ==> command.id in calls && calls[command.id].command == command && Genuine(c, command, link, friends)
    ensures GoodProcess(c, calls, W.Received(p, command, link, friends))
  {
    if IsRequest(command) {
      GoodRun(c, calls, command, link, friends);
    }
    hide GoodEvents, WorkerAgent.LinkEvents, WorkerAgent.FriendsEvents, Genuine;
  }

  lemma GoodTail(c: A.Setup, calls: C.Calls, evs: seq<Event>)
    requires GoodEvents(c, calls, evs) && evs != []
    ensures GoodEvents(c, calls, evs[1..]) && GoodEvent(c, calls, evs[0])
  {
    hide GoodEvent;
  }

  lemma GoodSnoc(c: A.Setup, calls: C.Calls, evs: seq<Event>, ev: Event)
    requires GoodEvents(c, calls, evs) && GoodEvent(c, calls, ev)
    ensures GoodEvents(c, calls, evs + [ev])
  {
    hide GoodEvent;
  }

  lemma EmittedGood(c: A.Setup, calls: C.Calls, p: W.Process, k: nat)
    requires GoodProcess(c, calls, p) && k in p.threads && p.threads[k].remaining != []
    ensures GoodProcess(c, calls, W.Emitted(p, k))
  {
    hide GoodEvents, GoodEvent;
    GoodTail(c, calls, p.threads[k].remaining);
    GoodSnoc(c, calls, p.outbox, p.threads[k].remaining[0]);
  }

  lemma SentGood(c: A.Setup, calls: C.Calls, p: W.Process)
    requires GoodProcess(c, calls, p) && p.outbox != []
    ensures GoodProcess(c, calls, p.(outbox := p.outbox[1..])) && GoodEvent(c, calls, p.outbox[0])
  {
    hide GoodEvents, GoodEvent;
    GoodTail(c, calls, p.outbox);
  }

  // ----- Guard codes at a worker

  lemma GuardStepFrame(g: G.System, b: G.Step)
    requires G.Enabled(g, b)
    ensures !b.Prompt? ==> G.Do(g, b).waiters.Keys == g.waiters.Keys
    ensures b.Prompt? ==> G.Do(g, b).waiters.Keys == g.waiters.Keys + {b.i}
    ensures !b.WriteCode? ==> G.Do(g, b).written == g.written && G.Do(g, b).submitters.Keys == g.submitters.Keys
    ensures b.WriteCode? ==> G.Do(g, b).written == g.written + [(b.request, b.code)] && G.Do(g, b).submitters.Keys == g.submitters.Keys + {b.j}
  {
  }

  /** A step of a waiting login or of the command thread. */
  lemma GuardMoves(slots: C.Slots, sent: seq<Command>, x: StreamId, p: W.Process, g: G.System, b: G.Step)
    requires GuardOk(slots, sent, x, p, g) && G.Enabled(g, b) && !b.Prompt? && !b.WriteCode?
    ensures GuardOk(slots, sent, x, p, G.Do(g, b))
  {
    G.ReachableStep(g, b);
    GuardStepFrame(g, b);
    hide G.Reachable, G.Do, G.Enabled, CodesCame, PromptsOnce, GuardsAreLogins;
  }

  lemma CameLater(sent: seq<Command>, taken: nat, later: nat, code: (RequestId, string))
    requires Came(sent, taken, code) && later == taken + 1
    ensures Came(sent, later, code)
  {
    var j: nat :| CodeAt(sent, taken, code, j);
    assert CodeAt(sent, later, code, j);
  }

  lemma CodesStay(sent: seq<Command>, taken: nat, written: seq<(RequestId, string)>, later: nat)
    requires CodesCame(sent, taken, written) && later == taken + 1
    ensures CodesCame(sent, later, written)
  {
    forall k | 0 <= k < |written|
      ensures Came(sent, later, written[k])
    {
      CameLater(sent, taken, later, written[k]);
    }
  }

  lemma CodeTaken(sent: seq<Command>, taken: nat, written: seq<(RequestId, string)>, id: RequestId, code: string, later: nat)
    requires CodesCame(sent, taken, written) && taken < |sent| && sent[taken] == SubmitGuardCode(id, code) && later == taken + 1
    ensures CodesCame(sent, later, written + [(id, code)])
  {
    CodesStay(sent, taken, written, later);
    assert CodeAt(sent, later, (id, code), taken);
    hide Came;
  }

  lemma WaitersOkLater(slots: C.Slots, x: StreamId, p: W.Process, q: W.Process, waiters: G.Waiters)
    requires WaitersOk(slots, x, p, waiters) && q.taken == p.taken + 1 && q.threads == p.threads
    ensures WaitersOk(slots, x, q, waiters)
  {
    hide PromptsOnce, Unprompted;
  }

  lemma SameLogins(slots: C.Slots, sent: seq<Command>, p: W.Process, q: W.Process, waiters: G.Waiters)
    requires LoginsOk(slots, sent, p, waiters) && q.threads == p.threads
    ensures LoginsOk(slots, sent, q, waiters)
  {
    hide IsLogin, GuardsAreLogins;
  }

  lemma CodeSubmitted(slots: C.Slots, sent: seq<Command>, x: StreamId, p: W.Process, g: G.System, id: RequestId, code: string)
    requires GuardOk(slots, sent, x, p, g) && p.taken < |sent| && sent[p.taken] == SubmitGuardCode(id, code)
    ensures G.Enabled(g, G.WriteCode(p.taken, id, code))
    ensures GuardOk(slots, sent, x, W.Received(p, sent[p.taken], NO_LINK, NO_FRIENDS), G.Do(g, G.WriteCode(p.taken, id, code)))
  {
    hide WaitersOk, LoginsOk, G.Reachable, CodesCame;
    var b := G.WriteCode(p.taken, id, code);
    assert G.Enabled(g, b);
    G.ReachableStep(g, b);
    GuardStepFrame(g, b);
    assert G.Do(g, b).waiters == g.waiters;
    hide G.Do, G.Enabled;
    CodeTaken(sent, p.taken, g.written, id, code, p.taken + 1);
    WaitersOkLater(slots, x, p, W.Received(p, sent[p.taken], NO_LINK, NO_FRIENDS), g.waiters);
    SameLogins(slots, sent, p, W.Received(p, sent[p.taken], NO_LINK, NO_FRIENDS), g.waiters);
  }

  lemma RunPromptsOnce(c: A.Setup, command: Command, link: WorkerAgent.LinkRun, friends: WorkerAgent.FriendsRun)
    requires Genuine(c, command, link, friends)
    ensures command.LinkAccount? ==> PromptsOnce(WorkerAgent.LinkEvents(command.id, link))
    ensures command.ListFriends? ==> PromptsOnce(WorkerAgent.FriendsEvents(command.id, friends))
  {
    hide SteamLogin.IsSubject;
    if command.LinkAccount? {
      var evs := WorkerAgent.LinkEvents(command.id, link);
      forall i | 0 <= i < |link.prompts|
        ensures evs[i] == WorkerAgent.PromptEvent(command.id, link.prompts[i])
      {
      }
    }
  }

  lemma PromptMoves(slots: C.Slots, sent: seq<Command>, x: StreamId, p: W.Process, g: G.System, k: nat)
    requires GuardOk(slots, sent, x, p, g) && W.ThreadsOf(slots, x, p)
    requires k in p.threads && p.threads[k].remaining != [] && p.threads[k].remaining[0].Guard?
    ensures G.Enabled(g, G.Prompt(p.threads[k].remaining[0].id))
    ensures GuardOk(slots, sent, x, W.Emitted(p, k), G.Do(g, G.Prompt(p.threads[k].remaining[0].id)))
  {
    hide GuardOk, W.ThreadsOf, W.Emitted, G.Do, G.Enabled;
    PromptIsNew(slots, sent, x, p, g, k);
    LoginPrompted(slots, sent, x, p, g, k);
  }

  /** A new thread for a request no login waits under yet. */
  lemma ThreadStarts(slots: C.Slots, x: StreamId, p: W.Process, waiters: G.Waiters, r: RequestId, evs: seq<Event>, q: W.Process)
    requires WaitersOk(slots, x, p, waiters) && r in slots && slots[r] == (x, p.taken) && PromptsOnce(evs)
    requires q.taken == p.taken + 1 && q.threads == p.threads[p.taken := W.Thread(r, evs)]
    ensures WaitersOk(slots, x, q, waiters)
  {
    hide PromptsOnce;
    assert r !in waiters;
    assert Unprompted(evs, r, waiters);
    hide Unprompted;
  }

  lemma LoginStarts(slots: C.Slots, sent: seq<Command>, p: W.Process, waiters: G.Waiters, r: RequestId, evs: seq<Event>, q: W.Process)
    requires LoginsOk(slots, sent, p, waiters) && GuardsAreLogins(sent, p.taken, evs)
    requires q.threads == p.threads[p.taken := W.Thread(r, evs)]
    ensures LoginsOk(slots, sent, q, waiters)
  {
    hide IsLogin, GuardsAreLogins;
  }

  lemma FriendsRunUnguarded(sent: seq<Command>, k: nat, r: RequestId, friends: WorkerAgent.FriendsRun)
    ensures GuardsAreLogins(sent, k, WorkerAgent.FriendsEvents(r, friends))
  {
  }

  lemma RequestTaken(c: A.Setup, slots: C.Slots, sent: seq<Command>, x: StreamId, p: W.Process, g: G.System,
                     link: WorkerAgent.LinkRun, friends: WorkerAgent.FriendsRun)
    requires GuardOk(slots, sent, x, p, g) && p.taken < |sent| && IsRequest(sent[p.taken])
    requires Genuine(c, sent[p.taken], link, friends)
    requires sent[p.taken].id in slots && slots[sent[p.taken].id] == (x, p.taken)
    ensures GuardOk(slots, sent, x, W.Received(p, sent[p.taken], link, friends), g)
  {
    hide G.Reachable, WaitersOk, LoginsOk, CodesCame, PromptsOnce, Genuine, WorkerAgent.LinkEvents, WorkerAgent.FriendsEvents;
    var command := sent[p.taken];
    var q := W.Received(p, command, link, friends);
    CodesStay(sent, p.taken, g.written, p.taken + 1);
    RunPromptsOnce(c, command, link, friends);
    var evs := if command.LinkAccount? then WorkerAgent.LinkEvents(command.id, link) else WorkerAgent.FriendsEvents(command.id, friends);
    ThreadStarts(slots, x, p, g.waiters, command.id, evs, q);
    FriendsRunUnguarded(sent, p.taken, command.id, friends);
    LoginStarts(slots, sent, p, g.waiters, command.id, evs, q);
  }

  lemma TailPromptsOnce(evs: seq<Event>, r: RequestId, waiters: G.Waiters)
    requires PromptsOnce(evs) && Unprompted(evs, r, waiters) && evs != []
    ensures PromptsOnce(evs[1..]) && Unprompted(evs[1..], r, waiters)
    ensures evs[0].Guard? ==> r !in waiters && forall i :: 0 <= i < |evs[1..]| ==> !evs[1..][i].Guard?
  {
    forall i | 0 <= i < |evs[1..]|
      ensures evs[1..][i] == evs[i + 1]
    {
    }
  }

  lemma TailLogins(slots: C.Slots, sent: seq<Command>, p: W.Process, waiters: G.Waiters, k: nat)
    requires LoginsOk(slots, sent, p, waiters) && k in p.threads && p.threads[k].remaining != []
    ensures LoginsOk(slots, sent, W.Emitted(p, k), waiters)
    ensures p.threads[k].remaining[0].Guard? ==> k < |sent| && sent[k].LinkAccount?
  {
    hide IsLogin;
    var evs := p.threads[k].remaining;
    assert GuardsAreLogins(sent, k, evs);
    assert GuardsAreLogins(sent, k, evs[1..]);
    hide GuardsAreLogins;
  }

  lemma EventEmitted(slots: C.Slots, sent: seq<Command>, x: StreamId, p: W.Process, g: G.System, k: nat)
    requires GuardOk(slots, sent, x, p, g) && k in p.threads && p.threads[k].remaining != []
    ensures GuardOk(slots, sent, x, W.Emitted(p, k), g)
  {
    hide G.Reachable, CodesCame, PromptsOnce, Unprompted, LoginsOk;
    TailLogins(slots, sent, p, g.waiters, k);
    TailPromptsOnce(p.threads[k].remaining, p.threads[k].r, g.waiters);
  }

  /** A login is prompted once, so its prompt finds no waiter of its name. */
  lemma PromptIsNew(slots: C.Slots, sent: seq<Command>, x: StreamId, p: W.Process, g: G.System, k: nat)
    requires GuardOk(slots, sent, x, p, g) && W.ThreadsOf(slots, x, p)
    requires k in p.threads && p.threads[k].remaining != [] && p.threads[k].remaining[0].Guard?
    ensures p.threads[k].remaining[0].id == p.threads[k].r && G.Enabled(g, G.Prompt(p.threads[k].r))
  {
    TailPromptsOnce(p.threads[k].remaining, p.threads[k].r, g.waiters);
    assert Concerns(p.threads[k].remaining[0], p.threads[k].r);
    hide G.Reachable, CodesCame;
  }

  lemma LoginPrompted(slots: C.Slots, sent: seq<Command>, x: StreamId, p: W.Process, g: G.System, k: nat)
    requires GuardOk(slots, sent, x, p, g) && W.ThreadsOf(slots, x, p)
    requires k in p.threads && p.threads[k].remaining != [] && p.threads[k].remaining[0].Guard?
    requires G.Enabled(g, G.Prompt(p.threads[k].r))
    ensures GuardOk(slots, sent, x, W.Emitted(p, k), G.Do(g, G.Prompt(p.threads[k].r)))
  {
    var r := p.threads[k].r;
    var q := W.Emitted(p, k);
    var h := G.Do(g, G.Prompt(r));
    G.ReachableStep(g, G.Prompt(r));
    GuardStepFrame(g, G.Prompt(r));
    TailPromptsOnce(p.threads[k].remaining, r, g.waiters);
    TailLogins(slots, sent, p, g.waiters, k);
    assert slots[r] == (x, k) && k < p.taken;
    hide G.Reachable, G.Do, G.Enabled, CodesCame, PromptsOnce, GuardsAreLogins;
    forall j | j in q.threads
      ensures PromptsOnce(q.threads[j].remaining) && Unprompted(q.threads[j].remaining, q.threads[j].r, h.waiters)
    {
      if j != k {
        assert slots[p.threads[j].r] == (x, j);
      }
    }
  }

  // ----- Replies stay good

  lemma SysStepGood(c: A.Setup, w: W.World, b: C.Step)
    requires GoodWorld(c, w) && C.Enabled(w.sys, b)
    requires b.Arrive? && b.event.Final? ==> GoodReply(c, w.sys.calls, b.event.reply)
    ensures Replies.All(Good(c, C.Do(w.sys, b).calls), C.Do(w.sys, b))
    ensures GoodProcesses(c, C.Do(w.sys, b).calls, w.processes)
  {
    hide C.Do, C.Enabled, Replies.All, GoodProcesses, GoodReply, CallsGrow;
    var t := C.Do(w.sys, b);
    SysStepGrows(w.sys, b);
    Replies.StaysGood(Good(c, w.sys.calls), w.sys, b);
    GrownReplies(c, w.sys.calls, t.calls, t);
    GrownProcesses(c, w.sys.calls, t.calls, w.processes);
  }

  lemma ControlPlaneGood(c: A.Setup, w: W.World, b: C.Step)
    requires GoodWorld(c, w) && W.Enabled(w, W.ControlPlane(b))
    ensures GoodWorld(c, W.Do(w, W.ControlPlane(b)))
  {
    SysStepGood(c, w, b);
    hide C.Do, C.Enabled, Replies.All, GoodProcesses;
  }

  lemma ConnectGood(c: A.Setup, w: W.World, x: StreamId)
    requires GoodWorld(c, w) && W.Enabled(w, W.Connect(x))
    ensures GoodWorld(c, W.Do(w, W.Connect(x)))
  {
    hide C.Do, C.Enabled, Replies.All, GoodProcesses;
    var t := C.Do(w.sys, C.Net(Streams.Open(x)));
    SysStepGood(c, w, C.Net(Streams.Open(x)));
    ConnectedGood(c, t.calls);
    ReplacedProcessGood(c, t.calls, w.processes, x, W.CONNECTED);
  }

  lemma ConnectedGood(c: A.Setup, calls: C.Calls)
    ensures GoodProcess(c, calls, W.CONNECTED)
  {
  }

  lemma SendGood(c: A.Setup, w: W.World, x: StreamId)
    requires GoodWorld(c, w) && W.Enabled(w, W.Send(x))
    ensures GoodWorld(c, W.Do(w, W.Send(x)))
    ensures GoodEvent(c, w.sys.calls, w.processes[x].outbox[0])
  {
    hide C.Do, C.Enabled, Replies.All, GoodProcesses, GoodProcess, GoodReply;
    var p := w.processes[x];
    ProcessGood(c, w, x);
    SentGood(c, w.sys.calls, p);
    var b := C.Arrive(x, p.outbox[0]);
    SysStepGood(c, w, b);
    SysStepGrows(w.sys, b);
    ReplacedProcessGood(c, w.sys.calls, w.processes, x, p.(outbox := p.outbox[1..]));
  }

  lemma ProcessGood(c: A.Setup, w: W.World, x: StreamId)
    requires GoodProcesses(c, w.sys.calls, w.processes) && x in w.processes
    ensures GoodProcess(c, w.sys.calls, w.processes[x])
  {
    hide GoodProcess;
  }

  lemma EmitGood(c: A.Setup, w: W.World, x: StreamId, k: nat)
    requires GoodWorld(c, w) && W.Enabled(w, W.Emit(x, k))
    ensures GoodWorld(c, W.Do(w, W.Emit(x, k)))
  {
    hide Replies.All, GoodProcesses, GoodProcess, W.Emitted;
    ProcessGood(c, w, x);
    EmittedGood(c, w.sys.calls, w.processes[x], k);
    ReplacedProcessGood(c, w.sys.calls, w.processes, x, W.Emitted(w.processes[x], k));
  }

  /** The command a process is about to take is the command of the call it names. */
  lemma CommandOfCall(s: C.System, x: StreamId, k: nat)
    requires C.Inv(s) && x in s.net.streams && k < |s.net.streams[x].sent| && IsRequest(s.net.streams[x].sent[k])
    ensures var command := s.net.streams[x].sent[k];
            && command.id in s.slots && s.slots[command.id] == (x, k)
            && command.id in s.calls && s.calls[command.id].command == command
  {
    hide C.Inv;
    W.SentAtSlot(s, x, k);
    W.InvParts(s);
    W.SlotCommand(s, s.net.streams[x].sent[k].id);
  }

  lemma TakeGood(c: A.Setup, w: W.World, x: StreamId, link: WorkerAgent.LinkRun, friends: WorkerAgent.FriendsRun)
    requires W.Enabled(w, W.TakeCommand(x, link, friends))
    requires Genuine(c, w.sys.net.streams[x].sent[w.processes[x].taken], link, friends)
    requires GoodWorld(c, w) && C.Inv(w.sys)
    ensures GoodWorld(c, W.Do(w, W.TakeCommand(x, link, friends)))
  {
    hide C.Inv, Replies.All, GoodProcesses, GoodProcess, W.Received, Genuine;
    var p := w.processes[x];
    var command := w.sys.net.streams[x].sent[p.taken];
    ProcessGood(c, w, x);
    if IsRequest(command) {
      CommandOfCall(w.sys, x, p.taken);
    }
    ReceivedGood(c, w.sys.calls, p, command, link, friends);
    ReplacedProcessGood(c, w.sys.calls, w.processes, x, W.Received(p, command, link, friends));
  }

  /** What a run of a worker may be, in a step of the world. */
  ghost predicate GenuineStep(c: A.Setup, w: W.World, b: W.Step)
    requires W.Enabled(w, b)
  {
    b.TakeCommand? ==> Genuine(c, w.sys.net.streams[b.x].sent[w.processes[b.x].taken], b.link, b.friends)
  }

  lemma WorldStepGood(c: A.Setup, w: W.World, b: W.Step)
    requires GoodWorld(c, w) && C.Inv(w.sys) && W.Enabled(w, b) && GenuineStep(c, w, b)
    ensures GoodWorld(c, W.Do(w, b))
  {
    hide C.Inv, GoodWorld, W.Do;
    match b {
      case ControlPlane(d) => ControlPlaneGood(c, w, d);
      case Connect(x) => ConnectGood(c, w, x);
      case TakeCommand(x, link, friends) => TakeGood(c, w, x, link, friends);
      case Emit(x, k) => EmitGood(c, w, x, k);
      case Send(x) => SendGood(c, w, x);
    }
  }

  lemma WorldStepGenuine(c: A.Setup, s: State, a: Step)
    requires Enabled(c, s, a) && WorldStep(c, s, a).Some?
    ensures W.Enabled(s.world, WorldStep(c, s, a).value) && GenuineStep(c, s.world, WorldStep(c, s, a).value)
  {
    WorldStepEnabled(c, s, a);
    hide C.Enabled, A.Enabled, L.Enabled, G.Enabled, LS.Enabled, W.Enabled, LS.Routed, LS.UsedRequest,
         SteamLogin.GenuineLink, SteamLogin.GenuineFriends;
  }

  // ----- Guard codes stay in order

  lemma OtherGuardsKept(w: W.World, v: W.World, guards: map<StreamId, G.System>)
    requires GuardsOk(w, guards) && v.processes == w.processes && StreamsGrow(w.sys, v.sys)
    ensures GuardsOk(v, guards)
  {
    hide GuardOk, StreamsGrow;
    forall x | x in guards
      ensures x in v.sys.net.streams && GuardOk(v.sys.slots, v.sys.net.streams[x].sent, x, v.processes[x], guards[x])
    {
      GrownGuard(w.sys, v.sys, x, w.processes[x], guards[x]);
    }
  }

  lemma OneGuardMoves(w: W.World, guards: map<StreamId, G.System>, x: StreamId, p: W.Process, g: G.System)
    requires GuardsOk(w, guards) && x in guards
    requires x in w.sys.net.streams && GuardOk(w.sys.slots, w.sys.net.streams[x].sent, x, p, g)
    ensures GuardsOk(W.World(w.sys, w.processes[x := p]), guards[x := g])
  {
    hide GuardOk;
  }

  lemma GuardAt(w: W.World, guards: map<StreamId, G.System>, x: StreamId)
    requires GuardsOk(w, guards) && x in guards
    ensures x in w.processes && x in w.sys.net.streams
    ensures GuardOk(w.sys.slots, w.sys.net.streams[x].sent, x, w.processes[x], guards[x])
  {
    hide GuardOk;
  }

  lemma NewProcessGuard(slots: C.Slots, sent: seq<Command>, x: StreamId)
    ensures GuardOk(slots, sent, x, W.CONNECTED, G.EMPTY)
  {
    G.EmptyReachable();
    hide G.Reachable;
  }

  lemma ConnectKeepsGuards(w: W.World, guards: map<StreamId, G.System>, x: StreamId)
    requires GuardsOk(w, guards) && C.Inv(w.sys) && W.Enabled(w, W.Connect(x))
    ensures GuardsOk(W.Do(w, W.Connect(x)), guards[x := G.EMPTY])
  {
    hide C.Inv, C.Do, C.Enabled, GuardOk, StreamsGrow;
    var b := C.Net(Streams.Open(x));
    SysStepStreams(w.sys, b);
    OtherGuardsKept(w, W.World(C.Do(w.sys, b), w.processes), guards);
    NewProcessGuard(C.Do(w.sys, b).slots, [], x);
    OpenedStream(w.sys, x);
    NewProcessGuard(C.Do(w.sys, b).slots, C.Do(w.sys, b).net.streams[x].sent, x);
  }

  lemma OpenedStream(s: C.System, x: StreamId)
    requires C.Enabled(s, C.Net(Streams.Open(x)))
    ensures x in C.Do(s, C.Net(Streams.Open(x))).net.streams
  {
  }

  lemma ThreadsHere(w: W.World, x: StreamId)
    requires W.Inv(w) && x in w.processes
    ensures W.ThreadsOf(w.sys.slots, x, w.processes[x]) && C.Inv(w.sys)
  {
    hide C.Inv, W.Tokens, W.OriginOf, W.ThreadsOf;
    assert W.ProcessOk(w.sys, x, w.processes[x]);
  }

  lemma SysStepKeepsGuards(w: W.World, guards: map<StreamId, G.System>, b: C.Step, v: W.World)
    requires GuardsOk(w, guards) && C.Inv(w.sys) && C.Enabled(w.sys, b) && v == W.World(C.Do(w.sys, b), w.processes)
    ensures GuardsOk(v, guards)
  {
    hide C.Inv, C.Do, C.Enabled, GuardsOk, StreamsGrow;
    SysStepStreams(w.sys, b);
    OtherGuardsKept(w, v, guards);
  }

  lemma SendKeepsGuards(w: W.World, guards: map<StreamId, G.System>, x: StreamId)
    requires GuardsOk(w, guards) && C.Inv(w.sys) && W.Enabled(w, W.Send(x)) && x in guards
    ensures GuardsOk(W.Do(w, W.Send(x)), guards)
  {
    hide C.Inv, C.Do, C.Enabled, GuardOk, GuardsOk;
    var p := w.processes[x];
    var b := C.Arrive(x, p.outbox[0]);
    var v := W.World(C.Do(w.sys, b), w.processes);
    SysStepKeepsGuards(w, guards, b, v);
    GuardAt(v, guards, x);
    OutboxUnguarded(v.sys.slots, v.sys.net.streams[x].sent, x, p, guards[x]);
    OneGuardMoves(v, guards, x, p.(outbox := p.outbox[1..]), guards[x]);
    assert guards[x := guards[x]] == guards;
  }

  lemma OutboxUnguarded(slots: C.Slots, sent: seq<Command>, x: StreamId, p: W.Process, g: G.System)
    requires GuardOk(slots, sent, x, p, g) && p.outbox != []
    ensures GuardOk(slots, sent, x, p.(outbox := p.outbox[1..]), g)
  {
    hide G.Reachable, CodesCame, PromptsOnce, Unprompted;
  }

  lemma EmitKeepsGuards(w: W.World, guards: map<StreamId, G.System>, x: StreamId, k: nat)
    requires GuardsOk(w, guards) && W.Enabled(w, W.Emit(x, k)) && x in guards
    ensures GuardsOk(W.Do(w, W.Emit(x, k)), guards)
  {
    hide GuardOk, GuardsOk, W.Emitted;
    GuardAt(w, guards, x);
    EventEmitted(w.sys.slots, w.sys.net.streams[x].sent, x, w.processes[x], guards[x], k);
    OneGuardMoves(w, guards, x, W.Emitted(w.processes[x], k), guards[x]);
    assert guards[x := guards[x]] == guards;
  }

  lemma EmittedWorld(w: W.World, x: StreamId, k: nat)
    requires W.Enabled(w, W.Emit(x, k))
    ensures x in w.processes && k in w.processes[x].threads && w.processes[x].threads[k].remaining != []
    ensures W.Do(w, W.Emit(x, k)) == W.World(w.sys, w.processes[x := W.Emitted(w.processes[x], k)])
  {
    hide W.Emitted;
  }

  lemma PromptKeepsGuards(w: W.World, guards: map<StreamId, G.System>, x: StreamId, k: nat, r: RequestId)
    requires W.Enabled(w, W.Emit(x, k))
    requires w.processes[x].threads[k].remaining[0].Guard? && w.processes[x].threads[k].remaining[0].id == r
    requires W.Inv(w) && GuardsOk(w, guards) && x in guards
    ensures G.Enabled(guards[x], G.Prompt(r))
    ensures GuardsOk(W.Do(w, W.Emit(x, k)), guards[x := G.Do(guards[x], G.Prompt(r))])
  {
    hide W.Inv, W.Do, W.Enabled, GuardOk, GuardsOk, W.Emitted, W.ThreadsOf, C.Inv, G.Do, G.Enabled;
    EmittedWorld(w, x, k);
    GuardAt(w, guards, x);
    ThreadsHere(w, x);
    PromptMoves(w.sys.slots, w.sys.net.streams[x].sent, x, w.processes[x], guards[x], k);
    OneGuardMoves(w, guards, x, W.Emitted(w.processes[x], k), G.Do(guards[x], G.Prompt(r)));
  }

  lemma TakeKeepsGuards(c: A.Setup, w: W.World, guards: map<StreamId, G.System>, x: StreamId,
                        link: WorkerAgent.LinkRun, friends: WorkerAgent.FriendsRun)
    requires W.Enabled(w, W.TakeCommand(x, link, friends)) && x in guards
    requires var command := w.sys.net.streams[x].sent[w.processes[x].taken]; IsRequest(command) && Genuine(c, command, link, friends)
    requires C.Inv(w.sys) && GuardsOk(w, guards)
    ensures GuardsOk(W.Do(w, W.TakeCommand(x, link, friends)), guards)
  {
    hide C.Inv, GuardOk, GuardsOk, W.Received, Genuine;
    GuardAt(w, guards, x);
    var p, sent := w.processes[x], w.sys.net.streams[x].sent;
    CommandOfCall(w.sys, x, p.taken);
    RequestTaken(c, w.sys.slots, sent, x, p, guards[x], link, friends);
    OneGuardMoves(w, guards, x, W.Received(p, sent[p.taken], link, friends), guards[x]);
    assert guards[x := guards[x]] == guards;
  }

  lemma SubmitKeepsGuards(w: W.World, guards: map<StreamId, G.System>, x: StreamId, id: RequestId, code: string)
    requires W.Enabled(w, W.TakeCommand(x, NO_LINK, NO_FRIENDS)) && x in guards
    requires w.sys.net.streams[x].sent[w.processes[x].taken] == SubmitGuardCode(id, code)
    requires GuardsOk(w, guards)
    ensures G.Enabled(guards[x], G.WriteCode(w.processes[x].taken, id, code))
    ensures GuardsOk(W.Do(w, W.TakeCommand(x, NO_LINK, NO_FRIENDS)),
                     guards[x := G.Do(guards[x], G.WriteCode(w.processes[x].taken, id, code))])
  {
    hide GuardOk, GuardsOk, W.Received, G.Do, G.Enabled;
    GuardAt(w, guards, x);
    var p, sent := w.processes[x], w.sys.net.streams[x].sent;
    CodeSubmitted(w.sys.slots, sent, x, p, guards[x], id, code);
    OneGuardMoves(w, guards, x, W.Received(p, sent[p.taken], NO_LINK, NO_FRIENDS),
                  G.Do(guards[x], G.WriteCode(p.taken, id, code)));
  }

  lemma WaitKeepsGuards(w: W.World, guards: map<StreamId, G.System>, x: StreamId, g: G.Step)
    requires GuardsOk(w, guards) && x in guards && G.Enabled(guards[x], g) && !g.Prompt? && !g.WriteCode?
    ensures GuardsOk(w, guards[x := G.Do(guards[x], g)])
  {
    hide GuardOk, GuardsOk, G.Do, G.Enabled;
    GuardAt(w, guards, x);
    GuardMoves(w.sys.slots, w.sys.net.streams[x].sent, x, w.processes[x], guards[x], g);
    OneGuardMoves(w, guards, x, w.processes[x], G.Do(guards[x], g));
    assert w.processes[x := w.processes[x]] == w.processes;
  }

  lemma SysStepAlone(c: A.Setup, s: State, a: Step)
    requires Enabled(c, s, a)
    requires a.Net? || a.AskWorker? || a.LinkReturns? || a.AskFriends? || a.FriendsReturn?
    ensures WorldStep(c, s, a).Some? && WorldStep(c, s, a).value.ControlPlane?
    ensures C.Enabled(s.world.sys, WorldStep(c, s, a).value.step)
    ensures WorldAfter(c, s, a) == W.World(C.Do(s.world.sys, WorldStep(c, s, a).value.step), s.world.processes)
    ensures GuardsAfter(c, s, a) == s.guards
  {
    hide C.Enabled, C.Do, A.Enabled, L.Enabled, G.Enabled, LS.Routed, LS.UsedRequest, LS.Enabled;
    WorldStepEnabled(c, s, a);
  }

  lemma ConnectedGuards(c: A.Setup, s: State, a: Step)
    requires C.Inv(s.world.sys) && GuardsOk(s.world, s.guards) && Enabled(c, s, a) && a.Connect?
    ensures GuardsOk(WorldAfter(c, s, a), GuardsAfter(c, s, a))
  {
    hide C.Inv, GuardsOk, W.Enabled, W.Do, G.Do, G.Enabled;
    ConnectKeepsGuards(s.world, s.guards, a.x);
  }

  lemma RequestGuards(c: A.Setup, s: State, a: Step)
    requires C.Inv(s.world.sys) && GuardsOk(s.world, s.guards) && Enabled(c, s, a) && a.TakeCommand?
    ensures GuardsOk(WorldAfter(c, s, a), GuardsAfter(c, s, a))
  {
    hide C.Inv, GuardsOk, W.Enabled, W.Do, Genuine;
    WorldStepEnabled(c, s, a);
    TakeKeepsGuards(c, s.world, s.guards, a.x, a.link, a.friends);
  }

  lemma CodeGuards(c: A.Setup, s: State, a: Step)
    requires GuardsOk(s.world, s.guards) && Enabled(c, s, a) && a.TakeGuardCode?
    ensures GuardsOk(WorldAfter(c, s, a), GuardsAfter(c, s, a))
  {
    hide GuardsOk, W.Enabled, W.Do, G.Do, G.Enabled;
    WorldStepEnabled(c, s, a);
    SubmitKeepsGuards(s.world, s.guards, a.x, NextCommand(s, a.x).id, NextCommand(s, a.x).code);
  }

  lemma EventGuards(c: A.Setup, s: State, a: Step)
    requires W.Inv(s.world) && GuardsOk(s.world, s.guards) && Enabled(c, s, a) && (a.Emit? || a.Prompt?)
    ensures GuardsOk(WorldAfter(c, s, a), GuardsAfter(c, s, a))
  {
    hide W.Inv, GuardsOk, W.Do, G.Do, G.Enabled, MayReport;
    if a.Emit? {
      EmitKeepsGuards(s.world, s.guards, a.x, a.k);
    } else {
      PromptKeepsGuards(s.world, s.guards, a.x, a.k, NextEvent(s, a.x, a.k).id);
    }
  }

  lemma SentGuards(c: A.Setup, s: State, a: Step)
    requires C.Inv(s.world.sys) && GuardsOk(s.world, s.guards) && Enabled(c, s, a) && a.Send?
    ensures GuardsOk(WorldAfter(c, s, a), GuardsAfter(c, s, a))
  {
    hide C.Inv, C.Enabled, GuardsOk, W.Do;
    GuardsAreProcesses(s.world, s.guards);
    SendKeepsGuards(s.world, s.guards, a.x);
  }

  lemma OwnGuards(c: A.Setup, s: State, a: Step)
    requires GuardsOk(s.world, s.guards) && Enabled(c, s, a) && (a.Guard? || a.App?)
    ensures GuardsOk(WorldAfter(c, s, a), GuardsAfter(c, s, a))
  {
    hide GuardsOk, G.Do, G.Enabled, A.Enabled;
    if a.Guard? {
      WaitKeepsGuards(s.world, s.guards, a.x, a.g);
    }
  }

  lemma GuardsKept(c: A.Setup, s: State, a: Step)
    requires W.Inv(s.world) && GuardsOk(s.world, s.guards) && Enabled(c, s, a)
    ensures GuardsOk(WorldAfter(c, s, a), GuardsAfter(c, s, a))
  {
    hide W.Inv, C.Inv, GuardsOk, Enabled, WorldAfter, GuardsAfter;
    WorldInv(s.world);
    match a {
      case Connect(_) => ConnectedGuards(c, s, a);
      case TakeCommand(_, _, _) => RequestGuards(c, s, a);
      case TakeGuardCode(_) => CodeGuards(c, s, a);
      case Emit(_, _) => EventGuards(c, s, a);
      case Prompt(_, _) => EventGuards(c, s, a);
      case Send(_) => SentGuards(c, s, a);
      case Guard(_, _) => OwnGuards(c, s, a);
      case App(_) => OwnGuards(c, s, a);
      case _ =>
        SysStepAlone(c, s, a);
        SysStepKeepsGuards(s.world, s.guards, WorldStep(c, s, a).value.step, WorldAfter(c, s, a));
    }
  }

  lemma GuardsAreProcesses(w: W.World, guards: map<StreamId, G.System>)
    requires GuardsOk(w, guards)
    ensures guards.Keys == w.processes.Keys
  {
    hide GuardOk;
  }

  lemma WorldInv(w: W.World)
    requires W.Inv(w)
    ensures C.Inv(w.sys)
  {
    hide C.Inv, W.ProcessesOk, W.Tokens;
  }

  // ----- Handlers that wait for a friends call

  lemma SentCallsStay(c: A.Setup, s: A.State, b: A.Step, f: nat)
    requires P.Lawful(c.creds.pr) && L.Known(s.links) && A.Enabled(c, s, b)
    requires f in s.calls && s.calls[f].Sent? && !(b.Reply? && b.f == f)
    ensures f in A.Do(c, s, b).calls && A.Do(c, s, b).calls[f] == s.calls[f]
  {
    hide P.Lawful, L.Known, L.Do, L.Enabled, Credentials.Do, Credentials.Enabled, A.ServedKey, A.KeyRead, Crypto.Decrypt, A.WantsBackfill;
  }

  lemma AppKeepsAsked(c: A.Setup, s: State, a: Step)
    requires P.Lawful(c.creds.pr) && L.Known(s.app.links) && Enabled(c, s, a)
    requires AskedOk(s.world.sys.calls, s.app.calls, s.asked)
    ensures forall f :: f in s.asked && !(a.FriendsReturn? && a.f == f) ==>
              f in AppAfter(c, s, a).calls && AppAfter(c, s, a).calls[f] == s.app.calls[f]
  {
    hide P.Lawful, L.Known, A.Enabled, A.Do, C.Enabled, W.Enabled, LS.Enabled, G.Enabled, Genuine, LS.Routed, LS.UsedRequest;
    AppStepOk(c, s, a);
    forall f | f in s.asked && !(a.FriendsReturn? && a.f == f)
      ensures f in AppAfter(c, s, a).calls && AppAfter(c, s, a).calls[f] == s.app.calls[f]
    {
      assert AskedFor(s.world.sys.calls, s.app.calls, f, s.asked[f]);
      if AppStep(c, s, a).Some? {
        SentCallsStay(c, s.app, AppStep(c, s, a).value, f);
      }
    }
  }

  lemma WorldGrows(c: A.Setup, s: State, a: Step)
    requires Enabled(c, s, a)
    ensures CallsGrow(s.world.sys.calls, WorldAfter(c, s, a).sys.calls)
  {
    hide Enabled, WorldStep, W.Enabled, W.Do, CallsGrow;
    WorldStepOk(c, s, a);
    if WorldStep(c, s, a).Some? {
      WorldStepGrows(s.world, WorldStep(c, s, a).value);
    } else {
      SameCallsGrow(s.world.sys.calls);
    }
  }

  lemma SameCallsGrow(calls: C.Calls)
    ensures CallsGrow(calls, calls)
  {
  }

  lemma WorldStepGrows(w: W.World, b: W.Step)
    requires W.Enabled(w, b)
    ensures CallsGrow(w.sys.calls, W.Do(w, b).sys.calls)
  {
    hide C.Do, C.Enabled, CallsGrow;
    match b {
      case ControlPlane(d) => SysStepGrows(w.sys, d);
      case Connect(x) => SysStepGrows(w.sys, C.Net(Streams.Open(x)));
      case Send(x) => SysStepGrows(w.sys, C.Arrive(x, w.processes[x].outbox[0]));
      case _ => SameCallsGrow(w.sys.calls);
    }
  }

  lemma AskedCall(c: A.Setup, s: State, a: Step)
    requires P.Lawful(c.creds.pr) && L.Known(s.app.links) && Enabled(c, s, a) && a.AskFriends?
    ensures AskedFor(WorldAfter(c, s, a).sys.calls, AppAfter(c, s, a).calls, a.f, a.r)
  {
    hide P.Lawful, L.Known, LS.UsedRequest, L.Enabled, A.Do, A.Enabled;
    WorldStepOk(c, s, a);
    LS.BeginNet(s.world.sys, a.r, a.h, AskingFriends(s, a.f, a.r, a.h).command, false, false);
  }

  lemma AskedKept(c: A.Setup, s: State, a: Step)
    requires P.Lawful(c.creds.pr) && L.Known(s.app.links) && Enabled(c, s, a)
    requires AskedOk(s.world.sys.calls, s.app.calls, s.asked)
    ensures AskedOk(WorldAfter(c, s, a).sys.calls, AppAfter(c, s, a).calls, AskedAfter(s, a))
  {
    hide P.Lawful, L.Known, Enabled, WorldAfter, AppAfter;
    AppKeepsAsked(c, s, a);
    WorldGrows(c, s, a);
    if a.AskFriends? {
      AskedCall(c, s, a);
    }
    forall f | f in AskedAfter(s, a)
      ensures AskedFor(WorldAfter(c, s, a).sys.calls, AppAfter(c, s, a).calls, f, AskedAfter(s, a)[f])
    {
      if !(a.AskFriends? && a.f == f) {
        assert AskedFor(s.world.sys.calls, s.app.calls, f, s.asked[f]);
      }
    }
  }

  // ----- Every step is a step of the two halves of linking

  /** The step of LinkStack that a step is, if it is one. */
  ghost function StackStep(c: A.Setup, s: State, a: Step): Option<LS.Step>
    requires Enabled(c, s, a)
  {
    match a
    case Net(b) => Some(LS.Worker(b))
    case Connect(x) => Some(LS.Worker(C.Net(Streams.Open(x))))
    case Send(x) => Some(LS.Worker(C.Arrive(x, s.world.processes[x].outbox[0])))
    case App(b) => if AccountStep(s.app, b).Some? then Some(LS.Account(AccountStep(s.app, b).value)) else None
    case AskWorker(r, h) => Some(LS.AskWorker(r, h))
    case LinkReturns(r) => Some(LS.LinkReturns(r))
    case AskFriends(f, r, h) => Some(LS.Worker(AskingFriends(s, f, r, h)))
    case FriendsReturn(f) => Some(LS.Worker(C.Remove(s.asked[f])))
    case _ => None
  }

  function AccountStep(s: A.State, b: A.Step): Option<L.Step> {
    match b
    case Links(d) => Some(d)
    case BeginAdd(n, user, login) =>
      if L.WellFormed(login) && A.ServedKey(s, user).Some? then Some(L.CheckKey(n, user, login, A.ServedKey(s, user).value)) else None
    case _ => None
  }

  lemma AccountStepIs(c: A.Setup, s: A.State, b: A.Step)
    requires Credentials.Sound(c.creds) && A.Reachable(c, s) && L.Known(s.links) && A.Enabled(c, s, b)
    ensures var d := AccountStep(s, b);
            && (d.Some? ==> L.Enabled(A.LinkSetup(c), s.links, d.value) && A.Do(c, s, b).links == L.Do(A.LinkSetup(c), s.links, d.value))
            && (d.None? ==> A.Do(c, s, b).links == s.links)
  {
    hide P.Lawful, P.CollisionFree, Crypto.Lawful, A.Reachable, L.Known, L.Do, A.WantsBackfill, A.ServedKey, A.KeyRead,
         Credentials.Do, Credentials.Enabled, Crypto.Decrypt;
    if b.Backfill? {
      A.BackfillNeverFires(c, s, b.f);
    } else if b.BeginAdd? {
      CheckedKey(c, s, b);
    }
    hide A.TokenSent;
  }

  lemma CheckedKey(c: A.Setup, s: A.State, b: A.Step)
    requires P.Lawful(c.creds.pr) && L.Known(s.links) && A.Enabled(c, s, b) && b.BeginAdd?
    ensures var d := AccountStep(s, b);
            && (d.Some? ==> L.Enabled(A.LinkSetup(c), s.links, d.value) && A.Do(c, s, b).links == L.Do(A.LinkSetup(c), s.links, d.value))
            && (d.None? ==> A.Do(c, s, b).links == s.links)
  {
    hide P.Lawful, L.Known, A.ServedKey, A.KeyRead;
  }

  lemma WorkerMoves(c: A.Setup, s: State, a: Step)
    requires P.Lawful(c.creds.pr) && L.Known(s.app.links) && Enabled(c, s, a) && GoodWorld(c, s.world)
    requires AskedOk(s.world.sys.calls, s.app.calls, s.asked)
    requires a.Net? || a.Connect? || a.Send? || a.AskFriends? || a.FriendsReturn?
    ensures StackStep(c, s, a).Some? && LS.Enabled(A.LinkSetup(c), Stack(s), StackStep(c, s, a).value)
    ensures WorldAfter(c, s, a).sys == C.Do(s.world.sys, StackStep(c, s, a).value.w) && AppAfter(c, s, a).links == s.app.links
    ensures StackStep(c, s, a).value.Worker?
  {
    hide P.Lawful, L.Known, C.Do, C.Enabled, L.Enabled, LS.Routed, LS.UsedRequest, GoodWorld, L.OwnerOfToken, Credentials.Enabled;
    WorldStepOk(c, s, a);
    if a.Send? {
      SendGood(c, s.world, a.x);
    } else if a.FriendsReturn? {
      assert AskedFor(s.world.sys.calls, s.app.calls, a.f, s.asked[a.f]);
    }
  }

  lemma AccountMoves(c: A.Setup, s: State, a: Step)
    requires Credentials.Sound(c.creds) && A.Reachable(c, s.app) && L.Known(s.app.links) && Enabled(c, s, a) && a.App?
    ensures StackStep(c, s, a).Some? ==>
              && StackStep(c, s, a).value.Account?
              && LS.Enabled(A.LinkSetup(c), Stack(s), StackStep(c, s, a).value)
              && AppAfter(c, s, a).links == L.Do(A.LinkSetup(c), s.app.links, StackStep(c, s, a).value.a)
    ensures StackStep(c, s, a).None? ==> AppAfter(c, s, a).links == s.app.links
    ensures WorldAfter(c, s, a) == s.world
  {
    hide P.Lawful, P.CollisionFree, Crypto.Lawful, A.Reachable, A.Enabled, A.Do, L.Known, L.Do, L.Enabled, A.ServedKey;
    AccountStepIs(c, s.app, a.a);
  }

  lemma BothMove(c: A.Setup, s: State, a: Step)
    requires P.Lawful(c.creds.pr) && L.Known(s.app.links) && Enabled(c, s, a) && (a.AskWorker? || a.LinkReturns?)
    ensures StackStep(c, s, a).Some? && LS.Enabled(A.LinkSetup(c), Stack(s), StackStep(c, s, a).value)
    ensures LS.State(WorldAfter(c, s, a).sys, AppAfter(c, s, a).links) == LS.Do(A.LinkSetup(c), Stack(s), StackStep(c, s, a).value)
  {
    hide P.Lawful, L.Known, C.Do, C.Enabled, L.Do, L.Enabled;
    WorldStepOk(c, s, a);
    AppStepOk(c, s, a);
  }

  lemma NeitherMoves(c: A.Setup, s: State, a: Step)
    requires P.Lawful(c.creds.pr) && L.Known(s.app.links) && Enabled(c, s, a)
    requires a.TakeCommand? || a.TakeGuardCode? || a.Emit? || a.Prompt? || a.Guard?
    ensures StackStep(c, s, a).None? && WorldAfter(c, s, a).sys == s.world.sys && AppAfter(c, s, a) == s.app
  {
    hide P.Lawful, L.Known, G.Enabled, Genuine, MayReport, W.Received, W.Emitted;
    WorldStepOk(c, s, a);
  }

  lemma StackMoves(c: A.Setup, s: State, a: Step)
    requires Credentials.Sound(c.creds) && Inv(c, s) && L.Known(s.app.links) && Enabled(c, s, a)
    ensures StackStep(c, s, a).Some? ==>
              && LS.Enabled(A.LinkSetup(c), Stack(s), StackStep(c, s, a).value)
              && Stack(Do(c, s, a)) == LS.Do(A.LinkSetup(c), Stack(s), StackStep(c, s, a).value)
    ensures StackStep(c, s, a).None? ==> Stack(Do(c, s, a)) == Stack(s)
  {
    hide P.Lawful, P.CollisionFree, Crypto.Lawful, L.Known, Enabled, LS.Enabled, C.Do, L.Do, WorldAfter, AppAfter, GuardsAfter,
         AskedAfter, A.Reachable, W.Reachable, LS.Reachable, GoodWorld, AskedOk, GuardsOk, StackStep;
    match a {
      case App(_) => AccountMoves(c, s, a);
      case AskWorker(_, _) => BothMove(c, s, a);
      case LinkReturns(_) => BothMove(c, s, a);
      case TakeCommand(_, _, _) => NeitherMoves(c, s, a);
      case TakeGuardCode(_) => NeitherMoves(c, s, a);
      case Emit(_, _) => NeitherMoves(c, s, a);
      case Prompt(_, _) => NeitherMoves(c, s, a);
      case Guard(_, _) => NeitherMoves(c, s, a);
      case _ => WorkerMoves(c, s, a);
    }
  }

  lemma PartsMove(c: A.Setup, s: State, a: Step)
    requires Credentials.Sound(c.creds) && Inv(c, s) && L.Known(s.app.links) && Enabled(c, s, a)
    ensures PartsReachable(c, Do(c, s, a))
  {
    hide P.Lawful, P.CollisionFree, Crypto.Lawful, L.Known, Enabled, LS.Enabled, LS.Do, W.Enabled, W.Do, A.Enabled, A.Do,
         WorldStep, AppStep, StackStep, GuardsAfter, AskedAfter, A.Reachable, W.Reachable, LS.Reachable, GoodWorld, AskedOk, GuardsOk;
    WorldStepOk(c, s, a);
    AppStepOk(c, s, a);
    StackMoves(c, s, a);
    if WorldStep(c, s, a).Some? {
      W.ReachableStep(s.world, WorldStep(c, s, a).value);
    }
    if AppStep(c, s, a).Some? {
      A.ReachableStep(c, s.app, AppStep(c, s, a).value);
    }
    if StackStep(c, s, a).Some? {
      LS.ReachableStep(A.LinkSetup(c), Stack(s), StackStep(c, s, a).value);
    }
  }

  lemma WorldKeptGood(c: A.Setup, s: State, a: Step)
    requires C.Inv(s.world.sys) && GoodWorld(c, s.world) && Enabled(c, s, a)
    ensures GoodWorld(c, WorldAfter(c, s, a))
  {
    hide C.Inv, GoodWorld, Enabled, WorldStep, W.Enabled, W.Do;
    WorldStepOk(c, s, a);
    if WorldStep(c, s, a).Some? {
      WorldStepGenuine(c, s, a);
      WorldStepGood(c, s.world, WorldStep(c, s, a).value);
    }
  }

  lemma StepKeepsInv(c: A.Setup, s: State, a: Step)
    requires Credentials.Sound(c.creds) && Inv(c, s) && L.Known(s.app.links) && Enabled(c, s, a)
    ensures Inv(c, Do(c, s, a))
  {
    hide P.Lawful, P.CollisionFree, Crypto.Lawful, L.Known, Enabled, W.Inv, C.Inv, WorldAfter, AppAfter, GuardsAfter, AskedAfter,
         PartsReachable, GoodWorld, AskedOk, GuardsOk;
    InvSys(c, s);
    PartsMove(c, s, a);
    WorldKeptGood(c, s, a);
    AskedKept(c, s, a);
    GuardsKept(c, s, a);
  }

  lemma EmptyInv(c: A.Setup)
    requires P.Lawful(c.creds.pr)
    ensures Inv(c, EMPTY)
  {
    hide P.Lawful;
    W.EmptyReachable();
    A.EmptyReachable(c);
    LS.EmptyReachable(A.LinkSetup(c));
    hide W.Reachable, A.Reachable, LS.Reachable;
  }

  lemma {:induction false} RunKeepsInv(c: A.Setup, s: State, steps: seq<Step>, t: State)
    requires Credentials.Sound(c.creds) && Inv(c, s) && Runs(c, s, steps, t)
    ensures Inv(c, t)
    decreases |steps|
  {
    hide P.Lawful, P.CollisionFree, Crypto.Lawful, Inv, L.Known, Do, Enabled;
    if steps != [] {
      StepKeepsInv(c, s, steps[0]);
      RunKeepsInv(c, Do(c, s, steps[0]), steps[1..], t);
    }
  }

  lemma ReachableInv(c: A.Setup, s: State)
    requires Credentials.Sound(c.creds) && Reachable(c, s)
    ensures Inv(c, s)
  {
    hide P.Lawful, P.CollisionFree, Crypto.Lawful, Inv, Runs;
    var steps :| Runs(c, EMPTY, steps, s);
    EmptyInv(c);
    RunKeepsInv(c, EMPTY, steps, s);
  }

  // ----- What holds in every run

  /** Every run here is a run of each part: of the streams and workers, of the handlers, of the
      two halves of linking, and of each worker's guard-code field. */
  lemma ReachableInParts(c: A.Setup, s: State)
    requires Credentials.Sound(c.creds) && Reachable(c, s)
    ensures W.Reachable(s.world) && A.Reachable(c, s.app) && LS.Reachable(A.LinkSetup(c), Stack(s))
    ensures forall x :: x in s.guards ==> G.Reachable(s.guards[x])
    ensures s.guards.Keys == s.world.processes.Keys
  {
    hide P.Lawful, P.CollisionFree, Crypto.Lawful, Reachable, A.Reachable, W.Reachable, LS.Reachable, G.Reachable, GoodWorld, AskedOk;
    ReachableInv(c, s);
    GuardsAreProcesses(s.world, s.guards);
    forall x | x in s.guards
      ensures G.Reachable(s.guards[x])
    {
      hide GuardOk;
      GuardAt(s.world, s.guards, x);
      GuardParts(s.world.sys.slots, s.world.sys.net.streams[x].sent, x, s.world.processes[x], s.guards[x]);
    }
  }

  lemma GuardParts(slots: C.Slots, sent: seq<Command>, x: StreamId, p: W.Process, g: G.System)
    requires GuardOk(slots, sent, x, p, g)
    ensures G.Reachable(g) && CodesCame(sent, p.taken, g.written) && WaitersOk(slots, x, p, g.waiters)
    ensures LoginsOk(slots, sent, p, g.waiters)
  {
    hide G.Reachable, CodesCame, WaitersOk, LoginsOk;
  }

  lemma InvWorld(c: A.Setup, s: State)
    requires P.Lawful(c.creds.pr) && Inv(c, s)
    ensures GoodWorld(c, s.world) && AskedOk(s.world.sys.calls, s.app.calls, s.asked)
    ensures Replies.GoodPhases(Good(c, s.world.sys.calls), s.world.sys.phases)
  {
    hide P.Lawful, PartsReachable, GuardsOk, AskedOk, GoodProcesses, Replies.GoodPhases, GoodReply;
  }

  /** The reply is of the command's kind, and the owner in it is the subject of the token it
      returns or was asked about. */
  predicate NamesSubject(c: A.Setup, command: Command, reply: Reply) {
    match reply
    case LinkReply(_, LinkOk(owner, refreshToken)) => command.LinkAccount? && SteamLogin.IsSubject(c.claims, refreshToken, owner)
    case LinkReply(_, LinkError(_)) => command.LinkAccount?
    case FriendsReply(_, FriendsOk(owner, _)) =>
      command.ListFriends? && SteamLogin.IsSubject(c.claims, command.refreshToken, owner)
    case FriendsReply(_, FriendsError(_)) => command.ListFriends?
  }

  /** A link call that returns a token returns it with its subject, and a friends call that
      returns friends names the subject of the token it was given: for every run, on the
      premise alone that workers run the worker's code. */
  lemma RepliesNameSubjects(c: A.Setup, s: State, r: RequestId)
    requires Credentials.Sound(c.creds) && Reachable(c, s) && r in s.world.sys.phases && C.AnswerOf(s.world.sys.phases[r]).Some?
    ensures r in s.world.sys.calls
    ensures var (command, reply) := (s.world.sys.calls[r].command, C.AnswerOf(s.world.sys.phases[r]).value);
            reply.requestId == r && NamesSubject(c, command, reply)
  {
    hide P.Lawful, P.CollisionFree, Crypto.Lawful, Reachable, Inv, W.Reachable, C.Inv, Jwt.SteamIdFromJwt;
    ReachableInv(c, s);
    InvWorld(c, s);
    InvSys(c, s);
    LS.SysKeys(s.world.sys);
    C.InvChannels(s.world.sys);
    C.OwnCommand(s.world.sys, r);
    hide C.HandlesOwned, C.BuffersAnswer;
    hide GoodWorld, AskedOk;
    assert C.Answers(s.world.sys.calls, r, C.AnswerOf(s.world.sys.phases[r]).value);
    assert Good(c, s.world.sys.calls)(C.AnswerOf(s.world.sys.phases[r]).value);
  }

  lemma InvSys(c: A.Setup, s: State)
    requires P.Lawful(c.creds.pr) && Inv(c, s)
    ensures C.Inv(s.world.sys) && W.Inv(s.world)
  {
    hide P.Lawful, A.Reachable, W.Reachable, LS.Reachable, GoodWorld, AskedOk, GuardsOk, W.Inv, C.Inv;
    W.ReachableInv(s.world);
    WorldInv(s.world);
  }

  /** Every event a worker is about to send says the truth about its token. */
  lemma WorkersAreHonest(c: A.Setup, s: State, x: StreamId)
    requires Credentials.Sound(c.creds) && Reachable(c, s) && x in s.world.processes
    ensures GoodProcess(c, s.world.sys.calls, s.world.processes[x])
  {
    hide P.Lawful, P.CollisionFree, Crypto.Lawful, Reachable, Inv, GoodProcess, GoodProcesses, Replies.All;
    ReachableInv(c, s);
    InvWorld(c, s);
    ProcessGood(c, s.world, x);
  }

  /** The friends handler never backfills, and a stored Steam id is the subject of the token that
      was returned for the account. */
  lemma StoredIdsNeedNoBackfill(c: A.Setup, s: State, f: nat, acc: A.AccountId)
    requires Credentials.Sound(c.creds) && Reachable(c, s)
    ensures f in s.app.calls && s.app.calls[f].Replied? ==> !A.WantsBackfill(s.app.calls[f].row, s.app.calls[f].owner)
    ensures acc in s.app.links.rows && s.app.links.rows[acc].steamId != "" ==>
              && acc in s.app.links.made && s.app.links.made[acc].token.Some?
              && s.app.links.rows[acc].steamId == L.Sub(A.LinkSetup(c), s.app.links.made[acc].token.value)
  {
    hide P.Lawful, P.CollisionFree, Crypto.Lawful, Reachable, A.Reachable, W.Reachable, LS.Reachable, G.Reachable, L.Reachable,
         L.Sub, A.WantsBackfill, Crypto.Decrypt;
    ReachableInParts(c, s);
    if f in s.app.calls && s.app.calls[f].Replied? {
      A.BackfillNeverFires(c, s.app, f);
    }
    if acc in s.app.links.rows {
      A.ReachableInLinks(c, s.app);
      L.RowHoldsReturnedToken(A.LinkSetup(c), s.app.links, acc);
    }
  }

  // ----- Nothing is held up by being put together

  lemma AskedHere(c: A.Setup, s: State, f: nat)
    requires P.Lawful(c.creds.pr) && Inv(c, s) && f in s.asked
    ensures AskedFor(s.world.sys.calls, s.app.calls, f, s.asked[f])
  {
    hide P.Lawful, PartsReachable, GoodWorld, GuardsOk, AskedFor;
  }

  lemma RemovableAnswer(s: C.System, r: RequestId)
    requires C.Enabled(s, C.Remove(r))
    ensures r in s.phases && s.phases[r].Returning?
    ensures OwnerIn(s.phases[r].outcome).Some? ==>
              && C.AnswerOf(s.phases[r]).Some? && C.AnswerOf(s.phases[r]).value.FriendsReply?
              && C.AnswerOf(s.phases[r]).value.friends.FriendsOk?
              && C.AnswerOf(s.phases[r]).value.friends.owner == OwnerIn(s.phases[r].outcome).value
  {
  }

  /** A friends call that is about to return finds its handler waiting, and ready to believe it. */
  lemma FriendsReturnAlwaysPossible(c: A.Setup, s: State, f: nat)
    requires Credentials.Sound(c.creds) && Reachable(c, s) && f in s.asked && C.Enabled(s.world.sys, C.Remove(s.asked[f]))
    ensures Enabled(c, s, FriendsReturn(f))
  {
    hide P.Lawful, P.CollisionFree, Crypto.Lawful, Reachable, Inv, C.Enabled, Jwt.SteamIdFromJwt;
    ReachableInv(c, s);
    AskedHere(c, s, f);
    RemovableAnswer(s.world.sys, s.asked[f]);
    if OwnerIn(s.world.sys.phases[s.asked[f]].outcome).Some? {
      RepliesNameSubjects(c, s, s.asked[f]);
    }
  }

  lemma LinkReturnAlwaysPossible(c: A.Setup, s: State, r: RequestId)
    requires Credentials.Sound(c.creds) && Reachable(c, s)
    requires C.Enabled(s.world.sys, C.Remove(r)) && LS.IsLinkCall(s.world.sys.calls, r)
    ensures Enabled(c, s, LinkReturns(r))
  {
    hide P.Lawful, P.CollisionFree, Crypto.Lawful, Reachable, A.Reachable, W.Reachable, LS.Reachable, G.Reachable, C.Enabled, LS.Enabled;
    ReachableInParts(c, s);
    LS.ReturnAlwaysPossible(A.LinkSetup(c), Stack(s), r);
  }

  lemma GuardsHere(c: A.Setup, s: State, x: StreamId)
    requires P.Lawful(c.creds.pr) && Inv(c, s) && x in s.world.processes
    ensures x in s.guards && x in s.world.sys.net.streams
    ensures GuardOk(s.world.sys.slots, s.world.sys.net.streams[x].sent, x, s.world.processes[x], s.guards[x])
  {
    hide P.Lawful, PartsReachable, GoodWorld, AskedOk, GuardOk, GuardsOk;
    GuardsAreProcesses(s.world, s.guards);
    GuardAt(s.world, s.guards, x);
  }

  /** A login that has come to its prompt can start its wait, and a guard code that has come to
      its worker can be submitted. */
  lemma GuardStepsAlwaysPossible(c: A.Setup, s: State, x: StreamId, k: nat)
    requires Credentials.Sound(c.creds) && Reachable(c, s) && x in s.world.processes
    ensures W.Enabled(s.world, W.Emit(x, k)) && s.world.processes[x].threads[k].remaining[0].Guard? ==> Enabled(c, s, Prompt(x, k))
    ensures HasNext(s, x) && NextCommand(s, x).SubmitGuardCode? ==> Enabled(c, s, TakeGuardCode(x))
  {
    hide P.Lawful, P.CollisionFree, Crypto.Lawful, Reachable, Inv, GuardOk, W.Inv, C.Inv, G.Enabled, W.ThreadsOf;
    ReachableInv(c, s);
    GuardsHere(c, s, x);
    InvSys(c, s);
    ThreadsHere(s.world, x);
    var (p, sent) := (s.world.processes[x], s.world.sys.net.streams[x].sent);
    if W.Enabled(s.world, W.Emit(x, k)) && p.threads[k].remaining[0].Guard? {
      PromptIsNew(s.world.sys.slots, sent, x, p, s.guards[x], k);
    }
    if HasNext(s, x) && NextCommand(s, x).SubmitGuardCode? {
      CodeSubmitted(s.world.sys.slots, sent, x, p, s.guards[x], NextCommand(s, x).id, NextCommand(s, x).code);
    }
  }

  // ----- Whose code, and whose login

  /** The login waits on behalf of a link call. */
  lemma LoginIsLinkCall(w: W.World, x: StreamId, i: RequestId)
    requires C.Inv(w.sys) && x in w.sys.net.streams && W.StartedOn(w.sys.slots, x, |w.sys.net.streams[x].sent|, i)
    requires IsLogin(w.sys.slots, w.sys.net.streams[x].sent, i)
    ensures LS.IsLinkCall(w.sys.calls, i)
  {
    hide C.Inv;
    W.InvParts(w.sys);
    W.SlotCommand(w.sys, i);
    W.SentAtSlot(w.sys, x, w.sys.slots[i].1);
  }

  lemma LinkOfCall(c: L.Setup, s: LS.State, i: RequestId) returns (acc: L.AccountId)
    requires Crypto.Lawful(c.cipher) && LS.Reachable(c, s) && LS.IsLinkCall(s.sys.calls, i)
    ensures acc in s.accounts.made && s.accounts.made[acc].request == Some(i)
  {
    hide Crypto.Lawful, LS.Reachable, LS.Inv, C.Inv, L.Inv, Replies.All, LS.TokensCame, LS.CodesRouted;
    LS.ReachableInv(c, s);
    LS.InvParts(c, s);
    L.LinkView(c, s.accounts, i);
    acc := s.accounts.links[i].acc;
  }

  lemma RequestsDiffer(c: L.Setup, s: LS.State, acc: L.AccountId, own: L.AccountId)
    requires Crypto.Lawful(c.cipher) && LS.Reachable(c, s)
    requires acc in s.accounts.made && own in s.accounts.made && s.accounts.made[acc].request.Some?
    ensures acc == own <==> s.accounts.made[acc].request == s.accounts.made[own].request
  {
    hide Crypto.Lawful, LS.Reachable, LS.Inv, C.Inv, L.Inv, Replies.All, LS.TokensCame, LS.CodesRouted, LS.Matched;
    LS.ReachableInv(c, s);
    LS.InvParts(c, s);
    L.InvRequests(c, s.accounts);
  }

  /** The code a login took came to its worker in a command. */
  lemma TakenCodeCame(sent: seq<Command>, taken: nat, g: G.System, i: RequestId) returns (j: nat)
    requires G.Reachable(g) && CodesCame(sent, taken, g.written) && i in g.waiters && G.TakenBy(g.waiters[i]).Some?
    ensures var code := G.TakenBy(g.waiters[i]).value; CodeAt(sent, taken, (code.request, code.code), j)
  {
    hide G.Reachable, G.Once, G.Accounted;
    G.ReachableInv(g);
    assert G.FoundLatest(g.written, g.waiters[i]);
    var code := G.TakenBy(g.waiters[i]).value;
    assert Came(sent, taken, g.written[code.number]);
    j :| CodeAt(sent, taken, (code.request, code.code), j);
  }

  /** Every code that a login on a worker takes was submitted by the user, through that worker,
      for the link of some account, acc; the login is the link of an account too, own. The code
      reaches the account it was submitted for exactly when the two are the same. */
  lemma TakenCodeIsSomeAccounts(c: A.Setup, s: State, x: StreamId, i: RequestId) returns (j: nat, acc: A.AccountId, own: A.AccountId)
    requires Credentials.Sound(c.creds) && Reachable(c, s)
    requires x in s.guards && i in s.guards[x].waiters && G.TakenBy(s.guards[x].waiters[i]).Some?
    ensures var (code, made) := (G.TakenBy(s.guards[x].waiters[i]).value, s.app.links.made);
            && x in s.world.sys.net.streams && CodeAt(s.world.sys.net.streams[x].sent, j + 1, (code.request, code.code), j)
            && acc in made && made[acc].request == Some(code.request) && (acc, code.request) in s.app.links.codes
            && own in made && made[own].request == Some(i)
            && (acc == own <==> code.request == i)
  {
    hide P.Lawful, P.CollisionFree, Crypto.Lawful, Reachable, Inv, GuardOk, W.Inv, C.Inv, G.Reachable, A.Reachable, W.Reachable,
         LS.Reachable, CodesCame;
    ReachableInv(c, s);
    ReachableInParts(c, s);
    GuardsHere(c, s, x);
    InvSys(c, s);
    var (sys, p, g) := (s.world.sys, s.world.processes[x], s.guards[x]);
    var sent := sys.net.streams[x].sent;
    GuardParts(sys.slots, sent, x, p, g);
    j := TakenCodeCame(sent, p.taken, g, i);
    W.SentAtSlot(sys, x, j);
    acc := LS.GuardCommandsNameOwnRequest(A.LinkSetup(c), Stack(s), x, j);
    LoginHere(sys.slots, sent, x, p, g, i);
    LoginIsLinkCall(s.world, x, i);
    own := LinkOfCall(A.LinkSetup(c), Stack(s), i);
    RequestsDiffer(A.LinkSetup(c), Stack(s), acc, own);
  }

  lemma LoginHere(slots: C.Slots, sent: seq<Command>, x: StreamId, p: W.Process, g: G.System, i: RequestId)
    requires WaitersOk(slots, x, p, g.waiters) && LoginsOk(slots, sent, p, g.waiters) && i in g.waiters
    ensures IsLogin(slots, sent, i) && W.StartedOn(slots, x, |sent|, i)
  {
    hide GuardsAreLogins, PromptsOnce, Unprompted;
  }

  // ----- Progress

  /** The login of r never asked for a code, or has one. */
  predicate WaitedFor(g: G.System, r: RequestId) {
    r !in g.waiters || g.waiters[r].Returned?
  }

  /** Each part goes on as it would alone, but where parts meet: the worker may choose any run its
      code allows, and a login reports once its wait allows it. */
  lemma PartsGoOn(c: A.Setup, s: State, b: C.Step, x: StreamId, k: nat, link: WorkerAgent.LinkRun, friends: WorkerAgent.FriendsRun,
                  g: G.Step, a: A.Step)
    ensures W.Enabled(s.world, W.ControlPlane(b)) && !b.Begin? && !b.Remove? && !b.RelayReads? ==> Enabled(c, s, Net(b))
    ensures W.Enabled(s.world, W.Connect(x)) ==> Enabled(c, s, Connect(x))
    ensures W.Enabled(s.world, W.Send(x)) ==> Enabled(c, s, Send(x))
    ensures HasNext(s, x) && IsRequest(NextCommand(s, x)) && Genuine(c, NextCommand(s, x), link, friends) ==>
              Enabled(c, s, TakeCommand(x, link, friends))
    ensures HasEvent(s, x, k) && IsInterim(NextEvent(s, x, k)) && !NextEvent(s, x, k).Guard? ==> Enabled(c, s, Emit(x, k))
    ensures HasEvent(s, x, k) && NextEvent(s, x, k).Final? && WaitedFor(s.guards[x], NextEvent(s, x, k).reply.requestId) ==>
              Enabled(c, s, Emit(x, k))
    ensures x in s.guards && G.Enabled(s.guards[x], g) && !g.Prompt? && !g.WriteCode? ==> Enabled(c, s, Step.Guard(x, g))
    ensures A.Enabled(c, s.app, a) && !a.Reply? && !a.Links? ==> Enabled(c, s, App(a))
  {
    hide C.Enabled, A.Enabled, L.Enabled, G.Enabled, W.Enabled, Genuine, LS.Routed;
  }

  /** A friends handler hears exactly what its call returned: the owner the worker named, or that
      there was no list. */
  lemma FriendsReturnExactly(c: A.Setup, s: State, f: nat)
    requires P.Lawful(c.creds.pr) && L.Known(s.app.links) && Enabled(c, s, FriendsReturn(f))
    ensures f in s.asked && f in s.app.calls && s.app.calls[f].Sent? && s.asked[f] in s.world.sys.phases
    ensures var (t, call, p) := (Do(c, s, FriendsReturn(f)), s.app.calls[f], s.world.sys.phases[s.asked[f]]);
            && f !in t.asked && f in t.app.calls && p.Returning?
            && (forall owner, friends, r :: p.outcome == C.Answer(FriendsReply(r, FriendsOk(owner, friends))) ==>
                  t.app.calls[f] == A.Replied(call.acc, call.row, owner))
            && (p.outcome.NoWorker? || p.outcome.Deadline? || p.outcome.reply.LinkReply? || p.outcome.reply.friends.FriendsError? ==>
                  t.app.calls[f] == A.Done)
  {
    hide P.Lawful, L.Known, Jwt.SteamIdFromJwt, C.Do, W.Do;
  }
}
