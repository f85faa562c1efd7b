/** The two halves of linking an account put together (api/steam_accounts.go,
    cmd/server/main.go, workers/link.go): the goroutine of AccountLinks asks the worker by
    beginning a call of Correlation, and ends with what that call returns. Friends calls share
    the streams and the id space. */
module LinkStack {
  import opened Wrappers
  import opened Messages
  import C = Correlation
  import Crypto
  import Jwt
  import L = AccountLinks
  import Pending
  import Replies
  import Store
  import Streams

  datatype State = State(sys: C.System, accounts: L.State)

  const EMPTY := State(C.EMPTY, L.EMPTY)

  /** AskWorker is Link's add; LinkReturns is its remove, the return, and the goroutine looking
      at the result. */
  datatype Step =
    | Worker(w: C.Step)
    | Account(a: L.Step)
    | AskWorker(r: RequestId, h: C.Handle)
    | LinkReturns(r: RequestId)

  /** StartLink's reading of what Link returned. */
  function OutcomeOf(o: C.Outcome): LinkOutcome {
    match o
    case NoWorker => LinkError("no worker connected")
    case Deadline => LinkError("context deadline exceeded")
    case Answer(LinkReply(_, link)) => link
    case Answer(FriendsReply(_, _)) => LinkError("")
  }

  /** A worker reports the subject of the token it returns. */
  predicate Honest(c: L.Setup, reply: Reply) {
    reply.LinkReply? ==> L.OwnerOfToken(c, reply.link)
  }

  function HonestReply(c: L.Setup): Reply -> bool {
    reply => Honest(c, reply)
  }

  /** Some handler was given this request id for a guard code. */
  ghost predicate Routed(codes: seq<(L.AccountId, RequestId)>, r: RequestId) {
    exists k :: 0 <= k < |codes| && codes[k].1 == r
  }

  predicate UsedRequest(made: L.MadeMap, r: RequestId) {
    exists a :: a in made && made[a].request == Some(r)
  }

  /** Link, asked with the credentials the goroutine was started with. */
  function Asking(links: L.Links, r: RequestId, h: C.Handle): C.Step
    requires r in links
  {
    C.Begin(r, h, LinkAccount(r, links[r].login.username, links[r].login.password), true, true)
  }

  /** Ids are fresh across both halves. */
  ghost predicate Enabled(c: L.Setup, s: State, a: Step) {
    match a
    case Worker(w) =>
      && C.Enabled(s.sys, w)
      && (w.Arrive? && w.event.Final? ==> Honest(c, w.event.reply))
      && (w.Begin? ==> w.command.ListFriends? && w.r !in s.accounts.links && !UsedRequest(s.accounts.made, w.r))
      && (w.RelayReads? ==> Routed(s.accounts.codes, w.command.id))
      && (w.Remove? ==> w.r in s.sys.calls && s.sys.calls[w.r].command.ListFriends?)
    case Account(b) => !b.AddPending? && !b.End? && L.Enabled(c, s.accounts, b) && (b.RecordReq? ==> b.r !in s.sys.calls)
    case AskWorker(r, h) =>
      r in s.accounts.links && L.Enabled(c, s.accounts, L.AddPending(r)) && C.Enabled(s.sys, Asking(s.accounts.links, r, h))
    case LinkReturns(r) =>
      && C.Enabled(s.sys, C.Remove(r)) && s.sys.calls[r].command.LinkAccount?
      && L.Enabled(c, s.accounts, L.End(r, OutcomeOf(s.sys.phases[r].outcome)))
  }

  ghost function Do(c: L.Setup, s: State, a: Step): State
    requires L.Known(s.accounts) && Enabled(c, s, a)
  {
    match a
    case Worker(w) => s.(sys := C.Do(s.sys, w))
    case Account(b) => s.(accounts := L.Do(c, s.accounts, b))
    case AskWorker(r, h) =>
      State(C.Do(s.sys, Asking(s.accounts.links, r, h)), L.Do(c, s.accounts, L.AddPending(r)))
    case LinkReturns(r) =>
      State(C.Do(s.sys, C.Remove(r)), L.Do(c, s.accounts, L.End(r, OutcomeOf(s.sys.phases[r].outcome))))
  }

  ghost predicate Runs(c: L.Setup, s: State, steps: seq<Step>, t: State)
    decreases |steps|
  {
    if steps == [] then s == t
    else L.Known(s.accounts) && Enabled(c, s, steps[0]) && Runs(c, Do(c, s, steps[0]), steps[1..], t)
  }

  ghost predicate Reachable(c: L.Setup, s: State) {
    exists steps :: Runs(c, EMPTY, steps, s)
  }

  // ----- The invariant

  predicate IsLinkCall(calls: C.Calls, r: RequestId) {
    r in calls && calls[r].command.LinkAccount?
  }

  /** A goroutine has a call exactly from its add on, and is Pending exactly until its remove. */
  predicate MatchedAt(calls: C.Calls, phases: C.Phases, r: RequestId, p: L.Phase) {
    if p.Spawned? then r !in calls
    else IsLinkCall(calls, r) && r in phases && (p.Pending? <==> !phases[r].Done?)
  }

  ghost predicate Matched(calls: C.Calls, phases: C.Phases, links: L.Links) {
    && (forall r :: IsLinkCall(calls, r) ==> r in links)
    && (forall r :: r in links ==> MatchedAt(calls, phases, r, links[r].phase))
  }

  ghost predicate UnaskedOk(adding: L.AddingMap, calls: C.Calls) {
    forall n :: n in adding && adding[n].Recorded? ==> adding[n].r !in calls
  }

  /** The token came in a reply to the call r, under r's own id. */
  predicate CameIn(phases: C.Phases, r: RequestId, token: string) {
    && r in phases && phases[r].Done? && phases[r].outcome.Answer?
    && phases[r].outcome.reply.LinkReply? && phases[r].outcome.reply.requestId == r
    && phases[r].outcome.reply.link.LinkOk? && phases[r].outcome.reply.link.refreshToken == token
  }

  predicate CameFor(phases: C.Phases, m: L.Made) {
    m.token.Some? ==> m.request.Some? && CameIn(phases, m.request.value, m.token.value)
  }

  ghost predicate TokensCame(made: L.MadeMap, phases: C.Phases) {
    forall a :: a in made ==> CameFor(phases, made[a])
  }

  /** Every guard code on its way, or on a stream, goes under a request id some handler was given. */
  ghost predicate RelaysRouted(relays: C.Relays, codes: seq<(L.AccountId, RequestId)>) {
    forall i :: i in relays ==> Routed(codes, relays[i].1.id)
  }

  ghost predicate AcceptedRouted(net: Streams.Net, codes: seq<(L.AccountId, RequestId)>) {
    forall x, k :: x in net.streams && 0 <= k < |net.streams[x].accepted| && net.streams[x].accepted[k].SubmitGuardCode? ==>
      Routed(codes, net.streams[x].accepted[k].id)
  }

  ghost predicate CodesRouted(sys: C.System, codes: seq<(L.AccountId, RequestId)>) {
    RelaysRouted(sys.relays, codes) && AcceptedRouted(sys.net, codes)
  }

  ghost predicate Inv(c: L.Setup, s: State) {
    && C.Inv(s.sys) && L.Inv(c, s.accounts) && Replies.All(HonestReply(c), s.sys)
    && Matched(s.sys.calls, s.sys.phases, s.accounts.links)
    && UnaskedOk(s.accounts.adding, s.sys.calls)
    && TokensCame(s.accounts.made, s.sys.phases)
    && CodesRouted(s.sys, s.accounts.codes)
  }

  // ----- Guard codes

  /** A command accepted in a step is the pushing call's, or the relayed guard code. */
  ghost predicate AcceptsOnly(n: Streams.Net, m: Streams.Net, command: Option<Command>) {
    forall x, k :: x in m.streams && 0 <= k < |m.streams[x].accepted| ==>
      || (x in n.streams && k < |n.streams[x].accepted| && m.streams[x].accepted[k] == n.streams[x].accepted[k])
      || command == Some(m.streams[x].accepted[k])
  }

  lemma NetAccepts(n: Streams.Net, b: Streams.Step)
    requires Streams.Enabled(n, b)
    ensures AcceptsOnly(n, Streams.Do(n, b), if b.Enqueue? then Some(b.command) else None)
  {
  }

  lemma StepAccepts(s: C.System, w: C.Step)
    requires C.Enabled(s, w)
    ensures AcceptsOnly(s.net, C.Do(s, w).net,
                        if w.Push? then Some(s.calls[w.r].command) else if w.RelayPushes? then Some(s.relays[w.i].1) else None)
  {
    hide Streams.Do, AcceptsOnly, C.BeginCall, C.RemoveCall, C.TakeReply, C.AfterHandling;
    match w {
      case Net(b) => NetAccepts(s.net, b);
      case Handle(x) => NetAccepts(s.net, Streams.ReadyOn(x)); NothingAccepted(s.net);
      case EndSession(x) => NetAccepts(s.net, Streams.UnregisterOn(x));
      case Push(r) => NetAccepts(s.net, Streams.Enqueue(s.phases[r].x, s.calls[r].command));
      case RelayPushes(i) => NetAccepts(s.net, Streams.Enqueue(s.relays[i].0, s.relays[i].1));
      case Begin(r, h, command, onGuard, onChallenge) => BeginNet(s, r, h, command, onGuard, onChallenge); NothingAccepted(s.net);
      case Remove(r) => RemoveNet(s, r); NothingAccepted(s.net);
      case Take(r) => TakeNet(s, r); NothingAccepted(s.net);
      case _ => NothingAccepted(s.net);
    }
  }

  lemma NothingAccepted(n: Streams.Net)
    ensures AcceptsOnly(n, n, None)
  {
  }

  lemma BeginNet(s: C.System, r: RequestId, h: C.Handle, command: Command, onGuard: bool, onChallenge: bool)
    ensures C.BeginCall(s, r, h, command, onGuard, onChallenge).net == s.net
    ensures C.BeginCall(s, r, h, command, onGuard, onChallenge).relays == s.relays
  {
    hide Pending.AddLink;
  }

  lemma RemoveNet(s: C.System, r: RequestId)
    requires r in s.calls && r in s.phases && s.phases[r].Returning?
    ensures C.RemoveCall(s, r).net == s.net && C.RemoveCall(s, r).relays == s.relays
  {
    hide Pending.RemoveLink;
  }

  lemma TakeNet(s: C.System, r: RequestId)
    requires C.InFlight(s, r) && C.Inbox(s, r) != []
    ensures C.TakeReply(s, r).net == s.net && C.TakeReply(s, r).relays == s.relays
  {
  }

  lemma StepRelays(s: C.System, w: C.Step)
    requires C.Enabled(s, w)
    ensures forall i :: i in C.Do(s, w).relays ==>
              (i in s.relays && C.Do(s, w).relays[i] == s.relays[i]) || (w.RelayReads? && C.Do(s, w).relays[i].1 == w.command)
  {
    hide Streams.Do, Streams.Enabled, C.BeginCall, C.RemoveCall, C.TakeReply, C.AfterHandling;
    match w {
      case Begin(r, h, command, onGuard, onChallenge) => BeginNet(s, r, h, command, onGuard, onChallenge);
      case Remove(r) => RemoveNet(s, r);
      case Take(r) => TakeNet(s, r);
      case _ =>
    }
  }

  lemma WorkerStepRoutes(s: C.System, w: C.Step, codes: seq<(L.AccountId, RequestId)>)
    requires C.Enabled(s, w) && CodesRouted(s, codes)
    requires w.RelayReads? ==> Routed(codes, w.command.id)
    requires w.Push? ==> IsRequest(s.calls[w.r].command)
    ensures CodesRouted(C.Do(s, w), codes)
  {
    hide C.Do, Routed;
    StepAccepts(s, w);
    StepRelays(s, w);
    hide C.Enabled;
  }

  lemma PushesRequest(s: C.System, w: C.Step)
    requires C.Inv(s) && C.Enabled(s, w) && w.Push?
    ensures IsRequest(s.calls[w.r].command)
  {
    C.InvChannels(s);
    C.OwnCommand(s, w.r);
    hide C.Inv;
  }

  lemma SysStepRoutes(s: State, w: C.Step)
    requires C.Inv(s.sys) && C.Enabled(s.sys, w) && CodesRouted(s.sys, s.accounts.codes)
    requires w.RelayReads? ==> Routed(s.accounts.codes, w.command.id)
    ensures CodesRouted(C.Do(s.sys, w), s.accounts.codes)
  {
    if w.Push? {
      PushesRequest(s.sys, w);
    }
    hide C.Inv, C.Do, C.Enabled;
    WorkerStepRoutes(s.sys, w, s.accounts.codes);
  }

  lemma CodesOnlyGrow(c: L.Setup, s: L.State, b: L.Step)
    requires L.Known(s) && L.Enabled(c, s, b)
    ensures s.codes <= L.Do(c, s, b).codes
  {
    hide L.Known, L.Enabled, L.LinkSaved, L.LinkReported, L.Sub, Store.Create;
    if b.Save? {
      SavedCodes(c, s, b);
    } else if b.Report? {
      ReportedCodes(c, s, b);
    }
  }

  lemma SavedCodes(c: L.Setup, s: L.State, b: L.Step)
    requires L.Enabled(c, s, b) && b.Save?
    ensures L.LinkSaved(c, s, b.r, b.nonce, b.storeFails).codes == s.codes
  {
    SavedShape(c, s, b.r, b.nonce, b.storeFails);
    hide L.LinkSaved;
  }

  lemma ReportedCodes(c: L.Setup, s: L.State, b: L.Step)
    requires L.Enabled(c, s, b) && b.Report?
    ensures L.LinkReported(s, b.r).codes == s.codes
  {
    hide L.ReportOf, L.AfterReport;
  }

  lemma MoreCodesRoute(sys: C.System, codes: seq<(L.AccountId, RequestId)>, more: seq<(L.AccountId, RequestId)>)
    requires CodesRouted(sys, codes) && codes <= more
    ensures CodesRouted(sys, more)
  {
    forall r | Routed(codes, r)
      ensures Routed(more, r)
    {
      var k :| 0 <= k < |codes| && codes[k].1 == r;
      assert more[k].1 == r;
    }
    hide Routed;
  }

  // ----- Steps of the worker half

  /** Link calls neither come nor go, nor return for good. */
  ghost predicate KeepsLinkCalls(s: C.System, t: C.System) {
    && (forall r :: IsLinkCall(t.calls, r) <==> IsLinkCall(s.calls, r))
    && (forall r :: IsLinkCall(s.calls, r) ==> (r in t.phases <==> r in s.phases))
    && (forall r :: IsLinkCall(s.calls, r) && r in s.phases ==> (t.phases[r].Done? <==> s.phases[r].Done?))
    && (forall r :: r in s.phases && s.phases[r].Done? ==> r in t.phases && t.phases[r] == s.phases[r])
  }

  lemma OthersKeepCalls(s: C.System, w: C.Step)
    requires C.Enabled(s, w) && !w.Begin?
    ensures C.Do(s, w).calls == s.calls
  {
    hide Streams.Do, Streams.Enabled, C.Lookup, C.AfterHandling, C.RemoveCall, C.BeginCall;
    if w.Remove? {
      RemoveKeepsCalls(s, w.r);
    }
  }

  lemma RemoveKeepsCalls(s: C.System, r: RequestId)
    requires r in s.calls && r in s.phases && s.phases[r].Returning?
    ensures C.RemoveCall(s, r).calls == s.calls
  {
    hide Pending.RemoveLink;
  }

  lemma MoverEnds(s: C.System, w: C.Step)
    requires C.Enabled(s, w) && (w.ReadSlot? || w.Push? || w.Expire? || w.Take?)
    ensures C.Mover(w) == Some(w.r) && w.r in C.Do(s, w).phases && !C.Do(s, w).phases[w.r].Done?
  {
    hide Streams.Do, Streams.Enabled;
  }

  lemma MoverIsCall(s: C.System, w: C.Step)
    requires C.Enabled(s, w) && !w.Begin? && C.Mover(w).Some? && s.phases.Keys == s.calls.Keys
    ensures C.Mover(w).value in s.calls
  {
    hide Streams.Enabled;
  }

  lemma WorkerStepKeepsLinkCalls(s: C.System, w: C.Step)
    requires C.Enabled(s, w) && s.phases.Keys == s.calls.Keys && !w.Begin?
    requires w.Remove? ==> w.r in s.calls && s.calls[w.r].command.ListFriends?
    ensures KeepsLinkCalls(s, C.Do(s, w))
  {
    hide C.Enabled, C.Do;
    OthersKeepCalls(s, w);
    if C.Mover(w).None? {
      C.OthersMoveNoPhase(s, w);
    } else {
      C.MoverMovesItsPhase(s, w);
      MoverIsCall(s, w);
      C.MovesOnlyUnfinished(s, w);
      if !w.Remove? {
        MoverEnds(s, w);
      }
    }
  }

  lemma FriendsBeginKeepsLinkCalls(s: C.System, w: C.Step)
    requires C.Enabled(s, w) && s.phases.Keys == s.calls.Keys && w.Begin? && w.command.ListFriends?
    ensures KeepsLinkCalls(s, C.Do(s, w))
    ensures C.Do(s, w).calls.Keys == s.calls.Keys + {w.r}
  {
    var t := C.Do(s, w);
    assert t.calls == s.calls[w.r := C.Call(w.command, w.h, w.onGuard, w.onChallenge)] && t.phases == s.phases[w.r := C.Added];
    hide C.Do;
  }

  lemma KeptLinkCallsMatch(c: L.Setup, s: State, sys: C.System)
    requires Matched(s.sys.calls, s.sys.phases, s.accounts.links) && TokensCame(s.accounts.made, s.sys.phases)
    requires KeepsLinkCalls(s.sys, sys)
    requires forall r :: r in s.accounts.links && r !in s.sys.calls ==> r !in sys.calls
    ensures Matched(sys.calls, sys.phases, s.accounts.links) && TokensCame(s.accounts.made, sys.phases)
  {
    forall a | a in s.accounts.made
      ensures CameFor(sys.phases, s.accounts.made[a])
    {
      assert CameFor(s.sys.phases, s.accounts.made[a]);
    }
    forall r | r in s.accounts.links
      ensures MatchedAt(sys.calls, sys.phases, r, s.accounts.links[r].phase)
    {
      assert MatchedAt(s.sys.calls, s.sys.phases, r, s.accounts.links[r].phase);
    }
    hide CameFor, MatchedAt;
  }

  lemma SysKeys(s: C.System)
    requires C.Inv(s)
    ensures s.phases.Keys == s.calls.Keys && C.OutcomesAnswer(s.calls, s.phases)
  {
    hide Streams.Inv, C.FriendsTable, C.LinksTable, C.HandlesOwned, C.BuffersAnswer, C.ReceiversHoldOwn,
         C.OutcomesAnswer, C.CallbacksOwn, C.ReceiversMatch, C.SendersMatch, C.SlotsMatch;
  }

  lemma RecordedIsUsed(c: L.Setup, s: L.State, n: nat)
    requires L.Inv(c, s) && n in s.adding && s.adding[n].Recorded?
    ensures UsedRequest(s.made, s.adding[n].r)
  {
    hide L.Inv;
    L.AddingView(c, s, n);
    assert s.made[s.adding[n].acc].request == Some(s.adding[n].r);
  }

  lemma WorkerKeepsInv(c: L.Setup, s: State, a: Step)
    requires Inv(c, s) && L.Known(s.accounts) && Enabled(c, s, a) && a.Worker?
    ensures Inv(c, Do(c, s, a))
  {
    hide C.Inv, C.Do, C.Enabled, L.Inv, L.Known, Replies.All, Matched, TokensCame, KeepsLinkCalls, UsedRequest, CodesRouted, Routed;
    var sys := C.Do(s.sys, a.w);
    SysKeys(s.sys);
    C.StepKeepsInv(s.sys, a.w);
    Replies.StaysGood(HonestReply(c), s.sys, a.w);
    SysStepRoutes(s, a.w);
    if a.w.Begin? {
      FriendsBeginKeepsLinkCalls(s.sys, a.w);
      forall n | n in s.accounts.adding && s.accounts.adding[n].Recorded?
        ensures s.accounts.adding[n].r !in sys.calls
      {
        RecordedIsUsed(c, s.accounts, n);
      }
    } else {
      WorkerStepKeepsLinkCalls(s.sys, a.w);
      OthersKeepCalls(s.sys, a.w);
    }
    KeptLinkCallsMatch(c, s, sys);
  }

  // ----- Steps of the account half

  /** Links are spawned from recorded requests; apart from that none is spawned, asked or
      ended, and no token is returned. */
  ghost predicate KeepsWaits(s: L.State, t: L.State, recorded: Option<RequestId>) {
    && (forall r :: r in s.links ==> r in t.links && (t.links[r].phase.Spawned? <==> s.links[r].phase.Spawned?)
                                     && (t.links[r].phase.Pending? <==> s.links[r].phase.Pending?))
    && (forall r :: r in t.links && r !in s.links ==>
          t.links[r].phase.Spawned? && exists n :: n in s.adding && s.adding[n].Recorded? && s.adding[n].r == r)
    && (forall n :: n in t.adding && t.adding[n].Recorded? ==>
          (n in s.adding && s.adding[n] == t.adding[n]) || Some(t.adding[n].r) == recorded)
    && (forall a :: a in t.made && t.made[a].token.Some? ==> a in s.made && t.made[a] == s.made[a])
  }

  lemma AddingStepKeepsWaits(c: L.Setup, s: L.State, b: L.Step)
    requires L.Inv(c, s) && L.Known(s) && L.Enabled(c, s, b) && (b.CheckKey? || b.CreateRow? || b.RecordReq? || b.Spawn?)
    ensures KeepsWaits(s, L.Do(c, s, b), if b.RecordReq? then Some(b.r) else None)
  {
    hide L.Inv, L.Known;
    if b.RecordReq? {
      L.AddingView(c, s, b.n);
    } else if b.Spawn? {
      L.RequestUnused(c, s, b.n);
    }
    hide L.RowOk, L.LinkFits;
  }

  lemma LateStepKeepsWaits(s: L.State, t: L.State, r: RequestId)
    requires r in s.links && r in t.links && t.links == s.links[r := t.links[r]]
    requires t.adding == s.adding && t.made == s.made
    requires !s.links[r].phase.Spawned? && !s.links[r].phase.Pending? && !t.links[r].phase.Spawned? && !t.links[r].phase.Pending?
    ensures KeepsWaits(s, t, None)
  {
  }

  lemma SavedShape(c: L.Setup, s: L.State, r: RequestId, nonce: L.bytes, storeFails: bool)
    requires r in s.links && s.links[r].phase.Cleared? && s.links[r].phase.outcome.LinkOk? && |nonce| == Crypto.NONCE_SIZE
    ensures var t, owner := L.LinkSaved(c, s, r, nonce, storeFails), s.links[r].phase.outcome.owner;
            || t == L.Moved(s, r, L.Saved(owner, false))
            || t == L.Moved(s, r, L.Saved(owner, true)).(rows := t.rows)
  {
    hide Crypto.Encrypt, Jwt.ExpiryFromJwt, Store.SaveRefreshToken, L.Moved;
  }

  lemma SavedLate(c: L.Setup, s: L.State, r: RequestId, nonce: L.bytes, storeFails: bool)
    requires r in s.links && s.links[r].phase.Cleared? && s.links[r].phase.outcome.LinkOk? && |nonce| == Crypto.NONCE_SIZE
    ensures var t := L.LinkSaved(c, s, r, nonce, storeFails);
            && r in t.links && t.links == s.links[r := t.links[r]] && t.links[r].phase.Saved?
            && t.adding == s.adding && t.made == s.made
  {
    hide L.LinkSaved;
    SavedShape(c, s, r, nonce, storeFails);
  }

  lemma ReportedLate(s: L.State, r: RequestId)
    requires r in s.links && (s.links[r].phase.Saved? || s.links[r].phase.Cleared?)
    ensures var t := L.LinkReported(s, r);
            && r in t.links && t.links == s.links[r := t.links[r]] && t.links[r].phase.Reported?
            && t.adding == s.adding && t.made == s.made
  {
    hide L.ReportOf;
  }

  lemma OtherStepKeepsWaits(c: L.Setup, s: L.State, b: L.Step)
    requires L.Known(s) && L.Enabled(c, s, b)
    requires b.Clear? || b.Save? || b.Report? || b.Delete? || b.BackfillId? || b.CheckOwner? || b.RouteCode?
    ensures KeepsWaits(s, L.Do(c, s, b), None)
  {
    hide L.Known, L.Sub, L.LinkSaved, L.LinkReported;
    var t := L.Do(c, s, b);
    if b.Save? {
      SavedLate(c, s, b.r, b.nonce, b.storeFails);
      LateStepKeepsWaits(s, t, b.r);
      hide KeepsWaits;
    } else if b.Report? {
      ReportedLate(s, b.r);
      LateStepKeepsWaits(s, t, b.r);
      hide KeepsWaits;
    } else if b.Clear? {
      LateStepKeepsWaits(s, t, b.r);
      hide KeepsWaits;
    } else {
      assert t.links == s.links && t.adding == s.adding && t.made == s.made;
    }
  }

  lemma WaitsKeepMatch(s: State, accounts: L.State, recorded: Option<RequestId>)
    requires Matched(s.sys.calls, s.sys.phases, s.accounts.links) && UnaskedOk(s.accounts.adding, s.sys.calls)
    requires TokensCame(s.accounts.made, s.sys.phases)
    requires KeepsWaits(s.accounts, accounts, recorded) && (recorded.Some? ==> recorded.value !in s.sys.calls)
    ensures Matched(s.sys.calls, s.sys.phases, accounts.links) && UnaskedOk(accounts.adding, s.sys.calls)
    ensures TokensCame(accounts.made, s.sys.phases)
  {
    hide CameIn;
    forall r | r in accounts.links
      ensures MatchedAt(s.sys.calls, s.sys.phases, r, accounts.links[r].phase)
    {
      if r in s.accounts.links {
        assert MatchedAt(s.sys.calls, s.sys.phases, r, s.accounts.links[r].phase);
      }
    }
  }

  lemma AccountKeepsInv(c: L.Setup, s: State, a: Step)
    requires Crypto.Lawful(c.cipher) && Inv(c, s) && L.Known(s.accounts) && Enabled(c, s, a) && a.Account?
    ensures Inv(c, Do(c, s, a))
  {
    hide Crypto.Lawful, C.Inv, L.Inv, L.Known, L.Enabled, L.Do, Replies.All, Matched, UnaskedOk, TokensCame, KeepsWaits, CodesRouted;
    var b := a.a;
    L.StepKeepsInv(c, s.accounts, b);
    var recorded := if b.RecordReq? then Some(b.r) else None;
    if b.CheckKey? || b.CreateRow? || b.RecordReq? || b.Spawn? {
      AddingStepKeepsWaits(c, s.accounts, b);
    } else {
      OtherStepKeepsWaits(c, s.accounts, b);
    }
    WaitsKeepMatch(s, L.Do(c, s.accounts, b), recorded);
    CodesOnlyGrow(c, s.accounts, b);
    MoreCodesRoute(s.sys, s.accounts.codes, L.Do(c, s.accounts, b).codes);
  }

  // ----- Steps of both halves

  lemma AskedMatches(c: L.Setup, s: State, r: RequestId, sys: C.System, links: L.Links)
    requires Matched(s.sys.calls, s.sys.phases, s.accounts.links) && UnaskedOk(s.accounts.adding, s.sys.calls)
    requires TokensCame(s.accounts.made, s.sys.phases)
    requires r in s.accounts.links && links == s.accounts.links[r := s.accounts.links[r].(phase := L.Pending)]
    requires r !in s.sys.calls && r !in s.sys.phases && IsLinkCall(sys.calls, r)
    requires sys.calls == s.sys.calls[r := sys.calls[r]] && sys.phases == s.sys.phases[r := C.Added]
    requires forall n :: n in s.accounts.adding && s.accounts.adding[n].Recorded? ==> s.accounts.adding[n].r != r
    ensures Matched(sys.calls, sys.phases, links) && UnaskedOk(s.accounts.adding, sys.calls)
    ensures TokensCame(s.accounts.made, sys.phases)
  {
    forall q | q in links
      ensures MatchedAt(sys.calls, sys.phases, q, links[q].phase)
    {
      if q != r {
        assert MatchedAt(s.sys.calls, s.sys.phases, q, s.accounts.links[q].phase);
      }
    }
    forall a | a in s.accounts.made
      ensures CameFor(sys.phases, s.accounts.made[a])
    {
      assert CameFor(s.sys.phases, s.accounts.made[a]);
    }
  }

  lemma AskingEffects(s: C.System, links: L.Links, r: RequestId, h: C.Handle)
    requires r in links && C.Enabled(s, Asking(links, r, h))
    ensures var t := C.Do(s, Asking(links, r, h));
            && r !in s.calls && t.phases.Keys == s.phases.Keys + {r}
            && t.calls == s.calls[r := C.Call(LinkAccount(r, links[r].login.username, links[r].login.password), h, true, true)]
            && t.phases == s.phases[r := C.Added]
  {
  }

  lemma AskKeepsInv(c: L.Setup, s: State, a: Step)
    requires Crypto.Lawful(c.cipher) && Inv(c, s) && L.Known(s.accounts) && Enabled(c, s, a) && a.AskWorker?
    ensures Inv(c, Do(c, s, a))
  {
    hide Crypto.Lawful, C.Inv, C.Do, C.Enabled, L.Inv, L.Known, Replies.All, Matched, UnaskedOk, TokensCame, CodesRouted;
    var begin := Asking(s.accounts.links, a.r, a.h);
    SysKeys(s.sys);
    L.StepKeepsInv(c, s.accounts, L.AddPending(a.r));
    C.StepKeepsInv(s.sys, begin);
    Replies.StaysGood(HonestReply(c), s.sys, begin);
    SysStepRoutes(s, begin);
    AskingEffects(s.sys, s.accounts.links, a.r, a.h);
    forall n | n in s.accounts.adding && s.accounts.adding[n].Recorded?
      ensures s.accounts.adding[n].r != a.r
    {
      L.RequestUnused(c, s.accounts, n);
    }
    AskedMatches(c, s, a.r, C.Do(s.sys, begin), L.Do(c, s.accounts, L.AddPending(a.r)).links);
  }

  lemma RemovingEffects(s: C.System, r: RequestId)
    requires C.Enabled(s, C.Remove(r))
    ensures var t := C.Do(s, C.Remove(r));
            && r in s.calls && r in s.phases && s.phases[r].Returning? && t.calls == s.calls
            && t.phases == s.phases[r := C.Done(s.phases[r].outcome)]
  {
    hide Pending.RemoveLink;
  }

  /** What a link call returns came under its own id. */
  lemma ReturnedUnderOwnId(s: C.System, r: RequestId)
    requires C.OutcomesAnswer(s.calls, s.phases) && IsLinkCall(s.calls, r) && r in s.phases && s.phases[r].Returning?
    ensures OutcomeOf(s.phases[r].outcome).LinkOk? ==>
              CameIn(s.phases[r := C.Done(s.phases[r].outcome)], r, OutcomeOf(s.phases[r].outcome).refreshToken)
  {
    if C.AnswerOf(s.phases[r]).Some? {
      assert C.Answers(s.calls, r, C.AnswerOf(s.phases[r]).value);
    }
  }

  lemma ReturnedMatches(s: State, r: RequestId, phases: C.Phases, outcome: LinkOutcome, t: L.State)
    requires Matched(s.sys.calls, s.sys.phases, s.accounts.links) && TokensCame(s.accounts.made, s.sys.phases)
    requires r in s.accounts.links && s.accounts.links[r].acc in s.accounts.made && t == L.LinkEnded(s.accounts, r, outcome)
    requires s.accounts.made[s.accounts.links[r].acc].request == Some(r)
    requires r in phases && phases[r].Done? && phases == s.sys.phases[r := phases[r]]
    requires IsLinkCall(s.sys.calls, r) && r in s.sys.phases && !s.sys.phases[r].Done?
    requires outcome.LinkOk? ==> CameIn(phases, r, outcome.refreshToken)
    ensures Matched(s.sys.calls, phases, t.links) && TokensCame(t.made, phases)
  {
    forall q | q in t.links
      ensures MatchedAt(s.sys.calls, phases, q, t.links[q].phase)
    {
      if q != r {
        assert MatchedAt(s.sys.calls, s.sys.phases, q, s.accounts.links[q].phase);
      }
    }
    forall a | a in t.made
      ensures CameFor(phases, t.made[a])
    {
      if a != s.accounts.links[r].acc {
        assert CameFor(s.sys.phases, s.accounts.made[a]);
      }
    }
  }

  lemma ReturnKeepsInv(c: L.Setup, s: State, a: Step)
    requires Crypto.Lawful(c.cipher) && Inv(c, s) && L.Known(s.accounts) && Enabled(c, s, a) && a.LinkReturns?
    ensures Inv(c, Do(c, s, a))
  {
    hide Crypto.Lawful, C.Inv, C.Do, C.Enabled, L.Inv, L.Known, L.LinkEnded, Replies.All, Matched, TokensCame,
         CameIn, OutcomeOf, L.OwnerOfToken, C.OutcomesAnswer, L.EventsOk, CodesRouted;
    RemovingEffects(s.sys, a.r);
    SysKeys(s.sys);
    var outcome := OutcomeOf(s.sys.phases[a.r].outcome);
    L.StepKeepsInv(c, s.accounts, L.End(a.r, outcome));
    C.StepKeepsInv(s.sys, C.Remove(a.r));
    Replies.StaysGood(HonestReply(c), s.sys, C.Remove(a.r));
    SysStepRoutes(s, C.Remove(a.r));
    ReturnedUnderOwnId(s.sys, a.r);
    L.LinkView(c, s.accounts, a.r);
    EndedKeepsAdding(s.accounts, a.r, outcome);
    ReturnedMatches(s, a.r, C.Do(s.sys, C.Remove(a.r)).phases, outcome, L.Do(c, s.accounts, L.End(a.r, outcome)));
  }

  lemma EndedKeepsAdding(s: L.State, r: RequestId, outcome: LinkOutcome)
    requires r in s.links && s.links[r].acc in s.made
    ensures L.LinkEnded(s, r, outcome).adding == s.adding && L.LinkEnded(s, r, outcome).codes == s.codes
  {
  }

  lemma StepKeepsInv(c: L.Setup, s: State, a: Step)
    requires Crypto.Lawful(c.cipher) && Inv(c, s) && L.Known(s.accounts) && Enabled(c, s, a)
    ensures Inv(c, Do(c, s, a))
  {
    hide Crypto.Lawful, Inv, L.Known, Enabled, Do;
    match a {
      case Worker(_) => WorkerKeepsInv(c, s, a);
      case Account(_) => AccountKeepsInv(c, s, a);
      case AskWorker(_, _) => AskKeepsInv(c, s, a);
      case LinkReturns(_) => ReturnKeepsInv(c, s, a);
    }
  }

  lemma EmptyInv(c: L.Setup)
    ensures Inv(c, EMPTY)
  {
    C.EmptyInv();
    L.EmptyInv(c);
    hide C.Inv, L.Inv;
  }

  lemma {:induction false} RunKeepsInv(c: L.Setup, s: State, steps: seq<Step>, t: State)
    requires Crypto.Lawful(c.cipher) && Inv(c, s) && Runs(c, s, steps, t)
    ensures Inv(c, t)
    decreases |steps|
  {
    hide Crypto.Lawful, Inv, L.Known, Enabled, Do;
    if steps != [] {
      StepKeepsInv(c, s, steps[0]);
      RunKeepsInv(c, Do(c, s, steps[0]), steps[1..], t);
    }
  }

  lemma ReachableInv(c: L.Setup, s: State)
    requires Crypto.Lawful(c.cipher) && Reachable(c, s)
    ensures Inv(c, s)
  {
    hide Crypto.Lawful, Inv, Runs;
    var steps :| Runs(c, EMPTY, steps, s);
    EmptyInv(c);
    RunKeepsInv(c, EMPTY, steps, s);
  }

  // ----- What holds in every run

  lemma InvParts(c: L.Setup, s: State)
    requires Inv(c, s)
    ensures C.Inv(s.sys) && L.Inv(c, s.accounts) && Replies.All(HonestReply(c), s.sys)
    ensures Matched(s.sys.calls, s.sys.phases, s.accounts.links) && TokensCame(s.accounts.made, s.sys.phases)
    ensures CodesRouted(s.sys, s.accounts.codes)
  {
    hide C.Inv, L.Inv, Replies.All, Matched, TokensCame, CodesRouted;
  }

  /** The worker server's link table holds exactly the links between their add and their remove;
      for each of them its account's request is on record, so a guard code can be routed to it;
      and once its goroutine has cleared the request the table holds it no more. */
  lemma InFlightIsOnRecord(c: L.Setup, s: State, r: RequestId)
    requires Crypto.Lawful(c.cipher) && Reachable(c, s)
    ensures r in s.sys.links.chans <==> r in s.accounts.links && s.accounts.links[r].phase.Pending?
    ensures r in s.sys.links.chans ==>
              var acc := s.accounts.links[r].acc; acc in s.accounts.linkReqs && s.accounts.linkReqs[acc] == r
    ensures r in s.sys.links.guards || r in s.sys.links.challenges ==> r in s.sys.links.chans
  {
    hide Crypto.Lawful, Inv, Reachable, C.Inv, L.Inv, Replies.All, TokensCame;
    ReachableInv(c, s);
    InvParts(c, s);
    SysKeys(s.sys);
    C.InvTables(s.sys);
    if r in s.accounts.links {
      L.LinkView(c, s.accounts, r);
      assert MatchedAt(s.sys.calls, s.sys.phases, r, s.accounts.links[r].phase);
    }
    hide L.RowOk, L.EventsOk, C.FriendsTable, C.CallbacksOwn, C.OutcomesAnswer;
  }

  /** A token recorded for an account came in a LinkReply that carried the request id of that
      account's own link; so no reply, late or misdirected, gives an account another's token. */
  lemma TokenCameUnderOwnRequest(c: L.Setup, s: State, acc: L.AccountId)
    requires Crypto.Lawful(c.cipher) && Reachable(c, s)
    requires acc in s.accounts.made && s.accounts.made[acc].token.Some?
    ensures s.accounts.made[acc].request.Some?
    ensures CameIn(s.sys.phases, s.accounts.made[acc].request.value, s.accounts.made[acc].token.value)
    ensures forall b :: b in s.accounts.made && b != acc ==> s.accounts.made[b].request != s.accounts.made[acc].request
  {
    hide Crypto.Lawful, Inv, Reachable, C.Inv, L.Inv, Replies.All, Matched, CameIn;
    ReachableInv(c, s);
    InvParts(c, s);
    L.InvRequests(c, s.accounts);
    assert CameFor(s.sys.phases, s.accounts.made[acc]);
  }

  /** Every guard code on a worker stream goes under the request id of the link of the account it
      was submitted for. */
  lemma GuardCommandsNameOwnRequest(c: L.Setup, s: State, x: C.StreamId, k: nat) returns (acc: L.AccountId)
    requires Crypto.Lawful(c.cipher) && Reachable(c, s)
    requires x in s.sys.net.streams && k < |s.sys.net.streams[x].accepted| && s.sys.net.streams[x].accepted[k].SubmitGuardCode?
    ensures acc in s.accounts.made && s.accounts.made[acc].request == Some(s.sys.net.streams[x].accepted[k].id)
    ensures (acc, s.sys.net.streams[x].accepted[k].id) in s.accounts.codes
  {
    hide Crypto.Lawful, Inv, Reachable, C.Inv, L.Inv, Replies.All, Matched, TokensCame;
    ReachableInv(c, s);
    InvParts(c, s);
    L.InvReports(c, s.accounts);
    var id := s.sys.net.streams[x].accepted[k].id;
    assert Routed(s.accounts.codes, id);
    var i :| 0 <= i < |s.accounts.codes| && s.accounts.codes[i].1 == id;
    acc := s.accounts.codes[i].0;
    hide L.LinksOk, L.EventsOk, L.RowsOk;
    assert s.accounts.codes[i] == (acc, id);
  }

  /** Taking the two halves together holds nothing up: whenever a link call is about to return,
      its goroutine is there to take the outcome. */
  lemma ReturnAlwaysPossible(c: L.Setup, s: State, r: RequestId)
    requires Crypto.Lawful(c.cipher) && Reachable(c, s)
    requires C.Enabled(s.sys, C.Remove(r)) && IsLinkCall(s.sys.calls, r)
    ensures Enabled(c, s, LinkReturns(r))
  {
    hide Crypto.Lawful, Inv, Reachable, C.Inv, L.Inv, C.Enabled, TokensCame;
    ReachableInv(c, s);
    InvParts(c, s);
    RemovingEffects(s.sys, r);
    assert MatchedAt(s.sys.calls, s.sys.phases, r, s.accounts.links[r].phase);
    if C.AnswerOf(s.sys.phases[r]).Some? {
      assert Honest(c, C.AnswerOf(s.sys.phases[r]).value);
    }
  }

  // ----- Every run here is a run of each half

  lemma {:induction false} Projects(c: L.Setup, s: State, steps: seq<Step>, t: State)
      returns (worker: seq<C.Step>, account: seq<L.Step>)
    requires Runs(c, s, steps, t)
    ensures C.Runs(s.sys, worker, t.sys) && L.Runs(c, s.accounts, account, t.accounts)
    decreases |steps|
  {
    hide L.Known, C.Do, C.Enabled, L.Do, L.Enabled;
    if steps == [] {
      worker, account := [], [];
    } else {
      var ws, bs := Projects(c, Do(c, s, steps[0]), steps[1..], t);
      worker, account := ws, bs;
      match steps[0] {
        case Worker(w) => worker := [w] + ws; assert worker[1..] == ws;
        case Account(b) => account := [b] + bs; assert account[1..] == bs;
        case AskWorker(r, h) =>
          worker, account := [Asking(s.accounts.links, r, h)] + ws, [L.AddPending(r)] + bs;
          assert worker[1..] == ws && account[1..] == bs;
        case LinkReturns(r) =>
          RemovingEffects(s.sys, r);
          worker, account := [C.Remove(r)] + ws, [L.End(r, OutcomeOf(s.sys.phases[r].outcome))] + bs;
          assert worker[1..] == ws && account[1..] == bs;
      }
    }
  }

  lemma ReachableInBoth(c: L.Setup, s: State)
    requires Reachable(c, s)
    ensures C.Reachable(s.sys) && L.Reachable(c, s.accounts)
  {
    hide Runs, C.Runs, L.Runs;
    var steps :| Runs(c, EMPTY, steps, s);
    var worker, account := Projects(c, EMPTY, steps, s);
  }

  lemma {:induction false} RunsSnoc(c: L.Setup, s: State, steps: seq<Step>, t: State, a: Step)
    requires Runs(c, s, steps, t) && L.Known(t.accounts) && Enabled(c, t, a)
    ensures Runs(c, s, steps + [a], Do(c, t, a))
    decreases |steps|
  {
    hide L.Known, Do, Enabled;
    if steps == [] {
      assert ([] + [a])[1..] == [] && [] + [a] == [a];
    } else {
      RunsSnoc(c, Do(c, s, steps[0]), steps[1..], t, a);
      assert (steps + [a])[1..] == steps[1..] + [a];
    }
  }

  lemma ReachableStep(c: L.Setup, s: State, a: Step)
    requires Reachable(c, s) && L.Known(s.accounts) && Enabled(c, s, a)
    ensures Reachable(c, Do(c, s, a))
  {
    hide L.Known, Do, Enabled;
    var steps :| Runs(c, EMPTY, steps, s);
    RunsSnoc(c, EMPTY, steps, s, a);
  }

  lemma EmptyReachable(c: L.Setup)
    ensures Reachable(c, EMPTY)
  {
    assert Runs(c, EMPTY, [], EMPTY);
  }

  // ----- Progress

  /** Each half goes on as it would alone, but where the two meet and where a friends call would
      take a link's id. */
  lemma HalvesGoOn(c: L.Setup, s: State, w: C.Step, b: L.Step, r: RequestId, h: C.Handle)
    ensures C.Enabled(s.sys, w) && !w.Begin? && !w.Remove? && !w.RelayReads? && !w.Arrive? ==> Enabled(c, s, Worker(w))
    ensures C.Enabled(s.sys, w) && w.Arrive? && (!w.event.Final? || Honest(c, w.event.reply)) ==> Enabled(c, s, Worker(w))
    ensures L.Enabled(c, s.accounts, b) && !b.AddPending? && !b.End? && !b.RecordReq? ==> Enabled(c, s, Account(b))
    ensures L.Enabled(c, s.accounts, b) && b.RecordReq? && b.r !in s.sys.calls ==> Enabled(c, s, Account(b))
    ensures r in s.accounts.links && s.accounts.links[r].phase.Spawned? && r !in s.sys.calls && h !in s.sys.buffers ==>
              Enabled(c, s, AskWorker(r, h))
  {
    hide L.OwnerOfToken, Routed, UsedRequest;
  }
}
