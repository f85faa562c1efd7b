/** What the two halves of linking tell each other (cmd/server/main.go, StartLink;
    workers/link.go, Link; api/steam_accounts.go): the credentials that go out with a link's
    command, and what its goroutine makes of the outcome that comes back. Over every run of
    LinkStack. */
module LinkOutcomes {
  import opened Wrappers
  import opened Messages
  import C = Correlation
  import Crypto
  import Jwt
  import L = AccountLinks
  import LS = LinkStack
  import Pending
  import Replies
  import Store
  import Streams

  /** The worker's own answer is passed on as it is; anything else is an error. */
  predicate Tells(o: C.Outcome, outcome: LinkOutcome) {
    match o
    case Answer(reply) => reply.LinkReply? && outcome == reply.link
    case NoWorker => outcome.LinkError?
    case Deadline => outcome.LinkError?
  }

  predicate HasOutcome(p: L.Phase) {
    p.Ended? || p.Cleared?
  }

  predicate ToldAt(phases: C.Phases, r: RequestId, p: L.Phase) {
    HasOutcome(p) ==> r in phases && phases[r].Done? && Tells(phases[r].outcome, p.outcome)
  }

  ghost predicate OutcomesTold(links: L.Links, phases: C.Phases) {
    forall r :: r in links ==> ToldAt(phases, r, links[r].phase)
  }

  /** The call returned the worker's answer with this token. */
  predicate ReturnedToken(calls: C.Calls, phases: C.Phases, r: RequestId, token: string) {
    && LS.IsLinkCall(calls, r) && r in phases && phases[r].Done? && phases[r].outcome.Answer?
    && phases[r].outcome.reply.LinkReply? && phases[r].outcome.reply.link.LinkOk?
    && phases[r].outcome.reply.link.refreshToken == token
  }

  predicate TokenTold(calls: C.Calls, phases: C.Phases, m: L.Made) {
    m.request.Some? && LS.IsLinkCall(calls, m.request.value) && m.request.value in phases && phases[m.request.value].Done?
    && phases[m.request.value].outcome.Answer? && phases[m.request.value].outcome.reply.LinkReply?
    && phases[m.request.value].outcome.reply.link.LinkOk?
    ==> m.token == Some(phases[m.request.value].outcome.reply.link.refreshToken)
  }

  ghost predicate TokensTold(made: L.MadeMap, calls: C.Calls, phases: C.Phases) {
    forall a :: a in made ==> TokenTold(calls, phases, made[a])
  }

  predicate CarriesLogin(calls: C.Calls, r: RequestId, login: L.Login) {
    r in calls ==> calls[r].command == LinkAccount(r, login.username, login.password) && calls[r].onGuard && calls[r].onChallenge
  }

  ghost predicate LoginsCarried(links: L.Links, calls: C.Calls) {
    forall r :: r in links ==> CarriesLogin(calls, r, links[r].login)
  }

  ghost predicate Told(s: LS.State) {
    && OutcomesTold(s.accounts.links, s.sys.phases)
    && TokensTold(s.accounts.made, s.sys.calls, s.sys.phases)
    && LoginsCarried(s.accounts.links, s.sys.calls)
  }

  // ----- Steps of the worker half

  lemma SysKeepsTold(s: LS.State, sys: C.System)
    requires Told(s) && LS.KeepsLinkCalls(s.sys, sys) && s.sys.phases.Keys == s.sys.calls.Keys
    requires LS.Matched(s.sys.calls, s.sys.phases, s.accounts.links)
    requires forall r :: r in s.sys.calls ==> r in sys.calls && sys.calls[r] == s.sys.calls[r]
    requires forall r :: r in s.accounts.links && r !in s.sys.calls ==> r !in sys.calls
    ensures Told(s.(sys := sys))
  {
    forall r | r in s.accounts.links
      ensures ToldAt(sys.phases, r, s.accounts.links[r].phase) && CarriesLogin(sys.calls, r, s.accounts.links[r].login)
    {
      assert ToldAt(s.sys.phases, r, s.accounts.links[r].phase) && CarriesLogin(s.sys.calls, r, s.accounts.links[r].login);
    }
    forall a | a in s.accounts.made
      ensures TokenTold(sys.calls, sys.phases, s.accounts.made[a])
    {
      assert TokenTold(s.sys.calls, s.sys.phases, s.accounts.made[a]);
    }
  }

  lemma WorkerKeepsTold(c: L.Setup, s: LS.State, a: LS.Step)
    requires LS.Inv(c, s) && Told(s) && L.Known(s.accounts) && LS.Enabled(c, s, a) && a.Worker?
    ensures Told(LS.Do(c, s, a))
  {
    hide C.Inv, C.Do, C.Enabled, L.Inv, L.Known, Replies.All, LS.Matched, LS.TokensCame, LS.KeepsLinkCalls, LS.UsedRequest,
         LS.CodesRouted, LS.Routed, Told;
    LS.SysKeys(s.sys);
    if a.w.Begin? {
      LS.FriendsBeginKeepsLinkCalls(s.sys, a.w);
      BeginKeepsCalls(s.sys, a.w);
    } else {
      LS.WorkerStepKeepsLinkCalls(s.sys, a.w);
      LS.OthersKeepCalls(s.sys, a.w);
    }
    SysKeepsTold(s, C.Do(s.sys, a.w));
  }

  lemma BeginKeepsCalls(s: C.System, w: C.Step)
    requires C.Enabled(s, w) && w.Begin?
    ensures forall r :: r in s.calls ==> r in C.Do(s, w).calls && C.Do(s, w).calls[r] == s.calls[r]
  {
    hide Pending.AddLink;
  }

  // ----- Steps of the account half

  /** No outcome, token or credentials change; a new request is the one being recorded, and a new
      link is not asked yet. */
  ghost predicate KeepsOutcomes(s: L.State, t: L.State, recorded: Option<RequestId>) {
    && (forall r :: r in t.links && HasOutcome(t.links[r].phase) ==>
          r in s.links && HasOutcome(s.links[r].phase) && t.links[r].phase.outcome == s.links[r].phase.outcome)
    && (forall r :: r in t.links && r in s.links ==> t.links[r].login == s.links[r].login)
    && (forall a :: a in t.made && t.made[a].request.Some? && t.made[a].request != recorded ==>
          a in s.made && t.made[a].request == s.made[a].request && t.made[a].token == s.made[a].token)
  }

  lemma OneLinkKeepsOutcomes(s: L.State, t: L.State, r: RequestId)
    requires r in s.links && r in t.links && t.links == s.links[r := t.links[r]] && t.made == s.made
    requires t.links[r].login == s.links[r].login
    requires HasOutcome(t.links[r].phase) ==> HasOutcome(s.links[r].phase) && t.links[r].phase.outcome == s.links[r].phase.outcome
    ensures KeepsOutcomes(s, t, None)
  {
  }

  lemma SavedKeepsOutcomes(c: L.Setup, s: L.State, r: RequestId, nonce: L.bytes, storeFails: bool)
    requires r in s.links && s.links[r].phase.Cleared? && s.links[r].phase.outcome.LinkOk? && |nonce| == Crypto.NONCE_SIZE
    ensures KeepsOutcomes(s, L.LinkSaved(c, s, r, nonce, storeFails), None)
  {
    LS.SavedShape(c, s, r, nonce, storeFails);
    OneLinkKeepsOutcomes(s, L.LinkSaved(c, s, r, nonce, storeFails), r);
    hide L.LinkSaved;
  }

  lemma ReportedKeepsOutcomes(s: L.State, r: RequestId)
    requires r in s.links && (s.links[r].phase.Saved? || s.links[r].phase.Cleared?)
    ensures KeepsOutcomes(s, L.LinkReported(s, r), None)
  {
    hide L.ReportOf;
    OneLinkKeepsOutcomes(s, L.LinkReported(s, r), r);
  }

  lemma AddingKeepsOutcomes(c: L.Setup, s: L.State, b: L.Step)
    requires L.Known(s) && L.Enabled(c, s, b) && (b.CheckKey? || b.CreateRow? || b.RecordReq?)
    ensures KeepsOutcomes(s, L.Do(c, s, b), if b.RecordReq? then Some(b.r) else None)
  {
    hide L.Known, L.Sub, L.LinkSaved, L.LinkReported, L.LinkEnded, L.CodeRouted, L.Apply, Store.Create, L.WellFormed;
  }

  lemma HandlerKeepsOutcomes(c: L.Setup, s: L.State, b: L.Step)
    requires L.Known(s) && L.Enabled(c, s, b)
    requires b.Clear? || b.Delete? || b.BackfillId? || b.CheckOwner? || b.RouteCode?
    ensures KeepsOutcomes(s, L.Do(c, s, b), None)
  {
    hide L.Known, L.Sub, L.LinkSaved, L.LinkReported, L.LinkEnded, L.RowCreated, L.ReqRecorded, Store.Delete, Store.SetSteamId, L.Apply,
         KeepsOutcomes;
    if b.Clear? {
      OneLinkKeepsOutcomes(s, L.Do(c, s, b), b.r);
    } else {
      NothingKeepsOutcomes(s, L.Do(c, s, b));
    }
  }

  lemma NothingKeepsOutcomes(s: L.State, t: L.State)
    requires t.links == s.links && t.made == s.made
    ensures KeepsOutcomes(s, t, None)
  {
  }

  lemma SpawnKeepsOutcomes(c: L.Setup, s: L.State, b: L.Step)
    requires L.Inv(c, s) && L.Known(s) && L.Enabled(c, s, b) && b.Spawn?
    ensures KeepsOutcomes(s, L.Do(c, s, b), None)
  {
    hide L.Inv, L.Known;
    L.RequestUnused(c, s, b.n);
  }

  lemma AccountKeepsOutcomes(c: L.Setup, s: L.State, b: L.Step)
    requires L.Inv(c, s) && L.Known(s) && L.Enabled(c, s, b) && !b.AddPending? && !b.End?
    ensures KeepsOutcomes(s, L.Do(c, s, b), if b.RecordReq? then Some(b.r) else None)
  {
    hide L.Inv, L.Known, L.LinkSaved, L.LinkReported, KeepsOutcomes, L.RowCreated, L.ReqRecorded, L.LinkEnded, L.CodeRouted, Store.Delete, L.Sub;
    if b.Save? {
      SavedKeepsOutcomes(c, s, b.r, b.nonce, b.storeFails);
    } else if b.Report? {
      ReportedKeepsOutcomes(s, b.r);
    } else if b.Spawn? {
      SpawnKeepsOutcomes(c, s, b);
    } else if b.CheckKey? || b.CreateRow? || b.RecordReq? {
      AddingKeepsOutcomes(c, s, b);
    } else {
      HandlerKeepsOutcomes(c, s, b);
    }
  }

  lemma OutcomesKeepTold(s: LS.State, accounts: L.State, recorded: Option<RequestId>)
    requires Told(s) && KeepsOutcomes(s.accounts, accounts, recorded) && (recorded.Some? ==> recorded.value !in s.sys.calls)
    requires forall r :: r in accounts.links && r !in s.accounts.links ==> r !in s.sys.calls
    ensures Told(s.(accounts := accounts))
  {
    hide Tells;
    forall r | r in accounts.links
      ensures ToldAt(s.sys.phases, r, accounts.links[r].phase) && CarriesLogin(s.sys.calls, r, accounts.links[r].login)
    {
      if r in s.accounts.links {
        assert ToldAt(s.sys.phases, r, s.accounts.links[r].phase) && CarriesLogin(s.sys.calls, r, s.accounts.links[r].login);
      }
    }
    forall a | a in accounts.made
      ensures TokenTold(s.sys.calls, s.sys.phases, accounts.made[a])
    {
      if a in s.accounts.made {
        assert TokenTold(s.sys.calls, s.sys.phases, s.accounts.made[a]);
      }
    }
  }

  /** A link's goroutine starts before its call does. */
  lemma NewLinkIsUnasked(s: LS.State, t: L.State, recorded: Option<RequestId>)
    requires LS.KeepsWaits(s.accounts, t, recorded) && LS.UnaskedOk(s.accounts.adding, s.sys.calls)
    ensures forall r :: r in t.links && r !in s.accounts.links ==> r !in s.sys.calls
  {
  }

  lemma AccountKeepsTold(c: L.Setup, s: LS.State, a: LS.Step)
    requires LS.Inv(c, s) && Told(s) && L.Known(s.accounts) && LS.Enabled(c, s, a) && a.Account?
    ensures Told(LS.Do(c, s, a))
  {
    hide C.Inv, L.Inv, L.Known, L.Enabled, L.Do, Replies.All, LS.Matched, LS.UnaskedOk, LS.TokensCame, LS.KeepsWaits, LS.CodesRouted,
         KeepsOutcomes, Told;
    var b := a.a;
    var recorded := if b.RecordReq? then Some(b.r) else None;
    AccountKeepsOutcomes(c, s.accounts, b);
    if b.CheckKey? || b.CreateRow? || b.RecordReq? || b.Spawn? {
      LS.AddingStepKeepsWaits(c, s.accounts, b);
    } else {
      LS.OtherStepKeepsWaits(c, s.accounts, b);
    }
    NewLinkIsUnasked(s, L.Do(c, s.accounts, b), recorded);
    OutcomesKeepTold(s, L.Do(c, s.accounts, b), recorded);
  }

  // ----- Steps of both halves

  lemma AskedKeepsTold(s: LS.State, r: RequestId, h: C.Handle, t: LS.State)
    requires Told(s) && r in s.accounts.links && r !in s.sys.calls && r !in s.sys.phases
    requires t.accounts.links == s.accounts.links[r := s.accounts.links[r].(phase := L.Pending)] && t.accounts.made == s.accounts.made
    requires var login := s.accounts.links[r].login;
             t.sys.calls == s.sys.calls[r := C.Call(LinkAccount(r, login.username, login.password), h, true, true)]
    requires t.sys.phases == s.sys.phases[r := C.Added]
    ensures Told(t)
  {
    forall q | q in t.accounts.links
      ensures ToldAt(t.sys.phases, q, t.accounts.links[q].phase) && CarriesLogin(t.sys.calls, q, t.accounts.links[q].login)
    {
      assert ToldAt(s.sys.phases, q, s.accounts.links[q].phase) && CarriesLogin(s.sys.calls, q, s.accounts.links[q].login);
    }
    forall a | a in t.accounts.made
      ensures TokenTold(t.sys.calls, t.sys.phases, t.accounts.made[a])
    {
      assert TokenTold(s.sys.calls, s.sys.phases, s.accounts.made[a]);
    }
  }

  lemma AskKeepsTold(c: L.Setup, s: LS.State, a: LS.Step)
    requires LS.Inv(c, s) && Told(s) && L.Known(s.accounts) && LS.Enabled(c, s, a) && a.AskWorker?
    ensures Told(LS.Do(c, s, a))
  {
    hide C.Inv, C.Do, C.Enabled, L.Inv, L.Known, Replies.All, LS.Matched, LS.UnaskedOk, LS.TokensCame, LS.CodesRouted, Told, LS.Asking;
    LS.SysKeys(s.sys);
    LS.AskingEffects(s.sys, s.accounts.links, a.r, a.h);
    AskedKeepsTold(s, a.r, a.h, LS.Do(c, s, a));
  }

  lemma ReturnedKeepsTold(s: LS.State, r: RequestId, t: LS.State)
    requires Told(s) && L.OwnRequests(s.accounts.made)
    requires r in s.accounts.links && s.accounts.links[r].acc in s.accounts.made
    requires s.accounts.made[s.accounts.links[r].acc].request == Some(r)
    requires r in s.sys.phases && s.sys.phases[r].Returning? && LS.IsLinkCall(s.sys.calls, r)
    requires C.OutcomesAnswer(s.sys.calls, s.sys.phases)
    requires t.accounts == L.LinkEnded(s.accounts, r, LS.OutcomeOf(s.sys.phases[r].outcome))
    requires t.sys.calls == s.sys.calls && t.sys.phases == s.sys.phases[r := C.Done(s.sys.phases[r].outcome)]
    ensures Told(t)
  {
    TellsReturned(s.sys, r);
    forall q | q in t.accounts.links
      ensures ToldAt(t.sys.phases, q, t.accounts.links[q].phase) && CarriesLogin(t.sys.calls, q, t.accounts.links[q].login)
    {
      assert ToldAt(s.sys.phases, q, s.accounts.links[q].phase) && CarriesLogin(s.sys.calls, q, s.accounts.links[q].login);
    }
    forall a | a in t.accounts.made
      ensures TokenTold(t.sys.calls, t.sys.phases, t.accounts.made[a])
    {
      assert TokenTold(s.sys.calls, s.sys.phases, s.accounts.made[a]);
    }
  }

  /** StartLink passes on what Link returned. */
  lemma TellsReturned(s: C.System, r: RequestId)
    requires C.OutcomesAnswer(s.calls, s.phases) && LS.IsLinkCall(s.calls, r) && r in s.phases && s.phases[r].Returning?
    ensures Tells(s.phases[r].outcome, LS.OutcomeOf(s.phases[r].outcome))
  {
    if C.AnswerOf(s.phases[r]).Some? {
      assert C.Answers(s.calls, r, C.AnswerOf(s.phases[r]).value);
    }
  }

  lemma ReturnKeepsTold(c: L.Setup, s: LS.State, a: LS.Step)
    requires LS.Inv(c, s) && Told(s) && L.Known(s.accounts) && LS.Enabled(c, s, a) && a.LinkReturns?
    ensures Told(LS.Do(c, s, a))
  {
    hide C.Inv, C.Do, C.Enabled, L.Inv, L.Known, L.LinkEnded, Replies.All, LS.Matched, LS.TokensCame, LS.OutcomeOf, L.OwnerOfToken,
         C.OutcomesAnswer, L.EventsOk, LS.CodesRouted, Told, L.OwnRequests;
    LS.RemovingEffects(s.sys, a.r);
    LS.SysKeys(s.sys);
    L.LinkView(c, s.accounts, a.r);
    L.InvRequests(c, s.accounts);
    ReturnedKeepsTold(s, a.r, LS.Do(c, s, a));
  }

  lemma StepKeepsTold(c: L.Setup, s: LS.State, a: LS.Step)
    requires LS.Inv(c, s) && Told(s) && L.Known(s.accounts) && LS.Enabled(c, s, a)
    ensures Told(LS.Do(c, s, a))
  {
    hide LS.Inv, Told, L.Known, LS.Enabled, LS.Do;
    match a {
      case Worker(_) => WorkerKeepsTold(c, s, a);
      case Account(_) => AccountKeepsTold(c, s, a);
      case AskWorker(_, _) => AskKeepsTold(c, s, a);
      case LinkReturns(_) => ReturnKeepsTold(c, s, a);
    }
  }

  lemma {:induction false} RunKeepsTold(c: L.Setup, s: LS.State, steps: seq<LS.Step>, t: LS.State)
    requires Crypto.Lawful(c.cipher) && LS.Inv(c, s) && Told(s) && LS.Runs(c, s, steps, t)
    ensures Told(t)
    decreases |steps|
  {
    hide Crypto.Lawful, LS.Inv, Told, L.Known, LS.Enabled, LS.Do;
    if steps != [] {
      StepKeepsTold(c, s, steps[0]);
      LS.StepKeepsInv(c, s, steps[0]);
      RunKeepsTold(c, LS.Do(c, s, steps[0]), steps[1..], t);
    }
  }

  lemma ReachableTold(c: L.Setup, s: LS.State)
    requires Crypto.Lawful(c.cipher) && LS.Reachable(c, s)
    ensures Told(s)
  {
    hide Crypto.Lawful, LS.Inv, LS.Runs;
    var steps :| LS.Runs(c, LS.EMPTY, steps, s);
    LS.EmptyInv(c);
    RunKeepsTold(c, LS.EMPTY, steps, s);
  }

  // ----- What holds in every run

  /** A token is on record for an account if and only if the call made under the account's own
      request returned it: no answer of the worker is lost, and none made up. */
  lemma RecordedExactly(c: L.Setup, s: LS.State, acc: L.AccountId, r: RequestId, token: string)
    requires Crypto.Lawful(c.cipher) && LS.Reachable(c, s)
    requires acc in s.accounts.made && s.accounts.made[acc].request == Some(r)
    ensures s.accounts.made[acc].token == Some(token) <==> ReturnedToken(s.sys.calls, s.sys.phases, r, token)
  {
    hide Crypto.Lawful, LS.Inv, LS.Reachable, C.Inv, L.Inv, Replies.All;
    ReachableTold(c, s);
    LS.ReachableInv(c, s);
    LS.InvParts(c, s);
    LS.SysKeys(s.sys);
    assert TokenTold(s.sys.calls, s.sys.phases, s.accounts.made[acc]);
    if s.accounts.made[acc].token == Some(token) {
      LS.TokenCameUnderOwnRequest(c, s, acc);
      AnswerIsLinkCall(s.sys, r);
    }
  }

  lemma AnswerIsLinkCall(s: C.System, r: RequestId)
    requires C.Inv(s) && r in s.phases && s.phases[r].Done? && s.phases[r].outcome.Answer? && s.phases[r].outcome.reply.LinkReply?
    ensures LS.IsLinkCall(s.calls, r)
  {
    LS.SysKeys(s);
    C.InvChannels(s);
    hide C.Inv, C.BuffersAnswer, C.ReceiversHoldOwn;
    assert C.Answers(s.calls, r, C.AnswerOf(s.phases[r]).value);
    C.OwnCommand(s, r);
  }

  /** What a link's goroutine holds, from the return of its call until it saves or reports, is
      the worker's own answer if the call returned one, owner and token included; it is an error
      if and only if the call found no worker, timed out, or was answered with an error. */
  lemma OutcomeIsTheAnswer(c: L.Setup, s: LS.State, r: RequestId)
    requires Crypto.Lawful(c.cipher) && LS.Reachable(c, s)
    requires r in s.accounts.links && HasOutcome(s.accounts.links[r].phase)
    ensures r in s.sys.phases && s.sys.phases[r].Done?
    ensures var (o, outcome) := (s.sys.phases[r].outcome, s.accounts.links[r].phase.outcome);
            && (forall owner, token :: outcome == LinkOk(owner, token) <==> o == C.Answer(LinkReply(r, LinkOk(owner, token))))
            && (outcome.LinkError? <==> o.NoWorker? || o.Deadline? || exists code :: o == C.Answer(LinkReply(r, LinkError(code))))
  {
    hide Crypto.Lawful, LS.Inv, LS.Reachable, C.Inv, L.Inv, Replies.All, LS.Matched, LS.TokensCame, LS.CodesRouted;
    ReachableTold(c, s);
    LS.ReachableInv(c, s);
    LS.InvParts(c, s);
    LS.SysKeys(s.sys);
    assert ToldAt(s.sys.phases, r, s.accounts.links[r].phase);
    var o := s.sys.phases[r].outcome;
    if C.AnswerOf(s.sys.phases[r]).Some? {
      assert C.Answers(s.sys.calls, r, o.reply);
      assert o == C.Answer(LinkReply(r, o.reply.link));
    }
  }

  /** The command of a link carries the credentials its account was added with, under the
      account's own request; and both its prompts have a callback. */
  lemma CommandCarriesLogin(c: L.Setup, s: LS.State, r: RequestId)
    requires Crypto.Lawful(c.cipher) && LS.Reachable(c, s) && r in s.accounts.links && !s.accounts.links[r].phase.Spawned?
    ensures r in s.sys.calls && s.accounts.links[r].acc in s.accounts.made
    ensures var m := s.accounts.made[s.accounts.links[r].acc];
            m.request == Some(r) && s.sys.calls[r].command == LinkAccount(r, m.login.username, m.login.password)
    ensures s.sys.calls[r].onGuard && s.sys.calls[r].onChallenge
  {
    hide Crypto.Lawful, LS.Inv, LS.Reachable, C.Inv, L.Inv, Replies.All, LS.TokensCame, LS.CodesRouted, Tells;
    ReachableTold(c, s);
    LS.ReachableInv(c, s);
    LS.InvParts(c, s);
    L.LinkView(c, s.accounts, r);
    assert LS.MatchedAt(s.sys.calls, s.sys.phases, r, s.accounts.links[r].phase);
    assert CarriesLogin(s.sys.calls, r, s.accounts.links[r].login);
    hide L.RowOk, L.EventsOk;
  }
}
