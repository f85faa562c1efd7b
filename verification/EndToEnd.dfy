/** From what Steam tells a worker to what the control plane keeps and shows, over every run of
    Platform: each answer, token, list and prompt is the one of the run that the worker chose for
    that very request, and nothing else about it can get through. */
module EndToEnd {
  import opened Wrappers
  import opened Messages
  import A = Accounts
  import C = Correlation
  import Credentials
  import Crypto
  import D = Delivery
  import Jwt
  import L = AccountLinks
  import LO = LinkOutcomes
  import LS = LinkStack
  import P = PasswordHash
  import PL = Platform
  import SteamLogin
  import W = WorkerStream
  import WorkerAgent

  type StreamId = C.StreamId

  // ----- A run of Platform is a run of its streams and workers

  /** The steps of the streams and workers in a run. */
  ghost function WorldSteps(c: A.Setup, s: PL.State, steps: seq<PL.Step>): seq<W.Step>
    requires P.Lawful(c.creds.pr)
    decreases |steps|
  {
    if steps == [] || !L.Known(s.app.links) || !PL.Enabled(c, s, steps[0]) then []
    else
      var first := PL.WorldStep(c, s, steps[0]);
      (if first.Some? then [first.value] else []) + WorldSteps(c, PL.Do(c, s, steps[0]), steps[1..])
  }

  lemma {:induction false} RunsInWorld(c: A.Setup, s: PL.State, steps: seq<PL.Step>, t: PL.State)
    requires P.Lawful(c.creds.pr) && PL.Runs(c, s, steps, t)
    ensures W.Runs(s.world, WorldSteps(c, s, steps), t.world)
    decreases |steps|
  {
    hide P.Lawful, L.Known, PL.Enabled, PL.WorldStep, PL.AppAfter, PL.GuardsAfter, PL.AskedAfter, W.Do, W.Enabled;
    if steps != [] {
      var u := PL.Do(c, s, steps[0]);
      RunsInWorld(c, u, steps[1..], t);
      PL.WorldStepOk(c, s, steps[0]);
      var first, rest := PL.WorldStep(c, s, steps[0]), WorldSteps(c, u, steps[1..]);
      if first.Some? {
        assert ([first.value] + rest)[1..] == rest;
      } else {
        assert [] + rest == rest;
      }
    }
  }

  /** The runs the workers chose in a run of the whole. */
  ghost function Reports(c: A.Setup, steps: seq<PL.Step>): D.Reports
    requires P.Lawful(c.creds.pr)
  {
    D.Chosen(W.EMPTY, WorldSteps(c, PL.EMPTY, steps), map[])
  }

  lemma IsReachable(c: A.Setup, steps: seq<PL.Step>, s: PL.State)
    requires P.Lawful(c.creds.pr) && PL.Runs(c, PL.EMPTY, steps, s)
    ensures PL.Reachable(c, s)
  {
    hide P.Lawful, PL.Runs;
  }

  // ----- What is kept and shown

  /** What a friends handler gets back is its own run's: if the call returned friends, they are the
      list the worker's run ended with, and the owner is the subject of the handler's token. */
  lemma FriendsAreTheRuns(c: A.Setup, steps: seq<PL.Step>, s: PL.State, r: RequestId, owner: string, friends: seq<Friend>)
    requires Credentials.Sound(c.creds) && PL.Runs(c, PL.EMPTY, steps, s) && r in s.world.sys.phases
    requires C.AnswerOf(s.world.sys.phases[r]) == Some(FriendsReply(r, FriendsOk(owner, friends)))
    ensures r in Reports(c, steps) && Reports(c, steps)[r] == D.FriendsReport(WorkerAgent.FriendsRun(Ok((owner, friends))))
    ensures r in s.world.sys.calls && s.world.sys.calls[r].command.ListFriends?
    ensures SteamLogin.IsSubject(c.claims, s.world.sys.calls[r].command.refreshToken, owner)
  {
    hide P.Lawful, P.CollisionFree, Crypto.Lawful, PL.Runs, PL.Reachable, W.Runs, WorldSteps, D.Chosen, Jwt.SteamIdFromJwt;
    IsReachable(c, steps, s);
    RunsInWorld(c, PL.EMPTY, steps, s);
    D.ReturnsTheRunsReply(WorldSteps(c, PL.EMPTY, steps), s.world, r);
    PL.RepliesNameSubjects(c, s, r);
  }

  /** A token is on record for an account exactly when the call made under the account's request
      returned the worker's answer and the run chosen for it ended with that token. */
  lemma TokenIsTheRuns(c: A.Setup, steps: seq<PL.Step>, s: PL.State, acc: L.AccountId, r: RequestId, token: string)
    requires Credentials.Sound(c.creds) && PL.Runs(c, PL.EMPTY, steps, s)
    requires acc in s.app.links.made && s.app.links.made[acc].request == Some(r)
    ensures s.app.links.made[acc].token == Some(token) <==>
              && r in s.world.sys.phases && s.world.sys.phases[r].Done? && s.world.sys.phases[r].outcome.Answer?
              && r in Reports(c, steps) && Reports(c, steps)[r].LinkReport?
              && Reports(c, steps)[r].link.end.Ok? && Reports(c, steps)[r].link.end.value.1 == token
  {
    hide P.Lawful, P.CollisionFree, Crypto.Lawful, PL.Runs, PL.Reachable, W.Runs, WorldSteps, D.Chosen, A.Reachable, W.Reachable,
         LS.Reachable;
    IsReachable(c, steps, s);
    PL.ReachableInParts(c, s);
    LO.RecordedExactly(A.LinkSetup(c), PL.Stack(s), acc, r, token);
    RunsInWorld(c, PL.EMPTY, steps, s);
    if r in s.world.sys.phases && C.AnswerOf(s.world.sys.phases[r]).Some? {
      D.ReturnsTheRunsReply(WorldSteps(c, PL.EMPTY, steps), s.world, r);
      PL.RepliesNameSubjects(c, s, r);
      LinkReplyOfLink(c, s, r);
    }
  }

  lemma LinkReplyOfLink(c: A.Setup, s: PL.State, r: RequestId)
    requires r in s.world.sys.calls && r in s.world.sys.phases && C.AnswerOf(s.world.sys.phases[r]).Some?
    requires PL.NamesSubject(c, s.world.sys.calls[r].command, C.AnswerOf(s.world.sys.phases[r]).value)
    ensures C.AnswerOf(s.world.sys.phases[r]).value.LinkReply? ==> LS.IsLinkCall(s.world.sys.calls, r)
  {
    hide Jwt.SteamIdFromJwt;
  }

  /** A goroutine is told of an error exactly when its call found no worker, ran out of time, or
      was answered with one. */
  lemma ErrorsAreTheCalls(c: A.Setup, s: PL.State, r: RequestId)
    requires Credentials.Sound(c.creds) && PL.Reachable(c, s)
    requires r in s.app.links.links && LO.HasOutcome(s.app.links.links[r].phase)
    ensures r in s.world.sys.phases && s.world.sys.phases[r].Done?
    ensures var (o, outcome) := (s.world.sys.phases[r].outcome, s.app.links.links[r].phase.outcome);
            && (forall owner, token :: outcome == LinkOk(owner, token) <==> o == C.Answer(LinkReply(r, LinkOk(owner, token))))
            && (outcome.LinkError? <==> o.NoWorker? || o.Deadline? || exists code :: o == C.Answer(LinkReply(r, LinkError(code))))
  {
    hide P.Lawful, P.CollisionFree, Crypto.Lawful, PL.Reachable, A.Reachable, W.Reachable, LS.Reachable;
    PL.ReachableInParts(c, s);
    LO.OutcomeIsTheAnswer(A.LinkSetup(c), PL.Stack(s), r);
  }

  /** The user who links an account is shown its own run's prompts: the completed callbacks of a
      link are the prompts of the run chosen for it, the first to the last, kinds of code and QR
      URLs included, as far as they go; and when the answer is there they are all of them. The
      run was chosen for a command that carried the credentials the account was added with. */
  lemma PromptsAreTheRuns(c: A.Setup, steps: seq<PL.Step>, s: PL.State, r: RequestId)
    requires Credentials.Sound(c.creds) && PL.Runs(c, PL.EMPTY, steps, s)
    requires r in s.app.links.links && !s.app.links.links[r].phase.Spawned?
    ensures r in s.world.sys.calls && s.app.links.links[r].acc in s.app.links.made
    ensures var (called, m) := (D.Called(s.world.sys.callbacks, r), s.app.links.made[s.app.links.links[r].acc]);
            && m.request == Some(r) && s.world.sys.calls[r].command == LinkAccount(r, m.login.username, m.login.password)
            && (called != [] || D.Answer(s.world.sys, r).Some? ==> D.Started(s.world, r))
            && (D.Started(s.world, r) ==>
                  && r in Reports(c, steps) && Reports(c, steps)[r].LinkReport?
                  && D.ArePrompts(called, r, Reports(c, steps)[r].link.prompts)
                  && (D.Answer(s.world.sys, r).Some? ==> |called| == |Reports(c, steps)[r].link.prompts|))
  {
    hide P.Lawful, P.CollisionFree, Crypto.Lawful, PL.Runs, PL.Reachable, W.Runs, WorldSteps, D.Chosen, A.Reachable, W.Reachable,
         LS.Reachable, D.Called, D.Answer, D.Inbox, D.Started, D.ArePrompts;
    IsReachable(c, steps, s);
    PL.ReachableInParts(c, s);
    LO.CommandCarriesLogin(A.LinkSetup(c), PL.Stack(s), r);
    RunsInWorld(c, PL.EMPTY, steps, s);
    D.PromptsAreTheRuns(WorldSteps(c, PL.EMPTY, steps), s.world, r);
  }

  // ----- The runs are those the worker's code allows for the very command

  /** Each chosen run is one the worker's methods allow for the command of its call. */
  ghost predicate AllGenuine(c: A.Setup, calls: C.Calls, reports: D.Reports) {
    forall r :: r in reports ==> r in calls && GenuineReport(c, calls[r].command, reports[r])
  }

  predicate GenuineReport(c: A.Setup, command: Command, report: D.Report) {
    match report
    case LinkReport(run) => command.LinkAccount? && SteamLogin.GenuineLink(c.claims, command.username, command.password, run)
    case FriendsReport(run) => command.ListFriends? && SteamLogin.GenuineFriends(c.claims, command.refreshToken, run)
  }

  lemma ChoiceIsGenuine(c: A.Setup, w: W.World, b: W.Step, reports: D.Reports)
    requires W.Enabled(w, b) && PL.GenuineStep(c, w, b) && W.Inv(w) && AllGenuine(c, w.sys.calls, reports)
    ensures AllGenuine(c, W.Do(w, b).sys.calls, D.Choose(w, b, reports))
  {
    hide C.Inv, W.Inv, C.Do, C.Enabled, SteamLogin.GenuineLink, SteamLogin.GenuineFriends;
    PL.WorldStepGrows(w, b);
    if b.TakeCommand? {
      PL.WorldInv(w);
      var command := w.sys.net.streams[b.x].sent[w.processes[b.x].taken];
      if IsRequest(command) {
        PL.CommandOfCall(w.sys, b.x, w.processes[b.x].taken);
      }
    }
  }

  lemma {:induction false} RunIsGenuine(c: A.Setup, s: PL.State, steps: seq<PL.Step>, t: PL.State, reports: D.Reports)
    requires Credentials.Sound(c.creds) && PL.Inv(c, s) && PL.Runs(c, s, steps, t) && AllGenuine(c, s.world.sys.calls, reports)
    ensures AllGenuine(c, t.world.sys.calls, D.Chosen(s.world, WorldSteps(c, s, steps), reports))
    decreases |steps|
  {
    hide P.Lawful, P.CollisionFree, Crypto.Lawful, PL.Inv, L.Known, PL.Enabled, PL.WorldStep, PL.AppAfter, PL.GuardsAfter, PL.AskedAfter,
         W.Do, W.Enabled, AllGenuine, PL.GenuineStep, D.Choose;
    if steps != [] {
      var a, u := steps[0], PL.Do(c, s, steps[0]);
      PL.StepKeepsInv(c, s, a);
      PL.WorldStepOk(c, s, a);
      var first, rest := PL.WorldStep(c, s, a), WorldSteps(c, u, steps[1..]);
      if first.Some? {
        PL.InvSys(c, s);
        PL.WorldStepGenuine(c, s, a);
        ChoiceIsGenuine(c, s.world, first.value, reports);
        assert ([first.value] + rest)[1..] == rest;
        RunIsGenuine(c, u, steps[1..], t, D.Choose(s.world, first.value, reports));
      } else {
        assert [] + rest == rest;
        RunIsGenuine(c, u, steps[1..], t, reports);
      }
    }
  }

  /** How an account is linked depends on the credentials it was added with: with none, every prompt
      of the run chosen for its command is a QR code to scan; with both, there is one prompt at
      most, for a Steam Guard code. Nobody adds an account with only one of the two. */
  lemma CredentialsDecidePrompts(c: A.Setup, steps: seq<PL.Step>, s: PL.State, acc: L.AccountId, r: RequestId, i: nat)
    requires Credentials.Sound(c.creds) && PL.Runs(c, PL.EMPTY, steps, s)
    requires acc in s.app.links.made && s.app.links.made[acc].request == Some(r)
    requires r in s.app.links.links && !s.app.links.links[r].phase.Spawned? && r in Reports(c, steps)
    ensures Reports(c, steps)[r].LinkReport?
    ensures var (login, prompts) := (s.app.links.made[acc].login, Reports(c, steps)[r].link.prompts);
            && (login.username == "" <==> login.password == "")
            && (login.username == "" && i < |prompts| ==> prompts[i].QrUrl?)
            && (login.username != "" ==> |prompts| <= 1 && (i < |prompts| ==> prompts[i].GuardNeeded?))
  {
    hide P.Lawful, P.CollisionFree, Crypto.Lawful, PL.Runs, PL.Reachable, PL.Inv, W.Runs, WorldSteps, D.Chosen, A.Reachable, W.Reachable,
         LS.Reachable, L.Reachable, SteamLogin.IsSubject, L.Inv, C.Inv, LS.Inv;
    IsReachable(c, steps, s);
    PL.ReachableInParts(c, s);
    LO.CommandCarriesLogin(A.LinkSetup(c), PL.Stack(s), r);
    PL.RequestsDiffer(A.LinkSetup(c), PL.Stack(s), acc, s.app.links.links[r].acc);
    A.ReachableInLinks(c, s.app);
    L.LoginsAreWellFormed(A.LinkSetup(c), s.app.links, acc);
    PL.EmptyInv(c);
    RunIsGenuine(c, PL.EMPTY, steps, s, map[]);
    assert GenuineReport(c, s.world.sys.calls[r].command, Reports(c, steps)[r]);
  }

  /** What is stored with a token that was issued as tokens are: its sub claim as the Steam id, its
      exp claim as the expiry, the name the account was added with. */
  lemma StoredClaims(c: A.Setup, s: PL.State, acc: L.AccountId, header: string, payload: Jwt.bytes, signature: string)
    requires Credentials.Sound(c.creds) && PL.Reachable(c, s) && '.' !in header && '.' !in signature
    requires acc in s.app.links.rows && s.app.links.rows[acc].token != []
    requires acc in s.app.links.made && s.app.links.made[acc].token == Some(Jwt.Issued(header, payload, signature))
    ensures var row := s.app.links.rows[acc];
            && (c.claims(payload).Object? ==> row.steamId == c.claims(payload).sub)
            && row.expires == (if c.exp(payload).Some? && c.exp(payload).value != 0 then c.exp(payload) else None)
            && row.username == s.app.links.made[acc].login.username
  {
    hide P.Lawful, P.CollisionFree, Crypto.Lawful, PL.Reachable, A.Reachable, W.Reachable, LS.Reachable, L.Reachable, Crypto.Decrypt,
         Jwt.Issued, Jwt.SteamIdFromJwt, Jwt.ExpiryFromJwt;
    PL.ReachableInParts(c, s);
    A.ReachableInLinks(c, s.app);
    L.RowHoldsReturnedToken(A.LinkSetup(c), s.app.links, acc);
    Jwt.SubjectOfIssued(c.claims, header, payload, signature);
    Jwt.ExpiryOfIssued(c.exp, header, payload, signature);
  }

  /** And the owner in a friends reply is the sub claim of the token its call was about. */
  lemma OwnerIsSubClaim(c: A.Setup, steps: seq<PL.Step>, s: PL.State, r: RequestId, owner: string, friends: seq<Friend>,
                        header: string, payload: Jwt.bytes, signature: string)
    requires Credentials.Sound(c.creds) && PL.Runs(c, PL.EMPTY, steps, s) && r in s.world.sys.phases
    requires C.AnswerOf(s.world.sys.phases[r]) == Some(FriendsReply(r, FriendsOk(owner, friends)))
    requires '.' !in header && '.' !in signature && r in s.world.sys.calls && c.claims(payload).Object?
    requires s.world.sys.calls[r].command == ListFriends(r, Jwt.Issued(header, payload, signature))
    ensures owner == c.claims(payload).sub
  {
    hide P.Lawful, P.CollisionFree, Crypto.Lawful, PL.Runs, Jwt.Issued, Jwt.SteamIdFromJwt, D.Chosen, WorldSteps;
    FriendsAreTheRuns(c, steps, s, r, owner, friends);
    Jwt.SubjectOfIssued(c.claims, header, payload, signature);
  }
}
