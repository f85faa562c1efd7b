/** The worker's command handlers and outbox (worker/agent.py, worker/grpc_client.py).

    What Steam does during a run is a parameter: the interim prompts it causes and how it ends,
    including any exception. */
module WorkerAgent {
  import opened Wrappers
  import opened SessionProtocol
  import opened Messages

  datatype Failure = LoginError(message: string) | SteamGuardRequired(message: string) | OtherFailure(message: string)

  datatype Prompt = GuardNeeded(guardType: GuardType) | QrUrl(url: string)

  datatype LinkRun = LinkRun(prompts: seq<Prompt>, end: Result<(string, string), Failure>)
  datatype FriendsRun = FriendsRun(end: Result<(string, seq<Friend>), Failure>)

  function LinkErrorCode(f: Failure): string {
    if f.LoginError? then "LOGIN_FAILED" else "STEAM_ERROR"
  }

  function FriendsErrorCode(f: Failure): string {
    match f
    case SteamGuardRequired(_) => "STEAM_GUARD_REQUIRED"
    case LoginError(_) => "LOGIN_FAILED"
    case OtherFailure(_) => "STEAM_ERROR"
  }

  function PromptEvent(r: RequestId, p: Prompt): Event {
    match p
    case GuardNeeded(t) => Guard(r, t)
    case QrUrl(url) => Challenge(r, url)
  }

  function PromptEvents(r: RequestId, ps: seq<Prompt>): (evs: seq<Event>)
    ensures |evs| == |ps|
  {
    seq(|ps|, i requires 0 <= i < |ps| => PromptEvent(r, ps[i]))
  }

  function LinkReplyEvent(r: RequestId, end: Result<(string, string), Failure>): Event {
    Final(LinkReply(r, match end
                       case Ok((owner, token)) => LinkOk(owner, token)
                       case Err(f) => LinkError(LinkErrorCode(f))))
  }

  function FriendsReplyEvent(r: RequestId, end: Result<(string, seq<Friend>), Failure>): Event {
    Final(FriendsReply(r, match end
                          case Ok((owner, friends)) => FriendsOk(owner, friends)
                          case Err(f) => FriendsError(FriendsErrorCode(f))))
  }

  /** Everything one LinkAccount command puts in the outbox. */
  function LinkEvents(r: RequestId, run: LinkRun): seq<Event> {
    PromptEvents(r, run.prompts) + [LinkReplyEvent(r, run.end)]
  }

  function FriendsEvents(r: RequestId, run: FriendsRun): seq<Event> {
    [FriendsReplyEvent(r, run.end)]
  }

  /** Events about r: interim ones, then one final reply, and nothing after it. */
  ghost predicate RunShape(r: RequestId, evs: seq<Event>) {
    && evs != []
    && (forall i :: 0 <= i < |evs| ==> Concerns(evs[i], r))
    && (forall i :: 0 <= i < |evs| ==> if i == |evs| - 1 then evs[i].Final? else IsInterim(evs[i]))
  }

  /** On success and on any exception, at any point, a run reports exactly one final reply, as
      its last event. */
  lemma RunsReportOnce(r: RequestId, link: LinkRun, friends: FriendsRun)
    ensures RunShape(r, LinkEvents(r, link)) && RunShape(r, FriendsEvents(r, friends))
    ensures LinkEvents(r, link)[|link.prompts|].reply.LinkReply?
    ensures FriendsEvents(r, friends)[0].reply.FriendsReply?
  {
    var evs := LinkEvents(r, link);
    forall i | 0 <= i < |evs|
      ensures Concerns(evs[i], r) && if i == |evs| - 1 then evs[i].Final? else IsInterim(evs[i])
    {
    }
  }

  /** The agent: a state, and a FIFO outbox that the stream drains from the front. */
  class Agent {
    var state: WorkerState
    var outbox: seq<Event>

    constructor ()
      ensures state == WStopped && outbox == []
    {
      state := WStopped;
      outbox := [];
    }

    /** _advance: along an edge, report the new state; otherwise change nothing. */
    method AdvanceState(ev: WorkerEvent)
      modifies this
      ensures state == Advance(old(state), ev).0
      ensures outbox == old(outbox) + (if NextWorker(old(state), ev).Ok? then [StatusUpdate(state)] else [])
    {
      match NextWorker(state, ev)
      case Err(_) =>
      case Ok(next) =>
        state := next;
        outbox := outbox + [StatusUpdate(next)];
    }

    /** run: Ready is the first message on the stream. */
    method Connect()
      requires state == WStopped && outbox == []
      modifies this
      ensures state == WIdle && outbox == [Ready, StatusUpdate(WIdle)]
    {
      outbox := outbox + [Ready];
      AdvanceState(StreamConnected);
    }

    /** _link_account: prompts as they come, then one reply whatever happened. */
    method LinkAccount(r: RequestId, run: LinkRun)
      modifies this`outbox
      ensures outbox == old(outbox) + LinkEvents(r, run)
      ensures |outbox| == |old(outbox)| + |run.prompts| + 1
      ensures forall i :: 0 <= i < |run.prompts| ==>
                outbox[|old(outbox)| + i] == match run.prompts[i] case GuardNeeded(t) => Guard(r, t) case QrUrl(url) => Challenge(r, url)
      ensures run.end.Ok? ==> outbox[|outbox| - 1] == Final(LinkReply(r, LinkOk(run.end.value.0, run.end.value.1)))
      ensures run.end.Err? ==>
                outbox[|outbox| - 1] ==
                Final(LinkReply(r, LinkError(if run.end.error.LoginError? then "LOGIN_FAILED" else "STEAM_ERROR")))
    {
      for i := 0 to |run.prompts|
        invariant outbox == old(outbox) + PromptEvents(r, run.prompts)[..i]
      {
        match run.prompts[i] {
          case GuardNeeded(t) => outbox := outbox + [Guard(r, t)];
          case QrUrl(url) => outbox := outbox + [Challenge(r, url)];
        }
        assert PromptEvents(r, run.prompts)[..i + 1] == PromptEvents(r, run.prompts)[..i] + [PromptEvent(r, run.prompts[i])];
      }
      assert PromptEvents(r, run.prompts)[..|run.prompts|] == PromptEvents(r, run.prompts);
      assert forall i :: 0 <= i < |run.prompts| ==> outbox[|old(outbox)| + i] == PromptEvent(r, run.prompts[i]);
      var reply;
      match run.end {
        case Err(f) => reply := LinkReply(r, LinkError(LinkErrorCode(f)));
        case Ok((owner, token)) => reply := LinkReply(r, LinkOk(owner, token));
      }
      outbox := outbox + [Final(reply)];
    }

    method ListFriends(r: RequestId, run: FriendsRun)
      modifies this`outbox
      ensures outbox == old(outbox) + FriendsEvents(r, run)
      ensures run.end.Ok? ==> outbox == old(outbox) + [Final(FriendsReply(r, FriendsOk(run.end.value.0, run.end.value.1)))]
      ensures run.end.Err? ==>
                outbox == old(outbox) + [Final(FriendsReply(r, FriendsError(
                  if run.end.error.SteamGuardRequired? then "STEAM_GUARD_REQUIRED"
                  else if run.end.error.LoginError? then "LOGIN_FAILED" else "STEAM_ERROR")))]
    {
      var reply;
      match run.end {
        case Err(f) => reply := FriendsReply(r, FriendsError(FriendsErrorCode(f)));
        case Ok((owner, friends)) => reply := FriendsReply(r, FriendsOk(owner, friends));
      }
      outbox := outbox + [Final(reply)];
    }
  }
}
