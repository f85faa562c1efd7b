/** The messages of the worker stream that the control plane correlates by request id
    (proto/spectator/v1/worker.proto). Request ids are random 128-bit values; only their
    identity matters, so they are numbers here. */
module Messages {
  import opened SessionProtocol

  type RequestId = nat

  datatype GuardType = UNSPECIFIED | EMAIL | MOBILE

  datatype Friend = Friend(steamId: string, personaName: string, online: bool, inMatch: bool)

  datatype FriendsOutcome = FriendsOk(owner: string, friends: seq<Friend>) | FriendsError(code: string)
  datatype LinkOutcome = LinkOk(owner: string, refreshToken: string) | LinkError(code: string)

  /** The two kinds of final reply. */
  datatype Reply =
    | FriendsReply(requestId: RequestId, friends: FriendsOutcome)
    | LinkReply(requestId: RequestId, link: LinkOutcome)

  datatype Event =
    | Ready
    | StatusUpdate(state: WorkerState)
    | Guard(id: RequestId, guardType: GuardType)
    | Challenge(id: RequestId, url: string)
    | Final(reply: Reply)

  datatype Command =
    | LinkAccount(id: RequestId, username: string, password: string)
    | ListFriends(id: RequestId, refreshToken: string)
    | SubmitGuardCode(id: RequestId, code: string)

  /** The event is about some request, and which. */
  predicate Concerns(ev: Event, r: RequestId) {
    match ev
    case Ready => false
    case StatusUpdate(_) => false
    case Guard(id, _) => id == r
    case Challenge(id, _) => id == r
    case Final(reply) => reply.requestId == r
  }

  predicate IsInterim(ev: Event) {
    ev.Guard? || ev.Challenge?
  }

  /** The command starts a run that ends in one final reply. */
  predicate IsRequest(c: Command) {
    !c.SubmitGuardCode?
  }
}
