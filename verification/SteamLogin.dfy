/** The warm Steam session (worker/steam_client.py, login_with_token and list_friends), and what
    the worker's runs may report: the subject of the very token they got or were given.

    What Steam does is a parameter: whether the client says it is logged on, whether it connects,
    whether it accepts the token, the friends it holds for an account. WarmSession has what threads
    do to each other here. */
module SteamLogin {
  import opened Wrappers
  import opened Messages
  import opened WorkerAgent
  import Jwt

  type bytes = Jwt.bytes

  /** steam_id_from_jwt raises on claims that are not an object. */
  const NO_CLAIMS := OtherFailure("'list' object has no attribute 'get'")

  const NO_CONNECTION := LoginError("could not connect to steam")
  const REFUSED := LoginError("token login failed")

  // ----- What runs report

  predicate IsSubject(claims: bytes -> Jwt.Claims, token: string, owner: string) {
    Jwt.SteamIdFromJwt(claims, token) == Some(owner)
  }

  /** Empty credentials ask for a QR link. */
  predicate QrMode(username: string, password: string) {
    username == "" && password == ""
  }

  predicate GenuineQr(claims: bytes -> Jwt.Claims, run: LinkRun) {
    && (run.end.Ok? ==> IsSubject(claims, run.end.value.1, run.end.value.0))
    && forall i :: 0 <= i < |run.prompts| ==> run.prompts[i].QrUrl?
  }

  /** A credentials login waits for a guard code once at most. */
  predicate GenuineCredentials(claims: bytes -> Jwt.Claims, run: LinkRun) {
    && (run.end.Ok? ==> IsSubject(claims, run.end.value.1, run.end.value.0))
    && |run.prompts| <= 1
    && forall i :: 0 <= i < |run.prompts| ==> run.prompts[i].GuardNeeded?
  }

  predicate GenuineLink(claims: bytes -> Jwt.Claims, username: string, password: string, run: LinkRun) {
    if QrMode(username, password) then GenuineQr(claims, run) else GenuineCredentials(claims, run)
  }

  predicate GenuineFriends(claims: bytes -> Jwt.Claims, refreshToken: string, run: FriendsRun) {
    run.end.Ok? ==> IsSubject(claims, refreshToken, run.end.value.0)
  }

  // ----- The session

  /** account is the one whose friends the client holds. */
  class Session {
    var steamId: Option<string>
    var account: Option<string>

    /** The session remembers the account the client is on. */
    ghost predicate Valid()
      reads this
    {
      steamId.Some? ==> account == steamId
    }

    constructor ()
      ensures Valid() && steamId == None
    {
      steamId, account := None, None;
    }

    /** Run alone. Whether it keeps the session it has or logs on anew, a login that succeeds
        answers with the subject of its token, and leaves the session and the client with that
        account; one that fails leaves both alone. */
    method LoginWithToken(claims: bytes -> Jwt.Claims, refreshToken: string, loggedOn: bool, connects: bool, accepts: bool)
        returns (r: Result<string, Failure>)
      requires Valid()
      modifies this
      ensures Valid()
      ensures r.Ok? ==> IsSubject(claims, refreshToken, r.value) && steamId == Some(r.value) && account == Some(r.value)
      ensures r.Err? ==> steamId == old(steamId) && account == old(account)
      ensures r.Ok? <==> Jwt.SteamIdFromJwt(claims, refreshToken).Some? &&
                         ((loggedOn && old(steamId) == Jwt.SteamIdFromJwt(claims, refreshToken)) || (connects && accepts))
      ensures r.Err? ==> r.error == if Jwt.SteamIdFromJwt(claims, refreshToken).None? then NO_CLAIMS
                                    else if !connects then NO_CONNECTION else REFUSED
    {
      var id := Jwt.SteamIdFromJwt(claims, refreshToken);
      if id.None? {
        return Err(NO_CLAIMS);
      }
      if loggedOn && steamId == id {
        return Ok(id.value);
      }
      if !connects {
        return Err(NO_CONNECTION);
      }
      if !accepts {
        return Err(REFUSED);
      }
      account := id;
      steamId := id;
      return Ok(id.value);
    }

    /** Run alone, list_friends answers with the owner of the token it was given and that
        account's friends, whatever account the session was warm for. */
    method ListFriends(claims: bytes -> Jwt.Claims, refreshToken: string, loggedOn: bool, connects: bool, accepts: bool,
                       friendsOf: string -> Result<seq<Friend>, Failure>) returns (run: FriendsRun)
      requires Valid()
      modifies this
      ensures Valid()
      ensures GenuineFriends(claims, refreshToken, run)
      ensures run.end.Ok? ==> friendsOf(run.end.value.0) == Ok(run.end.value.1) && steamId == Some(run.end.value.0)
      ensures run.end.Ok? <==>
                var id := Jwt.SteamIdFromJwt(claims, refreshToken);
                id.Some? && ((loggedOn && old(steamId) == id) || (connects && accepts)) && friendsOf(id.value).Ok?
      ensures run.end.Err? ==>
                var id := Jwt.SteamIdFromJwt(claims, refreshToken);
                run.end.error == if id.None? then NO_CLAIMS
                                 else if (loggedOn && old(steamId) == id) || (connects && accepts) then friendsOf(id.value).error
                                 else if !connects then NO_CONNECTION else REFUSED
    {
      var owner := LoginWithToken(claims, refreshToken, loggedOn, connects, accepts);
      if owner.Err? {
        return FriendsRun(Err(owner.error));
      }
      var friends := friendsOf(account.value);
      if friends.Err? {
        return FriendsRun(Err(friends.error));
      }
      return FriendsRun(Ok((owner.value, friends.value)));
    }
  }

  // ----- The subject a run reports is the sub claim

  /** For a token as issuers write them, a link reports its sub claim, and so does a friends run
      of the token it was given; a token whose claims are not an object is never reported. */
  lemma ReportsSubClaim(claims: bytes -> Jwt.Claims, header: string, payload: bytes, signature: string,
                        username: string, password: string, link: LinkRun, friends: FriendsRun)
    requires '.' !in header && '.' !in signature
    requires GenuineLink(claims, username, password, link)
    requires GenuineFriends(claims, Jwt.Issued(header, payload, signature), friends)
    ensures var token := Jwt.Issued(header, payload, signature);
            match claims(payload)
            case Object(sub) =>
              && (link.end.Ok? && link.end.value.1 == token ==> link.end.value.0 == sub)
              && (friends.end.Ok? ==> friends.end.value.0 == sub)
            case NotJson =>
              && (link.end.Ok? && link.end.value.1 == token ==> link.end.value.0 == "")
              && (friends.end.Ok? ==> friends.end.value.0 == "")
            case NotAnObject => friends.end.Err? && (link.end.Ok? ==> link.end.value.1 != token)
  {
    hide Jwt.SteamIdFromJwt, Jwt.Issued;
    Jwt.SubjectOfIssued(claims, header, payload, signature);
  }

  /** A session warm for one issued account is not taken for another's: two tokens whose claims
      name different subjects have different subjects. */
  lemma SubjectsTellApart(claims: bytes -> Jwt.Claims, header: string, payload: bytes, signature: string,
                          header': string, payload': bytes, signature': string)
    requires '.' !in header && '.' !in signature && '.' !in header' && '.' !in signature'
    requires claims(payload).Object? && claims(payload').Object? && claims(payload).sub != claims(payload').sub
    ensures Jwt.SteamIdFromJwt(claims, Jwt.Issued(header, payload, signature)) !=
            Jwt.SteamIdFromJwt(claims, Jwt.Issued(header', payload', signature'))
  {
    hide Jwt.SteamIdFromJwt, Jwt.Issued;
    Jwt.SubjectOfIssued(claims, header, payload, signature);
    Jwt.SubjectOfIssued(claims, header', payload', signature');
  }

  /** Which of the two logins a command starts: a QR link without username and password, whose
      prompts are all QR codes; otherwise, with either given, a credentials login, which asks for
      one guard code at most. */
  lemma ModeDecidesPrompts(claims: bytes -> Jwt.Claims, username: string, password: string, run: LinkRun, i: nat)
    requires GenuineLink(claims, username, password, run)
    ensures username == "" && password == "" && i < |run.prompts| ==> run.prompts[i].QrUrl?
    ensures username != "" || password != "" ==> |run.prompts| <= 1 && (i < |run.prompts| ==> run.prompts[i].GuardNeeded?)
  {
    hide IsSubject;
  }
}
