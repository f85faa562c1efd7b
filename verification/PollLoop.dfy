/** Polling Steam for a refresh token (worker/steam_client.py, _poll_to_refresh_token).

    Steam's answers and the monotonic clock are parameters: answers(i) is what request number i
    brings back, clock(i) the reading taken after it. Seconds are reals. */
module PollLoop {
  import opened Wrappers
  import opened WorkerAgent
  import GuardHandoff
  import Jwt
  import opened SteamLogin
  import opened Messages

  const AUTH_POLL_TIMEOUT := 300.0
  const DEFAULT_INTERVAL := 2.0

  datatype Response = Response(newClientId: nat, newChallengeUrl: string, refreshToken: string)

  /** A request that raises instead of answering is an Err. */
  type Answers = nat -> Result<Response, Failure>
  type Clock = nat -> real

  /** What a finished loop leaves behind: the client ids it polled with and the challenge URLs
      it surfaced, in order. */
  datatype Poll = Poll(end: Result<Response, Failure>, clientIds: seq<nat>, surfaced: seq<string>)

  function Wait(interval: real): real {
    if interval == 0.0 then DEFAULT_INTERVAL else interval
  }

  /** Between two readings the loop sleeps for wait. */
  ghost predicate Paced(clock: Clock, started: real, wait: real) {
    && started <= clock(0)
    && forall i: nat, j: nat :: j == i + 1 ==> clock(i) + wait <= clock(j)
  }

  // ----- What the loop is for

  /** An answer and the time after it that end the loop. */
  predicate Ends(a: Result<Response, Failure>, now: real, deadline: real, wait: real) {
    a.Err? || a.value.refreshToken != "" || now > deadline || wait < 0.0
  }

  /** Poll number i is the loop's last. */
  predicate Settles(answers: Answers, clock: Clock, deadline: real, wait: real, i: nat) {
    Ends(answers(i), clock(i), deadline, wait)
  }

  predicate NoneSettled(answers: Answers, clock: Clock, deadline: real, wait: real, n: nat) {
    forall i: nat :: i < n ==> !Settles(answers, clock, deadline, wait, i)
  }

  predicate FirstSettled(answers: Answers, clock: Clock, deadline: real, wait: real, n: nat) {
    Settles(answers, clock, deadline, wait, n) && NoneSettled(answers, clock, deadline, wait, n)
  }

  function TimedOut(): Failure {
    LoginError("steam auth session timed out awaiting confirmation")
  }

  function BadSleep(): Failure {
    OtherFailure("sleep length must be non-negative")
  }

  /** How the loop ends with such an answer. A token wins over a deadline that has passed;
      time.sleep rejects a negative wait. */
  function EndWith(a: Result<Response, Failure>, now: real, deadline: real): Result<Response, Failure> {
    if a.Err? then Err(a.error)
    else if a.value.refreshToken != "" then a
    else if now > deadline then Err(TimedOut())
    else Err(BadSleep())
  }

  function EndAt(answers: Answers, clock: Clock, deadline: real, n: nat): Result<Response, Failure> {
    EndWith(answers(n), clock(n), deadline)
  }

  /** id is the last non-zero client id Steam gave before poll i, or the first one if none. */
  predicate LatestId(answers: Answers, clientId: nat, i: nat, id: nat) {
    || (id == clientId && NoNewId(answers, 0, i))
    || exists j: nat :: j < i && answers(j).Ok? && answers(j).value.newClientId == id && id != 0 && NoNewId(answers, j + 1, i)
  }

  /** Each poll carried the latest client id. */
  predicate CarryLatest(answers: Answers, clientId: nat, ids: seq<nat>) {
    forall i :: 0 <= i < |ids| ==> LatestId(answers, clientId, i, ids[i])
  }

  predicate NoNewId(answers: Answers, lo: nat, hi: nat) {
    forall j: nat :: lo <= j < hi ==> answers(j).Err? || answers(j).value.newClientId == 0
  }

  /** Every non-empty challenge URL among the first n answers, in order. */
  function NewUrls(answers: Answers, n: nat): seq<string> {
    if n == 0 then []
    else NewUrls(answers, n - 1) + UrlOf(answers(n - 1))
  }

  function UrlOf(a: Result<Response, Failure>): seq<string> {
    if a.Ok? && a.value.newChallengeUrl != "" then [a.value.newChallengeUrl] else []
  }

  // ----- The bound

  lemma {:induction false} ClockAdvances(clock: Clock, started: real, wait: real, n: nat)
    requires Paced(clock, started, wait)
    ensures started + n as real * wait <= clock(n)
  {
    if n > 0 {
      ClockAdvances(clock, started, wait, n - 1);
      assert (n - 1) as real * wait + wait == n as real * wait;
    }
  }

  lemma MulKeepsOrder(a: real, b: real, wait: real)
    requires wait > 0.0
    ensures a <= b <==> a * wait <= b * wait
  {
    assert b * wait - a * wait == (b - a) * wait;
  }

  /** floor(limit / wait) is the largest number of waits that fits into the limit. */
  lemma MultiplesFit(n: nat, wait: real, limit: real)
    requires wait > 0.0 && limit >= 0.0
    ensures n as real * wait <= limit <==> n <= (limit / wait).Floor
  {
    var q := limit / wait;
    assert q * wait == limit;
    MulKeepsOrder(n as real, q, wait);
  }

  function MostPolls(wait: real): (n: nat)
    requires wait > 0.0
    ensures n >= 2
  {
    (AUTH_POLL_TIMEOUT / wait).Floor + 2
  }

  /** While the loop goes on, poll i has been at most floor(300 / wait) + 1 polls in. */
  lemma StillWaiting(answers: Answers, clock: Clock, started: real, wait: real, i: nat)
    requires wait > 0.0 && Paced(clock, started, wait)
    requires !Settles(answers, clock, started + AUTH_POLL_TIMEOUT, wait, i)
    ensures i + 2 <= MostPolls(wait)
  {
    ClockAdvances(clock, started, wait, i);
    MultiplesFit(i, wait, AUTH_POLL_TIMEOUT);
  }

  // ----- The loop

  method PollToRefreshToken(clientId: nat, interval: real, surface: bool, answers: Answers, started: real, clock: Clock)
      returns (poll: Poll)
    requires Wait(interval) > 0.0 ==> Paced(clock, started, Wait(interval))
    ensures var n := |poll.clientIds|;
            && n > 0 && FirstSettled(answers, clock, started + AUTH_POLL_TIMEOUT, Wait(interval), n - 1)
            && poll.end == EndAt(answers, clock, started + AUTH_POLL_TIMEOUT, n - 1)
            && CarryLatest(answers, clientId, poll.clientIds)
            && poll.surfaced == (if surface then NewUrls(answers, n) else [])
            && (Wait(interval) > 0.0 ==> n <= MostPolls(Wait(interval)))
  {
    FirstId(answers, clientId);
    assert NewUrls(answers, 0) == [];
    hide LatestId, MostPolls, Paced, NewUrls, NoneSettled, CarryLatest, TimedOut, BadSleep, Settles, EndAt, FirstSettled;
    var wait := if interval == 0.0 then DEFAULT_INTERVAL else interval;
    var deadline := started + AUTH_POLL_TIMEOUT;
    assert wait == Wait(interval);
    hide Wait;
    var id, ids, surfaced := clientId, [], [];
    NothingPolled(answers, clock, deadline, wait, clientId);
    while true
      invariant NoneSettled(answers, clock, deadline, wait, |ids|)
      invariant CarryLatest(answers, clientId, ids)
      invariant LatestId(answers, clientId, |ids|, id)
      invariant surfaced == if surface then NewUrls(answers, |ids|) else []
      invariant wait > 0.0 || ids == []
      invariant wait > 0.0 ==> |ids| < MostPolls(wait)
      decreases if wait > 0.0 then MostPolls(wait) - |ids| else 0
    {
      var n := |ids|;
      var answer, now := answers(n), clock(n);
      CarryOneMore(answers, clientId, ids, id);
      ids := ids + [id];
      NewUrlsGrow(answers, n);
      PollEnds(answers, clock, deadline, wait, n, answer, now);
      if answer.Err? {
        return Poll(Err(answer.error), ids, surfaced);
      }
      var resp := answer.value;
      NextId(answers, clientId, n, id);
      if resp.newClientId != 0 {
        id := resp.newClientId;
      }
      if surface && resp.newChallengeUrl != "" {
        surfaced := surfaced + [resp.newChallengeUrl];
      }
      if resp.refreshToken != "" {
        return Poll(Ok(resp), ids, surfaced);
      }
      if now > deadline {
        return Poll(Err(TimedOut()), ids, surfaced);
      }
      if wait < 0.0 {
        return Poll(Err(BadSleep()), ids, surfaced);
      }
      StillWaiting(answers, clock, started, wait, n);
      OneMoreUnsettled(answers, clock, deadline, wait, n);
    }
  }

  lemma PollEnds(answers: Answers, clock: Clock, deadline: real, wait: real, n: nat, a: Result<Response, Failure>, now: real)
    requires a == answers(n) && now == clock(n) && NoneSettled(answers, clock, deadline, wait, n)
    ensures Settles(answers, clock, deadline, wait, n) <==> Ends(a, now, deadline, wait)
    ensures Ends(a, now, deadline, wait) ==> FirstSettled(answers, clock, deadline, wait, n)
    ensures EndAt(answers, clock, deadline, n) == EndWith(a, now, deadline)
  {
    hide NoneSettled;
  }

  lemma NothingPolled(answers: Answers, clock: Clock, deadline: real, wait: real, clientId: nat)
    ensures NoneSettled(answers, clock, deadline, wait, 0) && CarryLatest(answers, clientId, [])
  {
  }

  lemma OneMoreUnsettled(answers: Answers, clock: Clock, deadline: real, wait: real, n: nat)
    requires NoneSettled(answers, clock, deadline, wait, n) && !Settles(answers, clock, deadline, wait, n)
    ensures NoneSettled(answers, clock, deadline, wait, n + 1)
  {
    hide Settles;
  }

  lemma CarryOneMore(answers: Answers, clientId: nat, ids: seq<nat>, id: nat)
    requires CarryLatest(answers, clientId, ids) && LatestId(answers, clientId, |ids|, id)
    ensures CarryLatest(answers, clientId, ids + [id])
  {
    hide LatestId;
  }

  lemma NewUrlsGrow(answers: Answers, n: nat)
    ensures NewUrls(answers, n + 1) == NewUrls(answers, n) + UrlOf(answers(n))
  {
  }

  lemma FirstId(answers: Answers, clientId: nat)
    ensures LatestId(answers, clientId, 0, clientId)
  {
  }

  lemma NextId(answers: Answers, clientId: nat, n: nat, id: nat)
    requires LatestId(answers, clientId, n, id) && answers(n).Ok?
    ensures LatestId(answers, clientId, n + 1, if answers(n).value.newClientId != 0 then answers(n).value.newClientId else id)
  {
  }

  // ----- QR link

  /** A link succeeds exactly when polling brought a token whose claims can be read; it reports
      that token and its subject, or else how polling failed. */
  predicate EndsAs(claims: Jwt.bytes -> Jwt.Claims, polled: Result<Response, Failure>, end: Result<(string, string), Failure>) {
    && (end.Ok? <==> polled.Ok? && Jwt.SteamIdFromJwt(claims, polled.value.refreshToken).Some?)
    && (end.Ok? ==> end.value.1 == polled.value.refreshToken != "" && IsSubject(claims, end.value.1, end.value.0))
    && (end.Err? ==> end.error == if polled.Err? then polled.error else NO_CLAIMS)
  }

  predicate LastPoll(answers: Answers, clock: Clock, started: real, interval: real, n: nat) {
    FirstSettled(answers, clock, started + AUTH_POLL_TIMEOUT, Wait(interval), n)
  }

  datatype Begun = Begun(clientId: nat, interval: real, challengeUrl: string)

  /** One prompt for every URL, in order. */
  predicate ArePromptsOf(prompts: seq<Prompt>, urls: seq<string>) {
    |prompts| == |urls| && forall i :: 0 <= i < |urls| ==> prompts[i] == QrUrl(urls[i])
  }

  function QrPrompts(urls: seq<string>): (prompts: seq<Prompt>)
    ensures |prompts| == |urls|
  {
    seq(|urls|, i requires 0 <= i < |urls| => QrUrl(urls[i]))
  }

  /** begin_qr_link. Every challenge URL becomes a prompt, the first one and the new ones in
      order; a link that succeeds reports the subject of the very token it reports. */
  method BeginQrLink(claims: Jwt.bytes -> Jwt.Claims, begun: Result<Begun, Failure>, answers: Answers, started: real, clock: Clock)
      returns (run: LinkRun)
    requires begun.Ok? && Wait(begun.value.interval) > 0.0 ==> Paced(clock, started, Wait(begun.value.interval))
    ensures begun.Err? ==> run == LinkRun([], Err(begun.error))
    ensures begun.Ok? ==>
              exists n: nat :: && LastPoll(answers, clock, started, begun.value.interval, n)
                               && ArePromptsOf(run.prompts, (if begun.value.challengeUrl != "" then [begun.value.challengeUrl] else [])
                                                            + NewUrls(answers, n + 1))
                               && EndsAs(claims, EndAt(answers, clock, started + AUTH_POLL_TIMEOUT, n), run.end)
    ensures GenuineQr(claims, run)
  {
    if begun.Err? {
      return LinkRun([], Err(begun.error));
    }
    hide Settles, NoneSettled, LatestId, CarryLatest, NewUrls, Paced, MostPolls, TimedOut;
    var urls := if begun.value.challengeUrl != "" then [begun.value.challengeUrl] else [];
    var poll := PollToRefreshToken(begun.value.clientId, begun.value.interval, true, answers, started, clock);
    assert LastPoll(answers, clock, started, begun.value.interval, |poll.clientIds| - 1);
    urls := urls + poll.surfaced;
    if poll.end.Err? {
      return LinkRun(QrPrompts(urls), Err(poll.end.error));
    }
    TokenAtEnd(answers, clock, started + AUTH_POLL_TIMEOUT, |poll.clientIds| - 1);
    var token := poll.end.value.refreshToken;
    var owner := Jwt.SteamIdFromJwt(claims, token);
    return LinkRun(QrPrompts(urls), if owner.None? then Err(NO_CLAIMS) else Ok((owner.value, token)));
  }

  // ----- Credentials link

  /** needs is the kind of code Steam asks for, if it asks for one. */
  datatype BegunLogin = BegunLogin(clientId: nat, steamId: nat, interval: real, needs: Option<GuardType>)

  const INVALID_CREDENTIALS := LoginError("login failed: invalid credentials")

  function WaitFailure(e: GuardHandoff.WaitError): Failure {
    match e
    case NotInTime => LoginError("steam guard code not submitted in time")
    case EmptyCode => LoginError("empty steam guard code")
  }

  /** What lets a credentials login go on to polling. */
  predicate MayPoll(key: Result<(), Failure>, begun: Result<BegunLogin, Failure>, code: Result<string, GuardHandoff.WaitError>,
                    update: Result<(), Failure>) {
    && key.Ok? && begun.Ok?
    && (begun.value.clientId != 0 || begun.value.steamId != 0)
    && (begun.value.needs.Some? ==> code.Ok? && update.Ok?)
  }

  /** begin_credentials_link. A prompt goes out exactly when the login was accepted and needs a
      code; a link that succeeds has the code Steam asked for, and reports the subject of the
      very token it reports. key and update stand for the other two requests to Steam, code for
      the wait for a guard code. */
  method BeginCredentialsLink(claims: Jwt.bytes -> Jwt.Claims, key: Result<(), Failure>, begun: Result<BegunLogin, Failure>,
                              code: Result<string, GuardHandoff.WaitError>, update: Result<(), Failure>,
                              answers: Answers, started: real, clock: Clock)
      returns (run: LinkRun)
    requires begun.Ok? && Wait(begun.value.interval) > 0.0 ==> Paced(clock, started, Wait(begun.value.interval))
    ensures run.prompts == if key.Ok? && begun.Ok? && (begun.value.clientId != 0 || begun.value.steamId != 0) && begun.value.needs.Some?
                           then [GuardNeeded(begun.value.needs.value)] else []
    ensures run.end.Ok? ==> MayPoll(key, begun, code, update)
    ensures !MayPoll(key, begun, code, update) ==>
              run.end == Err(if key.Err? then key.error
                             else if begun.Err? then begun.error
                             else if begun.value.clientId == 0 && begun.value.steamId == 0 then INVALID_CREDENTIALS
                             else if code.Err? then WaitFailure(code.error)
                             else update.error)
    ensures MayPoll(key, begun, code, update) ==>
              exists n: nat :: && LastPoll(answers, clock, started, begun.value.interval, n)
                               && EndsAs(claims, EndAt(answers, clock, started + AUTH_POLL_TIMEOUT, n), run.end)
    ensures GenuineCredentials(claims, run)
  {
    hide Settles, NoneSettled, LatestId, CarryLatest, NewUrls, Paced, MostPolls, TimedOut;
    if key.Err? {
      return LinkRun([], Err(key.error));
    }
    if begun.Err? {
      return LinkRun([], Err(begun.error));
    }
    if begun.value.clientId == 0 && begun.value.steamId == 0 {
      return LinkRun([], Err(INVALID_CREDENTIALS));
    }
    var prompts := [];
    if begun.value.needs.Some? {
      prompts := [GuardNeeded(begun.value.needs.value)];
      if code.Err? {
        return LinkRun(prompts, Err(WaitFailure(code.error)));
      }
      if update.Err? {
        return LinkRun(prompts, Err(update.error));
      }
    }
    var poll := PollToRefreshToken(begun.value.clientId, begun.value.interval, false, answers, started, clock);
    assert LastPoll(answers, clock, started, begun.value.interval, |poll.clientIds| - 1);
    assert poll.end == EndAt(answers, clock, started + AUTH_POLL_TIMEOUT, |poll.clientIds| - 1);
    if poll.end.Err? {
      return LinkRun(prompts, Err(poll.end.error));
    }
    TokenAtEnd(answers, clock, started + AUTH_POLL_TIMEOUT, |poll.clientIds| - 1);
    var token := poll.end.value.refreshToken;
    var owner := Jwt.SteamIdFromJwt(claims, token);
    return LinkRun(prompts, if owner.None? then Err(NO_CLAIMS) else Ok((owner.value, token)));
  }

  lemma TokenAtEnd(answers: Answers, clock: Clock, deadline: real, n: nat)
    requires EndAt(answers, clock, deadline, n).Ok?
    ensures EndAt(answers, clock, deadline, n) == answers(n) && answers(n).value.refreshToken != ""
  {
  }

  // ----- What callers rely on

  /** The loop times out only after the deadline, and never when an answer it saw had a token. */
  lemma TimesOutOnlyWithoutToken(answers: Answers, clock: Clock, deadline: real, wait: real, n: nat)
    requires FirstSettled(answers, clock, deadline, wait, n) && wait > 0.0
    ensures EndAt(answers, clock, deadline, n) == Err(TimedOut()) ==>
              (answers(n).Ok? ==> clock(n) > deadline) &&
              forall i: nat :: i <= n && answers(i).Ok? ==> answers(i).value.refreshToken == ""
    ensures EndAt(answers, clock, deadline, n).Ok? ==>
              EndAt(answers, clock, deadline, n) == answers(n) && answers(n).value.refreshToken != "" &&
              forall i: nat :: i < n ==> answers(i).Ok? && answers(i).value.refreshToken == ""
  {
    forall i: nat | i < n
      ensures answers(i).Ok? && answers(i).value.refreshToken == ""
    {
      assert !Settles(answers, clock, deadline, wait, i);
    }
  }

  /** A loop that times out does so more than 300 seconds after it began, with a login error; and
      when Steam suggests no interval it waits two seconds between polls. */
  lemma TimesOutAfterFiveMinutes(answers: Answers, clock: Clock, started: real, n: nat)
    ensures EndAt(answers, clock, started + AUTH_POLL_TIMEOUT, n) == Err(TimedOut()) && answers(n).Ok? ==> clock(n) > started + 300.0
    ensures TimedOut().LoginError? && BadSleep().OtherFailure?
    ensures Wait(0.0) == 2.0 && forall interval :: interval != 0.0 ==> Wait(interval) == interval
  {
  }

  /** How many of the first n answers brought a challenge URL. */
  function UrlCount(answers: Answers, n: nat): nat {
    if n == 0 then 0
    else UrlCount(answers, n - 1) + if answers(n - 1).Ok? && answers(n - 1).value.newChallengeUrl != "" then 1 else 0
  }

  /** Every challenge URL an answer brings has its place among those surfaced, after the ones
      before it, and nothing else is surfaced. */
  lemma {:induction false} UrlsInPlace(answers: Answers, n: nat, i: nat)
    requires i < n
    ensures |NewUrls(answers, n)| == UrlCount(answers, n) && UrlCount(answers, i) <= UrlCount(answers, n)
    ensures answers(i).Ok? && answers(i).value.newChallengeUrl != "" ==>
              UrlCount(answers, i) < UrlCount(answers, n) && NewUrls(answers, n)[UrlCount(answers, i)] == answers(i).value.newChallengeUrl
  {
    if i < n - 1 {
      UrlsInPlace(answers, n - 1, i);
    } else if n > 1 {
      UrlsInPlace(answers, n - 1, n - 2);
    }
  }

  /** At most one of two ids is the latest: the id each request carries is determined. */
  lemma LatestIdUnique(answers: Answers, clientId: nat, i: nat, a: nat, b: nat)
    requires LatestId(answers, clientId, i, a) && LatestId(answers, clientId, i, b)
    ensures a == b
  {
  }

  /** A clock that advances by exactly wait between polls. */
  function ExactClock(started: real, wait: real): Clock {
    (i: nat) => started + i as real * wait
  }

  function Silent(): Answers {
    (i: nat) => Ok(Response(0, "", ""))
  }

  lemma ExactClockPaced(started: real, wait: real)
    ensures Paced(ExactClock(started, wait), started, wait)
  {
    var clock := ExactClock(started, wait);
    forall i: nat, j: nat | j == i + 1
      ensures clock(i) + wait <= clock(j)
    {
      assert j as real * wait == i as real * wait + wait;
    }
  }

  lemma SilenceSettles(started: real, wait: real, i: nat)
    requires wait > 0.0
    ensures Settles(Silent(), ExactClock(started, wait), started + AUTH_POLL_TIMEOUT, wait, i) <==> i > MostPolls(wait) - 2
  {
    MultiplesFit(i, wait, AUTH_POLL_TIMEOUT);
  }

  /** The bound is reached: when Steam never answers and nothing but sleeping takes time, the
      loop makes floor(300 / wait) + 2 polls. */
  lemma BoundIsReached(started: real, wait: real)
    requires wait > 0.0
    ensures Paced(ExactClock(started, wait), started, wait)
    ensures FirstSettled(Silent(), ExactClock(started, wait), started + AUTH_POLL_TIMEOUT, wait, MostPolls(wait) - 1)
  {
    hide Settles, Paced, ExactClock, MostPolls;
    ExactClockPaced(started, wait);
    var deadline := started + AUTH_POLL_TIMEOUT;
    forall i: nat
      ensures Settles(Silent(), ExactClock(started, wait), deadline, wait, i) <==> i > MostPolls(wait) - 2
    {
      SilenceSettles(started, wait, i);
    }
  }
}
