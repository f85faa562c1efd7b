/** Linking a Steam account (api/steam_accounts.go, api/router.go, cmd/server/main.go): the add
    and delete handlers, the table of link requests, the goroutine that drives each link and
    its terminal callback, guard codes on their way to a link.

    Handlers, goroutines and callbacks interleave at every store access, every access to the
    table of link requests and every broadcast. Account and request ids are fresh. */
module AccountLinks {
  import opened Wrappers
  import opened Messages
  import Crypto
  import Jwt
  import Store

  type bytes = Crypto.bytes
  type AccountId = Store.AccountId
  type UserId = Store.UserId

  /** The cipher, and the JSON readers for a token's claims and exp. */
  datatype Setup = Setup(cipher: Crypto.Cipher, claims: bytes -> Jwt.Claims, exp: bytes -> Option<int>)

  /** The Steam credentials the user gave, empty for a QR link. */
  datatype Login = Login(username: string, password: string)

  /** Both are given, or neither. */
  predicate WellFormed(login: Login) {
    login.username == "" <==> login.password == ""
  }

  /** An AddSteamAccount handler: it has the key; it has created the row; it has recorded the
      request id. */
  datatype Adding =
    | Checked(user: UserId, login: Login, key: bytes)
    | Created(acc: AccountId, login: Login, key: bytes)
    | Recorded(acc: AccountId, r: RequestId, login: Login, key: bytes)

  /** A link goroutine: not yet in the pending table; in it; out of it with an outcome; request
      id forgotten; save attempted; terminal event broadcast. */
  datatype Phase =
    | Spawned
    | Pending
    | Ended(outcome: LinkOutcome)
    | Cleared(outcome: LinkOutcome)
    | Saved(owner: string, wrote: bool)
    | Reported(owner: string, wrote: bool)

  datatype Link = Link(acc: AccountId, login: Login, key: bytes, phase: Phase)

  datatype HubEvent = AccountLinked(acc: AccountId, owner: string) | AccountError(acc: AccountId)

  /** History of an account that was ever created: whose, with which credentials, under which key, its one link request,
      the token the worker returned for it. */
  datatype Made = Made(user: UserId, login: Login, key: bytes, request: Option<RequestId>, token: Option<string>)

  type MadeMap = map<AccountId, Made>
  type Reqs = map<AccountId, RequestId>
  type AddingMap = map<nat, Adding>
  type Links = map<RequestId, Link>

  /** submitting holds the guard-code handlers that have checked the account's owner; codes is
      the history of request ids that guard codes were sent under. */
  datatype State = State(
    rows: Store.Table,
    linkReqs: Reqs,
    adding: AddingMap,
    links: Links,
    submitting: map<nat, AccountId>,
    events: seq<HubEvent>,
    codes: seq<(AccountId, RequestId)>,
    made: MadeMap)

  const EMPTY := State(map[], map[], map[], map[], map[], [], [], map[])

  datatype Step =
    | CheckKey(n: nat, user: UserId, login: Login, key: bytes)
    | CreateRow(n: nat, acc: AccountId)
    | RecordReq(n: nat, r: RequestId)
    | Spawn(n: nat)
    | AddPending(r: RequestId)
    | End(r: RequestId, outcome: LinkOutcome)
    | Clear(r: RequestId)
    | Save(r: RequestId, nonce: bytes, storeFails: bool)
    | Report(r: RequestId)
    | Delete(user: UserId, acc: AccountId)
    | BackfillId(acc: AccountId, steamId: string)
    | CheckOwner(n: nat, user: UserId, acc: AccountId)
    | RouteCode(n: nat)

  function At<K, V>(m: map<K, V>, k: K): Option<V> {
    if k in m then Some(m[k]) else None
  }

  /** The subject of a token whose claims can be read. */
  function Sub(c: Setup, token: string): string {
    match Jwt.SteamIdFromJwt(c.claims, token)
    case Some(id) => id
    case None => ""
  }

  /** The worker reports the subject of the token it returns. */
  predicate OwnerOfToken(c: Setup, outcome: LinkOutcome) {
    outcome.LinkOk? ==> Jwt.SteamIdFromJwt(c.claims, outcome.refreshToken) == Some(outcome.owner)
  }

  ghost predicate Enabled(c: Setup, s: State, a: Step) {
    match a
    case CheckKey(n, _, login, _) => n !in s.adding && WellFormed(login)
    case CreateRow(n, acc) => n in s.adding && s.adding[n].Checked? && acc !in s.made && acc !in s.rows
    case RecordReq(n, r) =>
      n in s.adding && s.adding[n].Created? && r !in s.links && forall a :: a in s.made ==> s.made[a].request != Some(r)
    case Spawn(n) => n in s.adding && s.adding[n].Recorded?
    case AddPending(r) => r in s.links && s.links[r].phase.Spawned?
    case End(r, outcome) => r in s.links && s.links[r].phase.Pending? && OwnerOfToken(c, outcome)
    case Clear(r) => r in s.links && s.links[r].phase.Ended?
    case Save(r, nonce, _) =>
      r in s.links && s.links[r].phase.Cleared? && s.links[r].phase.outcome.LinkOk? && |nonce| == Crypto.NONCE_SIZE
    case Report(r) =>
      r in s.links && (s.links[r].phase.Saved? || (s.links[r].phase.Cleared? && s.links[r].phase.outcome.LinkError?))
    case Delete(_, _) => true
    case BackfillId(acc, steamId) =>
      && acc in s.made && s.made[acc].token.Some? && steamId == Sub(c, s.made[acc].token.value)
      && (acc in s.rows ==> s.rows[acc].token != [])
    case CheckOwner(n, user, acc) => n !in s.submitting && Store.IsRowOf(s.rows, user, acc)
    case RouteCode(n) => n in s.submitting
  }

  // ----- The table of link requests

  /** What the table has been asked to do. */
  datatype ReqOp = SetReq(acc: AccountId, r: RequestId) | ClearReq(acc: AccountId)

  function Apply(reqs: Reqs, op: ReqOp): Reqs {
    match op
    case SetReq(acc, r) => reqs[acc := r]
    case ClearReq(acc) => reqs - {acc}
  }

  function ApplyAll(reqs: Reqs, ops: seq<ReqOp>): Reqs
    decreases |ops|
  {
    if ops == [] then reqs else Apply(ApplyAll(reqs, ops[..|ops| - 1]), ops[|ops| - 1])
  }

  /** Reference answer: the request last set for the account, unless it was cleared since. */
  function LastSet(ops: seq<ReqOp>, acc: AccountId): Option<RequestId>
    decreases |ops|
  {
    if ops == [] then None
    else
      var last := ops[|ops| - 1];
      if last.acc != acc then LastSet(ops[..|ops| - 1], acc)
      else if last.SetReq? then Some(last.r) else None
  }

  lemma {:induction false} TableIsLastSet(ops: seq<ReqOp>, acc: AccountId)
    ensures At(ApplyAll(map[], ops), acc) == LastSet(ops, acc)
    decreases |ops|
  {
    if ops != [] {
      TableIsLastSet(ops[..|ops| - 1], acc);
    }
  }

  lemma ApplyOneMore(reqs: Reqs, ops: seq<ReqOp>, op: ReqOp)
    ensures ApplyAll(reqs, ops + [op]) == Apply(ApplyAll(reqs, ops), op)
  {
    assert (ops + [op])[..|ops|] == ops;
  }

  /** linkReqs under linkMu. `ops` records every change asked for. */
  class LinkRequests {
    var reqs: Reqs
    ghost var ops: seq<ReqOp>

    ghost predicate Valid()
      reads this
    {
      reqs == ApplyAll(map[], ops)
    }

    constructor ()
      ensures Valid() && ops == []
    {
      reqs := map[];
      ops := [];
    }

    method Set(acc: AccountId, r: RequestId)
      requires Valid()
      modifies this
      ensures Valid() && ops == old(ops) + [SetReq(acc, r)]
    {
      ApplyOneMore(map[], ops, SetReq(acc, r));
      reqs := reqs[acc := r];
      ops := ops + [SetReq(acc, r)];
    }

    /** The answer depends on what was asked for, not on how the table came about. */
    method Get(acc: AccountId) returns (r: Option<RequestId>)
      requires Valid()
      ensures r == LastSet(ops, acc)
    {
      TableIsLastSet(ops, acc);
      if acc in reqs {
        return Some(reqs[acc]);
      }
      return None;
    }

    method Clear(acc: AccountId)
      requires Valid()
      modifies this
      ensures Valid() && ops == old(ops) + [ClearReq(acc)]
    {
      ApplyOneMore(map[], ops, ClearReq(acc));
      reqs := reqs - {acc};
      ops := ops + [ClearReq(acc)];
    }
  }

  // ----- The steps

  /** newly inserted, or 409. */
  function RowCreated(s: State, n: nat, acc: AccountId): State
    requires n in s.adding && s.adding[n].Checked? && acc !in s.rows
  {
    var h := s.adding[n];
    match Store.Create(s.rows, acc, h.user, h.login.username)
    case Err(_) => s.(adding := s.adding - {n})
    case Ok(rows) =>
      s.(rows := rows, adding := s.adding[n := Created(acc, h.login, h.key)],
         made := s.made[acc := Made(h.user, h.login, h.key, None, None)])
  }

  function ReqRecorded(s: State, n: nat, r: RequestId): State
    requires n in s.adding && s.adding[n].Created? && s.adding[n].acc in s.made
  {
    var h := s.adding[n];
    s.(linkReqs := Apply(s.linkReqs, SetReq(h.acc, r)),
       adding := s.adding[n := Recorded(h.acc, r, h.login, h.key)],
       made := s.made[h.acc := s.made[h.acc].(request := Some(r))])
  }

  function Moved(s: State, r: RequestId, p: Phase): State
    requires r in s.links
  {
    s.(links := s.links[r := s.links[r].(phase := p)])
  }

  function TokenOf(outcome: LinkOutcome): Option<string> {
    if outcome.LinkOk? then Some(outcome.refreshToken) else None
  }

  function LinkEnded(s: State, r: RequestId, outcome: LinkOutcome): State
    requires r in s.links && s.links[r].acc in s.made
  {
    var acc := s.links[r].acc;
    Moved(s, r, Ended(outcome)).(made := s.made[acc := s.made[acc].(token := TokenOf(outcome))])
  }

  /** persistRefreshToken: encrypt under the captured key, then update the row, if it is there. */
  function LinkSaved(c: Setup, s: State, r: RequestId, nonce: bytes, storeFails: bool): State
    requires r in s.links && s.links[r].phase.Cleared? && s.links[r].phase.outcome.LinkOk? && |nonce| == Crypto.NONCE_SIZE
  {
    var link := s.links[r];
    var (owner, token) := (link.phase.outcome.owner, link.phase.outcome.refreshToken);
    match Crypto.Encrypt(c.cipher, link.key, token, nonce)
    case Err(_) => Moved(s, r, Saved(owner, false))
    case Ok(sealed) =>
      match Store.SaveRefreshToken(s.rows, link.acc, owner, "", sealed.ciphertext, sealed.nonce, Jwt.ExpiryFromJwt(c.exp, token))
      case Err(_) => Moved(s, r, Saved(owner, false))
      case Ok(rows) => if storeFails then Moved(s, r, Saved(owner, false)) else Moved(s, r, Saved(owner, true)).(rows := rows)
  }

  /** What the terminal callback broadcasts. */
  function ReportOf(link: Link): HubEvent
    requires link.phase.Saved? || link.phase.Cleared?
  {
    if link.phase.Saved? && link.phase.wrote then AccountLinked(link.acc, link.phase.owner) else AccountError(link.acc)
  }

  function AfterReport(p: Phase): Phase {
    if p.Saved? && p.wrote then Reported(p.owner, true) else Reported("", false)
  }

  function LinkReported(s: State, r: RequestId): State
    requires r in s.links && (s.links[r].phase.Saved? || s.links[r].phase.Cleared?)
  {
    Moved(s, r, AfterReport(s.links[r].phase)).(events := s.events + [ReportOf(s.links[r])])
  }

  function OrElse<T, E>(r: Result<T, E>, t: T): T {
    match r
    case Ok(v) => v
    case Err(_) => t
  }

  function CodeRouted(s: State, n: nat): State
    requires n in s.submitting
  {
    var acc := s.submitting[n];
    s.(submitting := s.submitting - {n},
       codes := if acc in s.linkReqs then s.codes + [(acc, s.linkReqs[acc])] else s.codes)
  }

  /** Each handler and each link refers to an account that was made. */
  ghost predicate Known(s: State) {
    && (forall n :: n in s.adding && !s.adding[n].Checked? ==> s.adding[n].acc in s.made)
    && (forall r :: r in s.links ==> s.links[r].acc in s.made)
  }

  ghost function Do(c: Setup, s: State, a: Step): State
    requires Known(s) && Enabled(c, s, a)
  {
    match a
    case CheckKey(n, user, login, key) => s.(adding := s.adding[n := Checked(user, login, key)])
    case CreateRow(n, acc) => RowCreated(s, n, acc)
    case RecordReq(n, r) => ReqRecorded(s, n, r)
    case Spawn(n) =>
      var h := s.adding[n];
      s.(adding := s.adding - {n}, links := s.links[h.r := Link(h.acc, h.login, h.key, Spawned)])
    case AddPending(r) => Moved(s, r, Pending)
    case End(r, outcome) => LinkEnded(s, r, outcome)
    case Clear(r) => Moved(s, r, Cleared(s.links[r].phase.outcome)).(linkReqs := Apply(s.linkReqs, ClearReq(s.links[r].acc)))
    case Save(r, nonce, storeFails) => LinkSaved(c, s, r, nonce, storeFails)
    case Report(r) => LinkReported(s, r)
    case Delete(user, acc) => s.(rows := OrElse(Store.Delete(s.rows, user, acc), s.rows))
    case BackfillId(acc, steamId) => s.(rows := OrElse(Store.SetSteamId(s.rows, acc, steamId), s.rows))
    case CheckOwner(n, _, acc) => s.(submitting := s.submitting[n := acc])
    case RouteCode(n) => CodeRouted(s, n)
  }

  ghost predicate Runs(c: Setup, s: State, steps: seq<Step>, t: State)
    decreases |steps|
  {
    if steps == [] then s == t
    else Known(s) && Enabled(c, s, steps[0]) && Runs(c, Do(c, s, steps[0]), steps[1..], t)
  }

  ghost predicate Reachable(c: Setup, s: State) {
    exists steps :: Runs(c, EMPTY, steps, s)
  }

  // ----- The invariant, account by account

  /** The request id is on record. */
  predicate OnRecord(p: Phase) {
    p.Spawned? || p.Pending? || p.Ended?
  }

  predicate Wrote(p: Phase) {
    (p.Saved? || p.Reported?) && p.wrote
  }

  /** The row has no token and no Steam id yet, or holds the returned token sealed under the
      account's key, and its subject. */
  predicate RowOk(c: Setup, row: Store.Row, m: Made) {
    && row.user == m.user && row.username == m.login.username
    && (row.token == [] ==> row.steamId == "" && row.expires == None)
    && (row.token != [] ==>
          && m.token.Some? && |row.nonce| == Crypto.NONCE_SIZE
          && Crypto.Encrypt(c.cipher, m.key, m.token.value, row.nonce) == Ok(Crypto.Sealed(row.token, row.nonce))
          && row.steamId == Sub(c, m.token.value) && row.expires == Jwt.ExpiryFromJwt(c.exp, m.token.value))
  }

  predicate LinkFits(c: Setup, r: RequestId, link: Link, m: Made, row: Option<Store.Row>, req: Option<RequestId>) {
    var p := link.phase;
    && m.request == Some(r) && m.key == link.key && m.login == link.login
    && req == (if OnRecord(p) then Some(r) else None)
    && (p.Spawned? || p.Pending? ==> m.token == None)
    && (p.Ended? || p.Cleared? ==> m.token == TokenOf(p.outcome) && OwnerOfToken(c, p.outcome))
    && (p.Saved? || Wrote(p) ==> m.token.Some? && p.owner == Sub(c, m.token.value))
    && (row.Some? ==> (row.value.token != [] <==> Wrote(p)))
  }

  predicate AddingOk(h: Adding, m: Made, row: Option<Store.Row>, req: Option<RequestId>) {
    && !h.Checked? && m.key == h.key && m.login == h.login && m.token == None
    && m.request == (if h.Recorded? then Some(h.r) else None) && req == m.request
    && (row.Some? ==> row.value.token == [])
  }

  ghost predicate RowsOk(c: Setup, rows: Store.Table, made: MadeMap) {
    Store.OneRowPerUser(rows) && forall a :: a in rows ==> a in made && RowOk(c, rows[a], made[a])
  }

  ghost predicate AddingsOk(s: State) {
    forall n :: n in s.adding && !s.adding[n].Checked? ==>
      var acc := s.adding[n].acc;
      acc in s.made && AddingOk(s.adding[n], s.made[acc], At(s.rows, acc), At(s.linkReqs, acc))
  }

  /** No account is being added twice, and none has a link while it is being added. */
  ghost predicate AddedOnce(adding: AddingMap, links: Links) {
    && (forall n, k :: n in adding && k in adding && n != k && !adding[n].Checked? && !adding[k].Checked? ==>
          adding[n].acc != adding[k].acc)
    && (forall n, r :: n in adding && r in links && !adding[n].Checked? ==> adding[n].acc != links[r].acc)
  }

  ghost predicate LinksOk(c: Setup, s: State) {
    forall r :: r in s.links ==>
      var acc := s.links[r].acc;
      acc in s.made && LinkFits(c, r, s.links[r], s.made[acc], At(s.rows, acc), At(s.linkReqs, acc))
  }

  /** No two accounts share a request. */
  ghost predicate OwnRequests(made: MadeMap) {
    forall a, b :: a in made && b in made && made[a].request.Some? && made[a].request == made[b].request ==> a == b
  }

  /** A request on record belongs to a handler or a link. */
  ghost predicate ReqsOk(linkReqs: Reqs, adding: AddingMap, links: Links) {
    forall a :: a in linkReqs ==>
      || (linkReqs[a] in links && links[linkReqs[a]].acc == a)
      || exists n :: n in adding && adding[n].Recorded? && adding[n].acc == a
  }

  /** The event of a link that has been reported, telling whether the token was stored. */
  predicate EventOk(ev: HubEvent, made: MadeMap, links: Links) {
    && ev.acc in made && made[ev.acc].request.Some?
    && var r := made[ev.acc].request.value;
    && r in links && links[r].acc == ev.acc && links[r].phase.Reported?
    && (ev.AccountLinked? <==> links[r].phase.wrote)
    && (ev.AccountLinked? ==> ev.owner == links[r].phase.owner)
  }

  predicate EventFor(events: seq<HubEvent>, i: int, acc: AccountId) {
    0 <= i < |events| && events[i].acc == acc
  }

  ghost predicate EventsOk(events: seq<HubEvent>, made: MadeMap, links: Links) {
    && (forall i :: 0 <= i < |events| ==> EventOk(events[i], made, links))
    && (forall i, j, acc :: EventFor(events, i, acc) && EventFor(events, j, acc) ==> i == j)
    && (forall r :: r in links && links[r].phase.Reported? ==> exists i :: EventFor(events, i, links[r].acc))
  }

  ghost predicate CodesOk(codes: seq<(AccountId, RequestId)>, made: MadeMap) {
    forall i :: 0 <= i < |codes| ==> codes[i].0 in made && made[codes[i].0].request == Some(codes[i].1)
  }

  ghost predicate Inv(c: Setup, s: State) {
    && RowsOk(c, s.rows, s.made)
    && AddingsOk(s)
    && AddedOnce(s.adding, s.links)
    && LinksOk(c, s)
    && OwnRequests(s.made)
    && ReqsOk(s.linkReqs, s.adding, s.links)
    && EventsOk(s.events, s.made, s.links)
    && CodesOk(s.codes, s.made)
  }

  /** So Known, which Do and Runs ask for, never cuts a run short. */
  lemma InvKnown(c: Setup, s: State)
    requires Inv(c, s)
    ensures Known(s)
  {
    hide RowsOk, AddedOnce, OwnRequests, ReqsOk, EventsOk, CodesOk, LinkFits, AddingOk;
  }

  // ----- Steps touch one account

  /** Outside acc nothing changes. */
  ghost predicate OnlyAt(s: State, t: State, acc: AccountId) {
    && (forall a :: a != acc ==> At(t.rows, a) == At(s.rows, a))
    && (forall a :: a != acc ==> At(t.linkReqs, a) == At(s.linkReqs, a))
    && (forall a :: a != acc ==> At(t.made, a) == At(s.made, a))
  }

  lemma AddingElsewhere(c: Setup, s: State, t: State, acc: AccountId, n: nat)
    requires AddingsOk(s) && OnlyAt(s, t, acc) && n in s.adding && !s.adding[n].Checked? && s.adding[n].acc != acc
    ensures var a := s.adding[n].acc;
            a in t.made && AddingOk(s.adding[n], t.made[a], At(t.rows, a), At(t.linkReqs, a))
  {
    hide AddingOk;
    assert At(t.made, s.adding[n].acc) == At(s.made, s.adding[n].acc);
  }

  lemma LinkElsewhere(c: Setup, s: State, t: State, acc: AccountId, r: RequestId)
    requires LinksOk(c, s) && OnlyAt(s, t, acc) && r in s.links && s.links[r].acc != acc
    ensures var a := s.links[r].acc;
            a in t.made && LinkFits(c, r, s.links[r], t.made[a], At(t.rows, a), At(t.linkReqs, a))
  {
    hide LinkFits;
    assert At(t.made, s.links[r].acc) == At(s.made, s.links[r].acc);
  }

  lemma OneLinkPerAccount(c: Setup, s: State, q: RequestId, r: RequestId)
    requires LinksOk(c, s) && q in s.links && r in s.links && s.links[q].acc == s.links[r].acc
    ensures q == r
  {
    var acc := s.links[r].acc;
    assert LinkFits(c, q, s.links[q], s.made[acc], At(s.rows, acc), At(s.linkReqs, acc));
    assert LinkFits(c, r, s.links[r], s.made[acc], At(s.rows, acc), At(s.linkReqs, acc));
  }

  // ----- Steps of a link

  /** The link r moves on; of what is recorded about its account, at most the token changes. */
  ghost predicate LinkMoves(s: State, t: State, r: RequestId) {
    && r in s.links && s.links[r].acc in s.made
    && r in t.links && t.links == s.links[r := t.links[r]]
    && t.links[r].acc == s.links[r].acc
    && t.adding == s.adding && t.codes == s.codes
    && t.linkReqs.Keys <= s.linkReqs.Keys
    && OnlyAt(s, t, s.links[r].acc)
    && s.links[r].acc in t.made
    && t.made == s.made[s.links[r].acc := t.made[s.links[r].acc]]
    && t.made[s.links[r].acc].request == s.made[s.links[r].acc].request
  }

  lemma LinkMoveKeepsLinks(c: Setup, s: State, t: State, r: RequestId)
    requires LinksOk(c, s) && LinkMoves(s, t, r)
    requires var acc := s.links[r].acc; LinkFits(c, r, t.links[r], t.made[acc], At(t.rows, acc), At(t.linkReqs, acc))
    ensures LinksOk(c, t)
  {
    hide LinkFits;
    forall q | q in t.links
      ensures t.links[q].acc in t.made &&
              LinkFits(c, q, t.links[q], t.made[t.links[q].acc], At(t.rows, t.links[q].acc), At(t.linkReqs, t.links[q].acc))
    {
      if q != r {
        if s.links[q].acc == s.links[r].acc {
          OneLinkPerAccount(c, s, q, r);
        }
        LinkElsewhere(c, s, t, s.links[r].acc, q);
      }
    }
  }

  lemma LinkMoveKeepsAdding(c: Setup, s: State, t: State, r: RequestId)
    requires AddingsOk(s) && AddedOnce(s.adding, s.links) && LinkMoves(s, t, r)
    ensures AddingsOk(t) && AddedOnce(t.adding, t.links)
  {
    hide AddingOk, OnlyAt;
    forall n | n in t.adding && !t.adding[n].Checked?
      ensures t.adding[n].acc in t.made &&
              AddingOk(t.adding[n], t.made[t.adding[n].acc], At(t.rows, t.adding[n].acc), At(t.linkReqs, t.adding[n].acc))
    {
      AddingElsewhere(c, s, t, s.links[r].acc, n);
    }
  }

  lemma LinkMoveKeepsRequests(c: Setup, s: State, t: State, r: RequestId)
    requires OwnRequests(s.made) && ReqsOk(s.linkReqs, s.adding, s.links) && CodesOk(s.codes, s.made) && LinkMoves(s, t, r)
    requires var acc := s.links[r].acc; acc in t.linkReqs ==> t.linkReqs[acc] == r
    ensures OwnRequests(t.made) && ReqsOk(t.linkReqs, t.adding, t.links) && CodesOk(t.codes, t.made)
  {
    forall a | a in t.linkReqs && a != s.links[r].acc
      ensures t.linkReqs[a] == s.linkReqs[a]
    {
      assert At(t.linkReqs, a) == At(s.linkReqs, a);
    }
    hide OnlyAt;
  }

  lemma LinkMoveKeepsEvents(s: State, t: State, r: RequestId)
    requires EventsOk(s.events, s.made, s.links) && LinkMoves(s, t, r) && t.events == s.events
    requires !s.links[r].phase.Reported? && !t.links[r].phase.Reported?
    ensures EventsOk(t.events, t.made, t.links)
  {
    hide OnlyAt, EventFor;
    forall i | 0 <= i < |t.events|
      ensures EventOk(t.events[i], t.made, t.links)
    {
      assert EventOk(s.events[i], s.made, s.links);
    }
  }

  lemma NoEventYet(c: Setup, s: State, r: RequestId, i: int)
    requires LinksOk(c, s) && EventsOk(s.events, s.made, s.links)
    requires r in s.links && !s.links[r].phase.Reported?
    ensures !EventFor(s.events, i, s.links[r].acc)
  {
    hide LinkFits;
    if EventFor(s.events, i, s.links[r].acc) {
      assert EventOk(s.events[i], s.made, s.links);
      OneLinkPerAccount(c, s, s.made[s.links[r].acc].request.value, r);
    }
  }

  lemma ReportKeepsEvents(c: Setup, s: State, t: State, r: RequestId, ev: HubEvent)
    requires LinksOk(c, s) && EventsOk(s.events, s.made, s.links) && LinkMoves(s, t, r)
    requires t.events == s.events + [ev] && ev.acc == s.links[r].acc && t.made == s.made
    requires !s.links[r].phase.Reported? && EventOk(ev, t.made, t.links)
    ensures EventsOk(t.events, t.made, t.links)
  {
    hide OnlyAt, LinksOk;
    var n := |s.events|;
    forall i
      ensures EventFor(t.events, i, ev.acc) <==> i == n
    {
      NoEventYet(c, s, r, i);
      assert i < n ==> (EventFor(t.events, i, ev.acc) <==> EventFor(s.events, i, ev.acc));
    }
    forall i, acc | acc != ev.acc
      ensures EventFor(t.events, i, acc) <==> EventFor(s.events, i, acc)
    {
    }
    forall i | 0 <= i < |t.events|
      ensures EventOk(t.events[i], t.made, t.links)
    {
      if i < n {
        assert EventOk(s.events[i], s.made, s.links) && t.events[i] == s.events[i];
        NoEventYet(c, s, r, i);
        assert EventFor(s.events, i, s.events[i].acc);
      }
    }
    forall q | q in t.links && t.links[q].phase.Reported?
      ensures exists i :: EventFor(t.events, i, t.links[q].acc)
    {
      if t.links[q].acc == ev.acc {
        assert EventFor(t.events, n, t.links[q].acc);
      } else {
        var i :| EventFor(s.events, i, s.links[q].acc);
        assert EventFor(t.events, i, t.links[q].acc);
      }
    }
  }

  /** The row of acc, if it has one, changes with what is recorded about acc; no row appears. */
  lemma RowMoveKeepsRows(c: Setup, s: State, t: State, acc: AccountId)
    requires RowsOk(c, s.rows, s.made) && OnlyAt(s, t, acc) && acc in t.made && t.rows.Keys <= s.rows.Keys
    requires acc in t.rows ==> RowOk(c, t.rows[acc], t.made[acc]) && t.rows[acc].user == s.rows[acc].user
    ensures RowsOk(c, t.rows, t.made)
  {
    hide RowOk;
    forall a | a in t.rows && a != acc
      ensures t.rows[a] == s.rows[a] && a in t.made && t.made[a] == s.made[a]
    {
      assert At(t.rows, a) == At(s.rows, a) && At(t.made, a) == At(s.made, a);
    }
  }

  /** What a step of a link must establish for the whole invariant to survive it. */
  lemma LinkMoveKeepsInv(c: Setup, s: State, t: State, r: RequestId)
    requires Inv(c, s) && LinkMoves(s, t, r)
    requires var acc := s.links[r].acc;
             && LinkFits(c, r, t.links[r], t.made[acc], At(t.rows, acc), At(t.linkReqs, acc))
             && t.rows.Keys <= s.rows.Keys
             && (acc in t.rows ==> RowOk(c, t.rows[acc], t.made[acc]) && t.rows[acc].user == s.rows[acc].user)
    requires EventsOk(t.events, t.made, t.links)
    ensures Inv(c, t)
  {
    var acc := s.links[r].acc;
    assert acc in t.linkReqs ==> t.linkReqs[acc] == r;
    LinkInMade(s, t, r);
    hide RowOk, LinkFits, AddingOk, RowsOk, AddingsOk, AddedOnce, LinksOk, OwnRequests, ReqsOk, EventsOk, CodesOk, LinkMoves, OnlyAt;
    LinkMoveKeepsLinks(c, s, t, r);
    LinkMoveKeepsAdding(c, s, t, r);
    LinkMoveKeepsRequests(c, s, t, r);
    RowMoveKeepsRows(c, s, t, acc);
  }

  lemma LinkInMade(s: State, t: State, r: RequestId)
    requires LinkMoves(s, t, r)
    ensures OnlyAt(s, t, s.links[r].acc) && s.links[r].acc in t.made
  {
    hide OnlyAt;
  }

  /** What the invariant says about one link. */
  lemma LinkView(c: Setup, s: State, r: RequestId)
    requires Inv(c, s) && r in s.links
    ensures var acc := s.links[r].acc;
            && acc in s.made
            && LinkFits(c, r, s.links[r], s.made[acc], At(s.rows, acc), At(s.linkReqs, acc))
            && (acc in s.rows ==> RowOk(c, s.rows[acc], s.made[acc]))
    ensures EventsOk(s.events, s.made, s.links)
  {
    hide RowOk, LinkFits, AddingOk, AddingsOk, AddedOnce, OwnRequests, ReqsOk, EventsOk, CodesOk;
  }

  // ----- Each step of a link

  lemma PhaseStepMoves(c: Setup, s: State, a: Step)
    requires Known(s) && Enabled(c, s, a) && (a.AddPending? || a.Clear?)
    ensures LinkMoves(s, Do(c, s, a), a.r)
  {
    hide Known;
    var t, acc := Do(c, s, a), s.links[a.r].acc;
    assert acc in s.made by { KnownLink(s, a.r); }
    assert t.links == s.links[a.r := t.links[a.r]];
    assert t.made == s.made[acc := t.made[acc]];
  }

  lemma KnownLink(s: State, r: RequestId)
    requires Known(s) && r in s.links
    ensures s.links[r].acc in s.made
  {
  }

  lemma PhaseStepLinkOk(c: Setup, s: State, a: Step)
    requires Known(s) && Enabled(c, s, a) && (a.AddPending? || a.Clear?)
    requires var acc := s.links[a.r].acc;
             acc in s.made && LinkFits(c, a.r, s.links[a.r], s.made[acc], At(s.rows, acc), At(s.linkReqs, acc))
    ensures var t, acc := Do(c, s, a), s.links[a.r].acc;
            && t.made == s.made && t.rows == s.rows && t.events == s.events
            && a.r in t.links && !s.links[a.r].phase.Reported? && !t.links[a.r].phase.Reported?
            && LinkFits(c, a.r, t.links[a.r], t.made[acc], At(t.rows, acc), At(t.linkReqs, acc))
  {
    hide Known;
  }

  lemma PhaseStepKeepsInv(c: Setup, s: State, a: Step)
    requires Inv(c, s) && Known(s) && Enabled(c, s, a) && (a.AddPending? || a.Clear?)
    ensures Inv(c, Do(c, s, a))
  {
    hide Inv, Known, EventsOk, RowOk, LinkFits, LinkMoves, Do;
    LinkView(c, s, a.r);
    PhaseStepMoves(c, s, a);
    PhaseStepLinkOk(c, s, a);
    LinkMoveKeepsEvents(s, Do(c, s, a), a.r);
    LinkMoveKeepsInv(c, s, Do(c, s, a), a.r);
  }

  lemma EndedMoves(s: State, r: RequestId, outcome: LinkOutcome)
    requires r in s.links && s.links[r].acc in s.made
    ensures LinkMoves(s, LinkEnded(s, r, outcome), r)
  {
    var t, acc := LinkEnded(s, r, outcome), s.links[r].acc;
    assert t.links == s.links[r := t.links[r]];
    assert t.made == s.made[acc := t.made[acc]];
  }

  /** A row without a token does not depend on what the worker returned. */
  lemma EndedOk(c: Setup, s: State, r: RequestId, outcome: LinkOutcome)
    requires r in s.links && s.links[r].acc in s.made && s.links[r].phase.Pending? && OwnerOfToken(c, outcome)
    requires var acc := s.links[r].acc;
             && LinkFits(c, r, s.links[r], s.made[acc], At(s.rows, acc), At(s.linkReqs, acc))
             && (acc in s.rows ==> RowOk(c, s.rows[acc], s.made[acc]))
    ensures var t, acc := LinkEnded(s, r, outcome), s.links[r].acc;
            && t.rows == s.rows && t.events == s.events && acc in t.made
            && r in t.links && !t.links[r].phase.Reported?
            && LinkFits(c, r, t.links[r], t.made[acc], At(t.rows, acc), At(t.linkReqs, acc))
            && (acc in t.rows ==> RowOk(c, t.rows[acc], t.made[acc]))
  {
    hide Sub;
  }

  lemma EndKeepsInv(c: Setup, s: State, a: Step)
    requires Inv(c, s) && Known(s) && Enabled(c, s, a) && a.End?
    ensures Inv(c, Do(c, s, a))
  {
    hide Inv, Known, EventsOk, RowOk, LinkFits, LinkMoves, LinkEnded, OwnerOfToken;
    LinkView(c, s, a.r);
    EndedMoves(s, a.r, a.outcome);
    EndedOk(c, s, a.r, a.outcome);
    LinkMoveKeepsEvents(s, Do(c, s, a), a.r);
    LinkMoveKeepsInv(c, s, Do(c, s, a), a.r);
  }

  lemma SavedMoves(c: Setup, s: State, r: RequestId, nonce: bytes, storeFails: bool)
    requires r in s.links && s.links[r].phase.Cleared? && s.links[r].phase.outcome.LinkOk? && |nonce| == Crypto.NONCE_SIZE
    requires s.links[r].acc in s.made
    ensures LinkMoves(s, LinkSaved(c, s, r, nonce, storeFails), r)
  {
    hide Jwt.ExpiryFromJwt, Crypto.Encrypt;
    var t, acc := LinkSaved(c, s, r, nonce, storeFails), s.links[r].acc;
    assert t.links == s.links[r := t.links[r]];
    assert t.made == s.made[acc := t.made[acc]];
  }

  /** The save happens exactly when the key fits, the row is still there and the store works;
      then the row holds the token, sealed. Otherwise no row changes. */
  lemma SavedOk(c: Setup, s: State, r: RequestId, nonce: bytes, storeFails: bool)
    requires Crypto.Lawful(c.cipher)
    requires r in s.links && s.links[r].phase.Cleared? && s.links[r].phase.outcome.LinkOk? && |nonce| == Crypto.NONCE_SIZE
    requires s.links[r].acc in s.made
    requires var acc := s.links[r].acc;
             && LinkFits(c, r, s.links[r], s.made[acc], At(s.rows, acc), At(s.linkReqs, acc))
             && (acc in s.rows ==> RowOk(c, s.rows[acc], s.made[acc]))
    ensures var t, link := LinkSaved(c, s, r, nonce, storeFails), s.links[r];
            var acc, wrote := link.acc, |link.key| == Crypto.KEY_SIZE && link.acc in s.rows && !storeFails;
            && t.events == s.events && t.made == s.made && r in t.links
            && t.links[r].phase == Saved(link.phase.outcome.owner, wrote)
            && LinkFits(c, r, t.links[r], t.made[acc], At(t.rows, acc), At(t.linkReqs, acc))
            && (acc in t.rows ==> RowOk(c, t.rows[acc], t.made[acc]) && t.rows[acc].user == s.rows[acc].user)
            && t.rows.Keys == s.rows.Keys && (!wrote ==> t.rows == s.rows)
  {
    Crypto.DecryptOfEncrypt(c.cipher, s.links[r].key, s.links[r].phase.outcome.refreshToken, nonce);
    hide Jwt.ExpiryFromJwt, Sub, Crypto.Lawful, Crypto.Decrypt;
  }

  lemma SaveKeepsInv(c: Setup, s: State, a: Step)
    requires Crypto.Lawful(c.cipher) && Inv(c, s) && Known(s) && Enabled(c, s, a) && a.Save?
    ensures Inv(c, Do(c, s, a))
  {
    hide Crypto.Lawful, Inv, Known, EventsOk, RowOk, LinkFits, LinkMoves, LinkSaved;
    LinkView(c, s, a.r);
    SavedMoves(c, s, a.r, a.nonce, a.storeFails);
    SavedOk(c, s, a.r, a.nonce, a.storeFails);
    LinkMoveKeepsEvents(s, Do(c, s, a), a.r);
    LinkMoveKeepsInv(c, s, Do(c, s, a), a.r);
  }

  lemma ReportedMoves(s: State, r: RequestId)
    requires r in s.links && (s.links[r].phase.Saved? || s.links[r].phase.Cleared?) && s.links[r].acc in s.made
    ensures LinkMoves(s, LinkReported(s, r), r)
  {
    hide AfterReport, ReportOf;
    var t, acc := LinkReported(s, r), s.links[r].acc;
    assert t.links == s.links[r := t.links[r]];
    assert t.made == s.made[acc := t.made[acc]];
  }

  lemma AfterReportOk(c: Setup, r: RequestId, link: Link, m: Made, row: Option<Store.Row>, req: Option<RequestId>)
    requires link.phase.Saved? || (link.phase.Cleared? && link.phase.outcome.LinkError?)
    requires LinkFits(c, r, link, m, row, req)
    ensures LinkFits(c, r, link.(phase := AfterReport(link.phase)), m, row, req) && m.request == Some(r)
  {
    hide Sub;
  }

  lemma ReportFits(link: Link, r: RequestId, m: MadeMap, links: Links)
    requires (link.phase.Saved? || link.phase.Cleared?) && link.acc in m && m[link.acc].request == Some(r)
    requires r in links && links[r] == link.(phase := AfterReport(link.phase))
    ensures EventOk(ReportOf(link), m, links)
  {
  }

  lemma ReportedOk(c: Setup, s: State, r: RequestId)
    requires r in s.links && (s.links[r].phase.Saved? || (s.links[r].phase.Cleared? && s.links[r].phase.outcome.LinkError?))
    requires s.links[r].acc in s.made
    requires var acc := s.links[r].acc;
             && LinkFits(c, r, s.links[r], s.made[acc], At(s.rows, acc), At(s.linkReqs, acc))
    ensures var t, acc := LinkReported(s, r), s.links[r].acc;
            && t.rows == s.rows && t.made == s.made && r in t.links
            && t.events == s.events + [ReportOf(s.links[r])] && EventOk(ReportOf(s.links[r]), t.made, t.links)
            && LinkFits(c, r, t.links[r], t.made[acc], At(t.rows, acc), At(t.linkReqs, acc))
  {
    hide LinkFits, AfterReport, ReportOf, EventOk, At;
    var acc := s.links[r].acc;
    AfterReportOk(c, r, s.links[r], s.made[acc], At(s.rows, acc), At(s.linkReqs, acc));
    ReportFits(s.links[r], r, s.made, LinkReported(s, r).links);
  }

  lemma ReportKeepsInv(c: Setup, s: State, a: Step)
    requires Inv(c, s) && Known(s) && Enabled(c, s, a) && a.Report?
    ensures Inv(c, Do(c, s, a))
  {
    hide Known, EventsOk, RowOk, LinkFits, LinkMoves, LinkReported, ReportOf, EventOk, RowsOk, AddingsOk, AddedOnce,
         OwnRequests, ReqsOk, CodesOk, LinksOk;
    LinkView(c, s, a.r);
    ReportedMoves(s, a.r);
    ReportedOk(c, s, a.r);
    ReportNames(s.links[a.r]);
    ReportKeepsEvents(c, s, Do(c, s, a), a.r, ReportOf(s.links[a.r]));
    LinkMoveKeepsInv(c, s, Do(c, s, a), a.r);
  }

  lemma ReportNames(link: Link)
    requires link.phase.Saved? || link.phase.Cleared?
    ensures ReportOf(link).acc == link.acc && !link.phase.Reported?
  {
  }

  // ----- Steps of an add handler

  lemma CheckKeyKeepsInv(c: Setup, s: State, a: Step)
    requires Inv(c, s) && Known(s) && Enabled(c, s, a) && a.CheckKey?
    ensures Inv(c, Do(c, s, a))
  {
    hide Known, RowsOk, LinkFits, AddingOk, OwnRequests, EventsOk, CodesOk;
    var t := Do(c, s, a);
    assert t.rows == s.rows && t.linkReqs == s.linkReqs && t.made == s.made && t.links == s.links;
    assert forall n :: n in t.adding && !t.adding[n].Checked? ==> n in s.adding && t.adding[n] == s.adding[n];
    forall n | n in s.adding && s.adding[n].Recorded?
      ensures n in t.adding && t.adding[n] == s.adding[n]
    {
    }
  }

  lemma RefusedKeepsInv(c: Setup, s: State, n: nat)
    requires Inv(c, s) && n in s.adding && s.adding[n].Checked?
    ensures Inv(c, s.(adding := s.adding - {n}))
  {
    hide Known, RowsOk, LinkFits, AddingOk, OwnRequests, EventsOk, CodesOk;
    var t := s.(adding := s.adding - {n});
    assert t.rows == s.rows && t.linkReqs == s.linkReqs && t.made == s.made && t.links == s.links;
    assert forall k :: k in t.adding ==> k in s.adding && t.adding[k] == s.adding[k];
    forall k | k in s.adding && s.adding[k].Recorded?
      ensures k in t.adding && t.adding[k] == s.adding[k]
    {
    }
  }

  /** A fresh account is nobody's yet. */
  lemma FreshAccount(c: Setup, s: State, acc: AccountId)
    requires Inv(c, s) && acc !in s.made
    ensures acc !in s.linkReqs
    ensures forall n :: n in s.adding && !s.adding[n].Checked? ==> s.adding[n].acc != acc
    ensures forall r :: r in s.links ==> s.links[r].acc != acc
    ensures forall i :: 0 <= i < |s.events| ==> s.events[i].acc != acc
    ensures forall i :: 0 <= i < |s.codes| ==> s.codes[i].0 != acc
  {
    hide RowsOk, LinkFits, AddingOk, OwnRequests, EventFor;
  }

  /** The handler n moves on with its account. */
  ghost predicate AddingMoves(s: State, t: State, n: nat, acc: AccountId) {
    && n in s.adding && n in t.adding && !t.adding[n].Checked? && t.adding[n].acc == acc
    && t.adding == s.adding[n := t.adding[n]]
    && t.links == s.links && t.events == s.events && t.codes == s.codes
    && OnlyAt(s, t, acc) && acc in t.made
    && (forall k :: k in s.adding && k != n && !s.adding[k].Checked? ==> s.adding[k].acc != acc)
    && (forall r :: r in s.links ==> s.links[r].acc != acc)
  }

  lemma AddingMoveKeepsParts(c: Setup, s: State, t: State, n: nat, acc: AccountId)
    requires AddingMoves(s, t, n, acc) && AddingsOk(s) && AddedOnce(s.adding, s.links) && LinksOk(c, s)
    requires AddingOk(t.adding[n], t.made[acc], At(t.rows, acc), At(t.linkReqs, acc))
    ensures AddingsOk(t) && AddedOnce(t.adding, t.links) && LinksOk(c, t)
  {
    hide LinkFits, AddingOk, OnlyAt;
    forall k | k in t.adding && k != n && !t.adding[k].Checked?
      ensures t.adding[k].acc in t.made &&
              AddingOk(t.adding[k], t.made[t.adding[k].acc], At(t.rows, t.adding[k].acc), At(t.linkReqs, t.adding[k].acc))
    {
      AddingElsewhere(c, s, t, acc, k);
    }
    forall r | r in t.links
      ensures t.links[r].acc in t.made &&
              LinkFits(c, r, t.links[r], t.made[t.links[r].acc], At(t.rows, t.links[r].acc), At(t.linkReqs, t.links[r].acc))
    {
      LinkElsewhere(c, s, t, acc, r);
    }
  }

  lemma AddingMoveKeepsReports(s: State, t: State, n: nat, acc: AccountId)
    requires AddingMoves(s, t, n, acc) && EventsOk(s.events, s.made, s.links) && CodesOk(s.codes, s.made)
    requires forall i :: 0 <= i < |s.codes| ==> s.codes[i].0 != acc
    ensures EventsOk(t.events, t.made, t.links) && CodesOk(t.codes, t.made)
  {
    hide EventFor;
    forall i | 0 <= i < |s.events|
      ensures EventOk(t.events[i], t.made, t.links)
    {
      assert EventOk(s.events[i], s.made, s.links) && s.events[i].acc != acc;
      assert At(t.made, s.events[i].acc) == At(s.made, s.events[i].acc);
    }
    forall i | 0 <= i < |s.codes|
      ensures s.codes[i].0 in t.made && t.made[s.codes[i].0] == s.made[s.codes[i].0]
    {
      assert At(t.made, s.codes[i].0) == At(s.made, s.codes[i].0);
    }
  }

  lemma AddingMoveKeepsReqs(s: State, t: State, n: nat, acc: AccountId)
    requires AddingMoves(s, t, n, acc) && ReqsOk(s.linkReqs, s.adding, s.links)
    requires acc in t.linkReqs ==> t.adding[n].Recorded?
    requires s.adding[n].Checked? || s.adding[n].acc == acc
    ensures ReqsOk(t.linkReqs, t.adding, t.links)
  {
    forall a | a in t.linkReqs && a != acc
      ensures (t.linkReqs[a] in t.links && t.links[t.linkReqs[a]].acc == a)
           || exists k :: k in t.adding && t.adding[k].Recorded? && t.adding[k].acc == a
    {
      assert At(t.linkReqs, a) == At(s.linkReqs, a);
      if k :| k in s.adding && s.adding[k].Recorded? && s.adding[k].acc == a {
        assert k in t.adding && t.adding[k] == s.adding[k];
      }
    }
    hide OnlyAt;
  }

  lemma CreatedMoves(s: State, n: nat, acc: AccountId, rows: Store.Table)
    requires n in s.adding && s.adding[n].Checked? && acc !in s.rows && acc !in s.made
    requires Store.Create(s.rows, acc, s.adding[n].user, s.adding[n].login.username) == Ok(rows)
    requires forall k :: k in s.adding && !s.adding[k].Checked? ==> s.adding[k].acc != acc
    requires forall r :: r in s.links ==> s.links[r].acc != acc
    ensures var t := RowCreated(s, n, acc);
            && AddingMoves(s, t, n, acc) && t.linkReqs == s.linkReqs && t.rows == rows
            && t.adding[n] == Created(acc, s.adding[n].login, s.adding[n].key)
            && t.made == s.made[acc := Made(s.adding[n].user, s.adding[n].login, s.adding[n].key, None, None)]
            && acc in t.rows && t.rows[acc].user == s.adding[n].user && t.rows[acc].token == [] && t.rows[acc].steamId == ""
  {
  }

  lemma CreatedKeepsRows(c: Setup, s: State, n: nat, acc: AccountId, rows: Store.Table, m: Made)
    requires RowsOk(c, s.rows, s.made) && n in s.adding && s.adding[n].Checked? && acc !in s.rows && acc !in s.made
    requires Store.Create(s.rows, acc, s.adding[n].user, s.adding[n].login.username) == Ok(rows)
    requires RowOk(c, Store.Row(s.adding[n].user, "", s.adding[n].login.username, [], [], None), m)
    ensures RowsOk(c, rows, s.made[acc := m])
  {
    Store.CreateKeepsOneRow(s.rows, acc, s.adding[n].user, s.adding[n].login.username);
    hide RowOk, Store.OneRowPerUser;
  }

  lemma NewRequests(made: MadeMap, acc: AccountId, m: Made)
    requires OwnRequests(made)
    requires m.request.Some? ==> forall a :: a in made ==> made[a].request != m.request
    ensures OwnRequests(made[acc := m])
  {
  }

  lemma CreateRowKeepsInv(c: Setup, s: State, a: Step)
    requires Inv(c, s) && Known(s) && Enabled(c, s, a) && a.CreateRow?
    ensures Inv(c, Do(c, s, a))
  {
    hide Known, RowsOk, RowOk, AddingsOk, AddedOnce, LinksOk, OwnRequests, ReqsOk, EventsOk, CodesOk, RowCreated, AddingMoves, Store.Create;
    var h, acc := s.adding[a.n], a.acc;
    FreshAccount(c, s, acc);
    match Store.Create(s.rows, acc, h.user, h.login.username) {
      case Err(_) =>
        RefusedKeepsInv(c, s, a.n);
        RowRefused(s, a.n, acc);
      case Ok(rows) =>
        var m := Made(h.user, h.login, h.key, None, None);
        var t := RowCreated(s, a.n, acc);
        CreatedMoves(s, a.n, acc, rows);
        NewRowOk(c, h.user, h.login.username, m);
        CreatedKeepsRows(c, s, a.n, acc, rows, m);
        AddingMoveKeepsParts(c, s, t, a.n, acc);
        AddingMoveKeepsReports(s, t, a.n, acc);
        AddingMoveKeepsReqs(s, t, a.n, acc);
        NewRequests(s.made, acc, m);
    }
  }

  lemma NewRowOk(c: Setup, user: UserId, username: string, m: Made)
    requires m.user == user && m.login.username == username
    ensures RowOk(c, Store.Row(user, "", username, [], [], None), m)
  {
  }

  lemma RowRefused(s: State, n: nat, acc: AccountId)
    requires n in s.adding && s.adding[n].Checked? && acc !in s.rows
    requires Store.Create(s.rows, acc, s.adding[n].user, s.adding[n].login.username).Err?
    ensures RowCreated(s, n, acc) == s.(adding := s.adding - {n})
  {
  }

  /** What the invariant says about one handler that has made its account. */
  lemma AddingView(c: Setup, s: State, n: nat)
    requires Inv(c, s) && n in s.adding && !s.adding[n].Checked?
    ensures var acc := s.adding[n].acc;
            && acc in s.made
            && AddingOk(s.adding[n], s.made[acc], At(s.rows, acc), At(s.linkReqs, acc))
            && (acc in s.rows ==> RowOk(c, s.rows[acc], s.made[acc]))
            && (forall k :: k in s.adding && k != n && !s.adding[k].Checked? ==> s.adding[k].acc != acc)
            && (forall r :: r in s.links ==> s.links[r].acc != acc)
  {
    hide AddingOk, RowOk, LinksOk, OwnRequests, ReqsOk, EventsOk, CodesOk;
  }

  lemma RecordedMoves(s: State, n: nat, r: RequestId)
    requires n in s.adding && s.adding[n].Created? && s.adding[n].acc in s.made
    requires var acc := s.adding[n].acc;
             && (forall k :: k in s.adding && k != n && !s.adding[k].Checked? ==> s.adding[k].acc != acc)
             && (forall q :: q in s.links ==> s.links[q].acc != acc)
             && AddingOk(s.adding[n], s.made[acc], At(s.rows, acc), At(s.linkReqs, acc))
    ensures var t, acc := ReqRecorded(s, n, r), s.adding[n].acc;
            && AddingMoves(s, t, n, acc) && t.rows == s.rows && t.adding[n].Recorded?
            && t.made == s.made[acc := s.made[acc].(request := Some(r))]
            && AddingOk(t.adding[n], t.made[acc], At(t.rows, acc), At(t.linkReqs, acc))
  {
  }

  lemma CodesHaveRequests(s: State, acc: AccountId)
    requires CodesOk(s.codes, s.made) && acc in s.made && s.made[acc].request == None
    ensures forall i :: 0 <= i < |s.codes| ==> s.codes[i].0 != acc
  {
  }

  lemma SameRowsOk(c: Setup, rows: Store.Table, made: MadeMap, acc: AccountId, m: Made)
    requires RowsOk(c, rows, made) && acc in made && m == made[acc].(request := m.request)
    ensures RowsOk(c, rows, made[acc := m])
  {
    forall a | a in rows
      ensures RowOk(c, rows[a], made[acc := m][a])
    {
      assert RowOk(c, rows[a], made[a]);
    }
    hide Store.OneRowPerUser;
  }

  lemma RecordReqKeepsInv(c: Setup, s: State, a: Step)
    requires Inv(c, s) && Known(s) && Enabled(c, s, a) && a.RecordReq?
    ensures Inv(c, Do(c, s, a))
  {
    hide Known, RowsOk, RowOk, AddingsOk, AddedOnce, LinksOk, OwnRequests, ReqsOk, EventsOk, CodesOk, ReqRecorded, AddingMoves;
    var acc := s.adding[a.n].acc;
    var t := Do(c, s, a);
    AddingView(c, s, a.n);
    RecordedMoves(s, a.n, a.r);
    CodesHaveRequests(s, acc);
    SameRowsOk(c, s.rows, s.made, acc, s.made[acc].(request := Some(a.r)));
    AddingMoveKeepsParts(c, s, t, a.n, acc);
    AddingMoveKeepsReports(s, t, a.n, acc);
    AddingMoveKeepsReqs(s, t, a.n, acc);
    NewRequests(s.made, acc, s.made[acc].(request := Some(a.r)));
  }

  /** The request of an account being added has no link yet. */
  lemma RequestUnused(c: Setup, s: State, n: nat)
    requires Inv(c, s) && n in s.adding && s.adding[n].Recorded?
    ensures s.adding[n].r !in s.links
  {
    hide RowsOk, RowOk, AddingsOk, AddedOnce, LinksOk, ReqsOk, EventsOk, CodesOk;
    AddingView(c, s, n);
    if s.adding[n].r in s.links {
      LinkView(c, s, s.adding[n].r);
    }
  }

  lemma SpawnKeepsLinks(c: Setup, s: State, n: nat, r: RequestId, link: Link)
    requires AddingsOk(s) && AddedOnce(s.adding, s.links) && LinksOk(c, s)
    requires n in s.adding && s.adding[n].Recorded? && r !in s.links && link.acc == s.adding[n].acc && link.acc in s.made
    requires LinkFits(c, r, link, s.made[link.acc], At(s.rows, link.acc), At(s.linkReqs, link.acc))
    ensures var t := s.(adding := s.adding - {n}, links := s.links[r := link]);
            AddingsOk(t) && AddedOnce(t.adding, t.links) && LinksOk(c, t)
  {
    hide LinkFits, AddingOk;
  }

  lemma SpawnKeepsReports(s: State, n: nat, r: RequestId, link: Link)
    requires ReqsOk(s.linkReqs, s.adding, s.links) && EventsOk(s.events, s.made, s.links)
    requires n in s.adding && s.adding[n].Recorded? && r !in s.links && link.acc == s.adding[n].acc && !link.phase.Reported?
    requires link.acc in s.linkReqs && s.linkReqs[link.acc] == r
    ensures ReqsOk(s.linkReqs, s.adding - {n}, s.links[r := link]) && EventsOk(s.events, s.made, s.links[r := link])
  {
    hide EventFor;
    var adding, links := s.adding - {n}, s.links[r := link];
    forall a | a in s.linkReqs
      ensures (s.linkReqs[a] in links && links[s.linkReqs[a]].acc == a)
           || exists k :: k in adding && adding[k].Recorded? && adding[k].acc == a
    {
      if k :| k in s.adding && s.adding[k].Recorded? && s.adding[k].acc == a {
        if k != n {
          assert k in adding && adding[k] == s.adding[k];
        }
      }
    }
    forall i | 0 <= i < |s.events|
      ensures EventOk(s.events[i], s.made, links)
    {
      assert EventOk(s.events[i], s.made, s.links);
    }
  }

  lemma SpawnedOk(c: Setup, h: Adding, m: Made, row: Option<Store.Row>, req: Option<RequestId>)
    requires h.Recorded? && AddingOk(h, m, row, req)
    ensures LinkFits(c, h.r, Link(h.acc, h.login, h.key, Spawned), m, row, req) && req == Some(h.r)
  {
  }

  lemma SpawnKeepsInv(c: Setup, s: State, a: Step)
    requires Inv(c, s) && Known(s) && Enabled(c, s, a) && a.Spawn?
    ensures Inv(c, Do(c, s, a))
  {
    hide Known, RowsOk, RowOk, AddingsOk, AddedOnce, LinksOk, OwnRequests, ReqsOk, EventsOk, CodesOk, AddingOk, LinkFits;
    var h := s.adding[a.n];
    var link := Link(h.acc, h.login, h.key, Spawned);
    AddingView(c, s, a.n);
    RequestUnused(c, s, a.n);
    SpawnedOk(c, h, s.made[h.acc], At(s.rows, h.acc), At(s.linkReqs, h.acc));
    SpawnKeepsLinks(c, s, a.n, h.r, link);
    SpawnKeepsReports(s, a.n, h.r, link);
  }

  // ----- Deleting, backfilling, guard codes

  lemma DeletedRow(c: Setup, s: State, user: UserId, acc: AccountId)
    requires RowsOk(c, s.rows, s.made) && Store.Delete(s.rows, user, acc).Ok?
    ensures var rows := Store.Delete(s.rows, user, acc).value;
            && RowsOk(c, rows, s.made) && acc in s.made
            && (forall a :: a != acc ==> At(rows, a) == At(s.rows, a)) && At(rows, acc) == None
  {
    hide RowOk;
  }

  lemma RowGoneKeepsParts(c: Setup, s: State, t: State, acc: AccountId)
    requires AddingsOk(s) && LinksOk(c, s) && t == s.(rows := t.rows)
    requires (forall a :: a != acc ==> At(t.rows, a) == At(s.rows, a)) && At(t.rows, acc) == None
    ensures AddingsOk(t) && LinksOk(c, t)
  {
    hide At, OwnerOfToken, Sub;
  }

  lemma DeleteKeepsInv(c: Setup, s: State, a: Step)
    requires Inv(c, s) && Known(s) && Enabled(c, s, a) && a.Delete?
    ensures Inv(c, Do(c, s, a))
  {
    hide Known, RowsOk, RowOk, AddingsOk, AddedOnce, LinksOk, OwnRequests, ReqsOk, EventsOk, CodesOk, Store.Delete;
    var deleted := Store.Delete(s.rows, a.user, a.acc);
    if deleted.Ok? {
      DeletedRow(c, s, a.user, a.acc);
      RowGoneKeepsParts(c, s, Do(c, s, a), a.acc);
    }
  }

  /** The steam_id a backfill writes is the one already there. */
  lemma BackfillChangesNothing(c: Setup, s: State, a: Step)
    requires Inv(c, s) && Known(s) && Enabled(c, s, a) && a.BackfillId?
    ensures Do(c, s, a) == s
  {
    hide Known, AddingsOk, AddedOnce, LinksOk, OwnRequests, ReqsOk, EventsOk, CodesOk, Sub;
    if a.acc in s.rows {
      assert RowOk(c, s.rows[a.acc], s.made[a.acc]);
      assert s.rows[a.acc := s.rows[a.acc].(steamId := a.steamId)] == s.rows;
    }
  }

  lemma CodesGrow(codes: seq<(AccountId, RequestId)>, made: MadeMap, acc: AccountId, r: RequestId)
    requires CodesOk(codes, made) && acc in made && made[acc].request == Some(r)
    ensures CodesOk(codes + [(acc, r)], made)
  {
  }

  lemma GuardStepKeepsInv(c: Setup, s: State, a: Step)
    requires Inv(c, s) && Known(s) && Enabled(c, s, a) && (a.CheckOwner? || a.RouteCode?)
    ensures Inv(c, Do(c, s, a))
  {
    if a.RouteCode? && s.submitting[a.n] in s.linkReqs {
      var acc := s.submitting[a.n];
      RecordedRequest(c, s, acc);
      CodesGrow(s.codes, s.made, acc, s.linkReqs[acc]);
    }
    hide Known, RowsOk, RowOk, AddedOnce, OwnRequests, EventsOk, LinkFits, AddingOk, LinksOk, ReqsOk, CodesOk;
  }

  /** A request on record is the one made for the account. */
  lemma RecordedRequest(c: Setup, s: State, acc: AccountId)
    requires Inv(c, s) && acc in s.linkReqs
    ensures acc in s.made && s.made[acc].request == Some(s.linkReqs[acc])
  {
    hide RowsOk, RowOk, AddedOnce, OwnRequests, EventsOk, CodesOk, Sub;
    var r := s.linkReqs[acc];
    if r in s.links && s.links[r].acc == acc {
      assert LinkFits(c, r, s.links[r], s.made[acc], At(s.rows, acc), At(s.linkReqs, acc));
    } else {
      var n :| n in s.adding && s.adding[n].Recorded? && s.adding[n].acc == acc;
      assert AddingOk(s.adding[n], s.made[acc], At(s.rows, acc), At(s.linkReqs, acc));
    }
  }

  // ----- Every step

  lemma StepKeepsInv(c: Setup, s: State, a: Step)
    requires Crypto.Lawful(c.cipher) && Inv(c, s) && Known(s) && Enabled(c, s, a)
    ensures Inv(c, Do(c, s, a))
  {
    hide Inv, Do, Known, Enabled, Crypto.Lawful;
    match a {
      case CheckKey(_, _, _, _) => CheckKeyKeepsInv(c, s, a);
      case CreateRow(_, _) => CreateRowKeepsInv(c, s, a);
      case RecordReq(_, _) => RecordReqKeepsInv(c, s, a);
      case Spawn(_) => SpawnKeepsInv(c, s, a);
      case AddPending(_) => PhaseStepKeepsInv(c, s, a);
      case End(_, _) => EndKeepsInv(c, s, a);
      case Clear(_) => PhaseStepKeepsInv(c, s, a);
      case Save(_, _, _) => SaveKeepsInv(c, s, a);
      case Report(_) => ReportKeepsInv(c, s, a);
      case Delete(_, _) => DeleteKeepsInv(c, s, a);
      case BackfillId(_, _) => BackfillChangesNothing(c, s, a);
      case CheckOwner(_, _, _) => GuardStepKeepsInv(c, s, a);
      case RouteCode(_) => GuardStepKeepsInv(c, s, a);
    }
  }

  lemma EmptyInv(c: Setup)
    ensures Inv(c, EMPTY)
  {
  }

  lemma {:induction false} RunKeepsInv(c: Setup, s: State, steps: seq<Step>, t: State)
    requires Crypto.Lawful(c.cipher) && Inv(c, s) && Runs(c, s, steps, t)
    ensures Inv(c, t)
    decreases |steps|
  {
    hide Inv, Do, Known, Enabled, Crypto.Lawful;
    if steps != [] {
      StepKeepsInv(c, s, steps[0]);
      RunKeepsInv(c, Do(c, s, steps[0]), steps[1..], t);
    }
  }

  lemma ReachableInv(c: Setup, s: State)
    requires Crypto.Lawful(c.cipher) && Reachable(c, s)
    ensures Inv(c, s)
  {
    hide Inv, Crypto.Lawful;
    var steps :| Runs(c, EMPTY, steps, s);
    EmptyInv(c);
    RunKeepsInv(c, EMPTY, steps, s);
  }

  // ----- What holds in every run

  /** The event names the subject of the token returned for its account. */
  predicate IsOwner(c: Setup, made: MadeMap, ev: HubEvent) {
    && ev.AccountLinked? && ev.acc in made && made[ev.acc].token.Some?
    && ev.owner == Sub(c, made[ev.acc].token.value)
  }

  /** Each link that has finished broadcast exactly one terminal event for its account, which
      says the account is linked exactly when its token was stored, and as whose; a link that has
      not finished broadcast none. */
  lemma OneTerminalEvent(c: Setup, s: State, r: RequestId)
    requires Crypto.Lawful(c.cipher) && Reachable(c, s) && r in s.links
    ensures !s.links[r].phase.Reported? ==> forall i :: !EventFor(s.events, i, s.links[r].acc)
    ensures s.links[r].phase.Reported? ==>
              exists i :: && EventFor(s.events, i, s.links[r].acc)
                          && (s.events[i].AccountLinked? <==> s.links[r].phase.wrote)
                          && (s.events[i].AccountLinked? ==> IsOwner(c, s.made, s.events[i]))
                          && forall j :: EventFor(s.events, j, s.links[r].acc) ==> j == i
  {
    hide Inv, Reachable, Crypto.Lawful, EventFor;
    ReachableInv(c, s);
    InvReports(c, s);
    hide LinksOk;
    var acc := s.links[r].acc;
    if s.links[r].phase.Reported? {
      var i :| EventFor(s.events, i, acc);
      EventIs(s, i, acc);
      OneLinkPerAccount(c, s, s.made[acc].request.value, r);
      EventOwner(c, s, r, s.events[i]);
    } else {
      forall i ensures !EventFor(s.events, i, acc) { NoEventYet(c, s, r, i); }
    }
  }

  lemma EventOwner(c: Setup, s: State, r: RequestId, ev: HubEvent)
    requires Inv(c, s) && r in s.links && EventOk(ev, s.made, s.links) && ev.acc == s.links[r].acc && s.links[r].phase.Reported?
    requires s.made[ev.acc].request == Some(r)
    ensures ev.AccountLinked? ==> IsOwner(c, s.made, ev)
  {
    hide Inv;
    LinkView(c, s, r);
    hide RowOk, EventsOk, Sub;
  }

  lemma EventIs(s: State, i: int, acc: AccountId)
    requires EventsOk(s.events, s.made, s.links) && EventFor(s.events, i, acc)
    ensures 0 <= i < |s.events| && EventOk(s.events[i], s.made, s.links) && s.events[i].acc == acc
  {
    hide EventOk;
  }

  lemma InvReports(c: Setup, s: State)
    requires Inv(c, s)
    ensures LinksOk(c, s) && EventsOk(s.events, s.made, s.links) && CodesOk(s.codes, s.made) && RowsOk(c, s.rows, s.made)
  {
    hide RowsOk, AddingsOk, AddedOnce, LinksOk, OwnRequests, ReqsOk, EventsOk, CodesOk;
  }

  /** Persisting succeeds exactly when the key fits, the account still has its row and the store
      does not fail; then that row alone changes and its token opens to what the worker returned.
      Otherwise no row changes, whatever other account the user has by now. */
  lemma SaveOutcome(c: Setup, s: State, a: Step)
    requires Crypto.Lawful(c.cipher) && Reachable(c, s) && Known(s) && Enabled(c, s, a) && a.Save?
    ensures var t, link := Do(c, s, a), s.links[a.r];
            var wrote := |link.key| == Crypto.KEY_SIZE && link.acc in s.rows && !a.storeFails;
            && a.r in t.links && t.links[a.r].phase == Saved(link.phase.outcome.owner, wrote)
            && (!wrote ==> t.rows == s.rows)
            && (wrote ==> && Store.ChangesOnly(s.rows, t.rows, link.acc)
                          && s.rows[link.acc].token == []
                          && Crypto.Decrypt(c.cipher, link.key, t.rows[link.acc].token, t.rows[link.acc].nonce)
                             == Ok(link.phase.outcome.refreshToken)
                          && t.rows[link.acc].steamId == link.phase.outcome.owner && t.rows[link.acc].nonce == a.nonce
                          && t.rows[link.acc].expires == Jwt.ExpiryFromJwt(c.exp, link.phase.outcome.refreshToken))
  {
    hide Inv, Reachable, Crypto.Lawful, Known, LinkSaved, RowOk, LinkFits, Store.ChangesOnly, Crypto.Decrypt;
    ReachableInv(c, s);
    LinkView(c, s, a.r);
    SavedOk(c, s, a.r, a.nonce, a.storeFails);
    if |s.links[a.r].key| == Crypto.KEY_SIZE && s.links[a.r].acc in s.rows && !a.storeFails {
      SavedRow(c, s, a.r, a.nonce, a.storeFails);
    }
  }

  lemma SavedRow(c: Setup, s: State, r: RequestId, nonce: bytes, storeFails: bool)
    requires Crypto.Lawful(c.cipher)
    requires r in s.links && s.links[r].phase.Cleared? && s.links[r].phase.outcome.LinkOk? && |nonce| == Crypto.NONCE_SIZE
    requires |s.links[r].key| == Crypto.KEY_SIZE && s.links[r].acc in s.rows && !storeFails && s.links[r].acc in s.made
    requires var acc := s.links[r].acc; LinkFits(c, r, s.links[r], s.made[acc], At(s.rows, acc), At(s.linkReqs, acc))
    ensures var t, link := LinkSaved(c, s, r, nonce, storeFails), s.links[r];
            && Store.ChangesOnly(s.rows, t.rows, link.acc) && s.rows[link.acc].token == []
            && Crypto.Decrypt(c.cipher, link.key, t.rows[link.acc].token, t.rows[link.acc].nonce) == Ok(link.phase.outcome.refreshToken)
            && t.rows[link.acc].steamId == link.phase.outcome.owner && t.rows[link.acc].nonce == nonce
            && t.rows[link.acc].expires == Jwt.ExpiryFromJwt(c.exp, link.phase.outcome.refreshToken)
  {
    Crypto.DecryptOfEncrypt(c.cipher, s.links[r].key, s.links[r].phase.outcome.refreshToken, nonce);
    hide Jwt.ExpiryFromJwt, Sub, Crypto.Lawful, Crypto.Decrypt;
  }

  /** A link's request id is on record from before the worker is asked until its terminal
      callback starts, so a guard code can be routed throughout, and is gone from then on. */
  lemma RequestOnRecord(c: Setup, s: State, r: RequestId)
    requires Crypto.Lawful(c.cipher) && Reachable(c, s) && r in s.links
    ensures var p := s.links[r].phase;
            if p.Spawned? || p.Pending? || p.Ended? then s.links[r].acc in s.linkReqs && s.linkReqs[s.links[r].acc] == r
            else s.links[r].acc !in s.linkReqs
  {
    hide Inv, Reachable, Crypto.Lawful;
    ReachableInv(c, s);
    LinkView(c, s, r);
    hide RowOk, Sub, EventsOk;
  }

  /** A guard code submitted for an account goes out under the request id of that account's own
      link, and of no other account's. What the worker does with the id is another matter. */
  lemma CodesNameOwnRequest(c: Setup, s: State, i: nat)
    requires Crypto.Lawful(c.cipher) && Reachable(c, s) && i < |s.codes|
    ensures s.codes[i].1 in s.links ==> s.links[s.codes[i].1].acc == s.codes[i].0
    ensures forall r :: r in s.links && s.links[r].acc == s.codes[i].0 ==> r == s.codes[i].1
  {
    hide Inv, Reachable, Crypto.Lawful;
    ReachableInv(c, s);
    InvReports(c, s);
    InvRequests(c, s);
    hide LinkFits, RowsOk, EventsOk, LinksOk;
    var acc := s.codes[i].0;
    assert s.made[acc].request == Some(s.codes[i].1);
    forall r | r in s.links && s.links[r].acc == acc
      ensures r == s.codes[i].1
    {
      LinkRequest(c, s, r);
    }
    if s.codes[i].1 in s.links {
      LinkRequest(c, s, s.codes[i].1);
    }
  }

  lemma LinkRequest(c: Setup, s: State, r: RequestId)
    requires LinksOk(c, s) && r in s.links
    ensures s.links[r].acc in s.made && s.made[s.links[r].acc].request == Some(r)
  {
    hide Sub;
  }

  lemma InvRequests(c: Setup, s: State)
    requires Inv(c, s)
    ensures OwnRequests(s.made)
  {
    hide RowsOk, AddingsOk, AddedOnce, LinksOk, OwnRequests, ReqsOk, EventsOk, CodesOk;
  }

  /** What is recorded about an account only grows. */
  ghost predicate MadeGrows(m: MadeMap, m': MadeMap) {
    forall a :: a in m ==>
      && a in m' && m'[a].user == m[a].user && m'[a].login == m[a].login && m'[a].key == m[a].key
      && (m[a].request.Some? ==> m'[a].request == m[a].request)
      && (m[a].token.Some? ==> m'[a].token == m[a].token)
  }

  /** How one step can change the rows: a new account's row appears; an account's row is removed;
      or a row without a token gets one from its own account's link. */
  ghost predicate RowsEvolve(s: State, a: Step, t: State) {
    && (forall acc :: acc in t.rows && acc !in s.rows ==> acc !in s.made)
    && (forall acc :: acc in t.rows && acc in s.rows ==>
          || t.rows[acc] == s.rows[acc]
          || (a.Save? && a.r in s.links && s.links[a.r].acc == acc && s.rows[acc].token == []))
    && MadeGrows(s.made, t.made)
  }

  lemma HandlerStepEvolves(c: Setup, s: State, a: Step)
    requires Inv(c, s) && Known(s) && Enabled(c, s, a) && (a.CreateRow? || a.RecordReq?)
    ensures RowsEvolve(s, a, Do(c, s, a))
  {
    hide Inv, Known, RowsOk, RowOk, Sub, RowsEvolve, RowCreated, ReqRecorded, LinkSaved, LinkReported, LinkEnded;
    if a.RecordReq? {
      AddingView(c, s, a.n);
      RecordEvolves(s, a, Do(c, s, a));
    } else {
      CreateEvolves(s, a, Do(c, s, a));
    }
  }

  lemma CreateEvolves(s: State, a: Step, t: State)
    requires a.CreateRow? && a.n in s.adding && s.adding[a.n].Checked? && a.acc !in s.made && a.acc !in s.rows
    requires t == RowCreated(s, a.n, a.acc)
    ensures RowsEvolve(s, a, t)
  {
  }

  lemma RecordEvolves(s: State, a: Step, t: State)
    requires a.RecordReq? && a.n in s.adding && s.adding[a.n].Created? && s.adding[a.n].acc in s.made
    requires s.made[s.adding[a.n].acc].request == None && t == ReqRecorded(s, a.n, a.r)
    ensures RowsEvolve(s, a, t)
  {
  }

  lemma LinkStepEvolves(c: Setup, s: State, a: Step)
    requires Crypto.Lawful(c.cipher) && Inv(c, s) && Known(s) && Enabled(c, s, a) && (a.End? || a.Save? || a.Report?)
    ensures RowsEvolve(s, a, Do(c, s, a))
  {
    hide Inv, Known, RowOk, EventsOk, LinkSaved, LinkReported;
    LinkView(c, s, a.r);
    if a.Save? {
      SavedOk(c, s, a.r, a.nonce, a.storeFails);
      SavedMoves(c, s, a.r, a.nonce, a.storeFails);
      SaveEvolves(c, s, a.r, Do(c, s, a));
    } else if a.Report? {
      ReportedOk(c, s, a.r);
    }
    hide Crypto.Lawful, LinkMoves, Sub;
  }

  lemma SaveEvolves(c: Setup, s: State, r: RequestId, t: State)
    requires LinkMoves(s, t, r) && t.rows.Keys == s.rows.Keys
    requires s.links[r].phase.Cleared?
    requires var acc := s.links[r].acc; LinkFits(c, r, s.links[r], s.made[acc], At(s.rows, acc), At(s.linkReqs, acc))
    ensures forall acc :: acc in t.rows ==> t.rows[acc] == s.rows[acc] || (acc == s.links[r].acc && s.rows[acc].token == [])
  {
    forall acc | acc in t.rows && acc != s.links[r].acc
      ensures t.rows[acc] == s.rows[acc]
    {
      assert At(t.rows, acc) == At(s.rows, acc);
    }
    hide OnlyAt, Sub, OwnerOfToken;
  }

  lemma StepEvolves(c: Setup, s: State, a: Step)
    requires Crypto.Lawful(c.cipher) && Inv(c, s) && Known(s) && Enabled(c, s, a)
    ensures RowsEvolve(s, a, Do(c, s, a))
  {
    hide Inv, Known, Crypto.Lawful, LinkSaved, LinkReported, LinkEnded, RowCreated, ReqRecorded, Sub;
    if a.CreateRow? || a.RecordReq? {
      HandlerStepEvolves(c, s, a);
      hide Do, RowsEvolve;
    } else if a.End? || a.Save? || a.Report? {
      LinkStepEvolves(c, s, a);
      hide Do, RowsEvolve;
    } else if a.BackfillId? {
      BackfillChangesNothing(c, s, a);
      hide Do;
    }
  }

  lemma {:induction false} RunEvolves(c: Setup, s: State, steps: seq<Step>, t: State, acc: AccountId)
    requires Crypto.Lawful(c.cipher) && Inv(c, s) && Runs(c, s, steps, t) && acc in s.made
    ensures acc !in s.rows ==> acc !in t.rows
    ensures acc in s.rows && s.rows[acc].token != [] && acc in t.rows ==> t.rows[acc] == s.rows[acc]
    ensures acc in t.made
    decreases |steps|
  {
    hide Inv, Known, Do, Enabled, Crypto.Lawful;
    if steps != [] {
      StepEvolves(c, s, steps[0]);
      StepKeepsInv(c, s, steps[0]);
      RunEvolves(c, Do(c, s, steps[0]), steps[1..], t, acc);
    }
  }

  /** A late link neither resurrects nor redirects: once an account's row is deleted it never
      comes back, in any continuation, whatever its link does and whatever is added later. */
  lemma DeletedStaysDeleted(c: Setup, s: State, steps: seq<Step>, t: State, r: RequestId)
    requires Crypto.Lawful(c.cipher) && Reachable(c, s) && Runs(c, s, steps, t)
    requires r in s.links && s.links[r].acc !in s.rows
    ensures s.links[r].acc !in t.rows
  {
    hide Inv, Reachable, Runs, Crypto.Lawful;
    ReachableInv(c, s);
    LinkView(c, s, r);
    RunEvolves(c, s, steps, t, s.links[r].acc);
  }

  /** A stored token is stored once: as long as the row exists, in any continuation, its token,
      nonce, expiry and Steam id stay what they are, under any number of backfills. */
  lemma StoredOnce(c: Setup, s: State, steps: seq<Step>, t: State, acc: AccountId)
    requires Crypto.Lawful(c.cipher) && Reachable(c, s) && Runs(c, s, steps, t)
    requires acc in s.rows && s.rows[acc].token != [] && acc in t.rows
    ensures t.rows[acc] == s.rows[acc]
  {
    hide Inv, Reachable, Runs, Crypto.Lawful;
    ReachableInv(c, s);
    InvReports(c, s);
    hide EventsOk, LinksOk, CodesOk, RowOk;
    RunEvolves(c, s, steps, t, acc);
  }

  lemma RowOfInv(c: Setup, s: State, acc: AccountId)
    requires Crypto.Lawful(c.cipher) && Inv(c, s) && acc in s.rows
    ensures acc in s.made && s.made[acc].user == s.rows[acc].user
    ensures s.rows[acc].token != [] ==>
              && s.made[acc].token.Some?
              && Crypto.Decrypt(c.cipher, s.made[acc].key, s.rows[acc].token, s.rows[acc].nonce) == Ok(s.made[acc].token.value)
              && s.rows[acc].steamId == Sub(c, s.made[acc].token.value)
              && s.rows[acc].expires == Jwt.ExpiryFromJwt(c.exp, s.made[acc].token.value)
    ensures s.rows[acc].token == [] ==> s.rows[acc].steamId == "" && s.rows[acc].expires == None
    ensures s.rows[acc].username == s.made[acc].login.username
  {
    hide AddingsOk, AddedOnce, LinksOk, OwnRequests, ReqsOk, EventsOk, CodesOk, Sub, Jwt.ExpiryFromJwt, Crypto.Decrypt, Crypto.Encrypt, Crypto.Lawful;
    var row, m := s.rows[acc], s.made[acc];
    assert RowOk(c, row, m);
    if row.token != [] {
      Crypto.DecryptOfEncrypt(c.cipher, m.key, m.token.value, row.nonce);
    }
  }

  /** A row's token opens, under the key its handler captured, to exactly the token the worker
      returned for that account; and a non-empty steam_id is that token's subject. */
  lemma RowHoldsReturnedToken(c: Setup, s: State, acc: AccountId)
    requires Crypto.Lawful(c.cipher) && Reachable(c, s) && acc in s.rows
    ensures acc in s.made && s.made[acc].user == s.rows[acc].user
    ensures s.rows[acc].token != [] ==>
              && s.made[acc].token.Some?
              && Crypto.Decrypt(c.cipher, s.made[acc].key, s.rows[acc].token, s.rows[acc].nonce) == Ok(s.made[acc].token.value)
              && s.rows[acc].steamId == Sub(c, s.made[acc].token.value)
              && s.rows[acc].expires == Jwt.ExpiryFromJwt(c.exp, s.made[acc].token.value)
    ensures s.rows[acc].token == [] ==> s.rows[acc].steamId == "" && s.rows[acc].expires == None
    ensures s.rows[acc].username == s.made[acc].login.username
  {
    hide Crypto.Lawful, Inv, Reachable;
    ReachableInv(c, s);
    RowOfInv(c, s, acc);
  }

  // ----- Credentials

  ghost predicate LoginsOk(s: State) {
    && (forall n :: n in s.adding ==> WellFormed(s.adding[n].login))
    && (forall r :: r in s.links ==> WellFormed(s.links[r].login))
    && (forall a :: a in s.made ==> WellFormed(s.made[a].login))
  }

  lemma MovedKeepsLogins(s: State, t: State, r: RequestId)
    requires LoginsOk(s) && r in s.links && r in t.links && t.links == s.links[r := t.links[r]] && t.links[r].login == s.links[r].login
    requires t.adding == s.adding && t.made == s.made
    ensures LoginsOk(t)
  {
    hide WellFormed;
  }

  lemma SaveKeepsLogins(c: Setup, s: State, r: RequestId, nonce: bytes, storeFails: bool)
    requires r in s.links && s.links[r].phase.Cleared? && s.links[r].phase.outcome.LinkOk? && |nonce| == Crypto.NONCE_SIZE && LoginsOk(s)
    ensures LoginsOk(LinkSaved(c, s, r, nonce, storeFails))
  {
    hide Crypto.Encrypt, Jwt.ExpiryFromJwt, Store.SaveRefreshToken, LoginsOk;
    MovedKeepsLogins(s, LinkSaved(c, s, r, nonce, storeFails), r);
  }

  lemma ReportKeepsLogins(s: State, r: RequestId)
    requires r in s.links && (s.links[r].phase.Saved? || s.links[r].phase.Cleared?) && LoginsOk(s)
    ensures LoginsOk(LinkReported(s, r))
  {
    hide ReportOf, AfterReport, LoginsOk;
    MovedKeepsLogins(s, LinkReported(s, r), r);
  }

  lemma CreateKeepsLogins(s: State, n: nat, acc: AccountId)
    requires LoginsOk(s) && n in s.adding && s.adding[n].Checked? && acc !in s.rows
    ensures LoginsOk(RowCreated(s, n, acc))
  {
    hide WellFormed, Store.Create;
  }

  lemma RecordKeepsLogins(s: State, n: nat, r: RequestId)
    requires LoginsOk(s) && n in s.adding && s.adding[n].Created? && s.adding[n].acc in s.made
    ensures LoginsOk(ReqRecorded(s, n, r))
  {
    hide WellFormed, Apply;
  }

  lemma AddingKeepsLogins(c: Setup, s: State, a: Step)
    requires Known(s) && Enabled(c, s, a) && LoginsOk(s) && (a.CheckKey? || a.CreateRow? || a.RecordReq? || a.Spawn?)
    ensures LoginsOk(Do(c, s, a))
  {
    hide WellFormed, RowCreated, ReqRecorded, LinkSaved, LinkReported, LinkEnded, Sub;
    match a {
      case CheckKey(_, _, _, _) => CheckedLogin(c, s, a);
      case CreateRow(n, acc) => CreateKeepsLogins(s, n, acc);
      case RecordReq(n, r) => RecordKeepsLogins(s, n, r);
      case Spawn(_) =>
    }
  }

  lemma EndKeepsLogins(c: Setup, s: State, a: Step)
    requires Known(s) && Enabled(c, s, a) && LoginsOk(s) && a.End?
    ensures LoginsOk(Do(c, s, a))
  {
    hide WellFormed, LinkSaved, LinkReported, TokenOf, OwnerOfToken;
  }

  lemma OthersKeepLogins(c: Setup, s: State, a: Step)
    requires Known(s) && Enabled(c, s, a) && LoginsOk(s)
    requires a.AddPending? || a.Clear? || a.Delete? || a.BackfillId? || a.CheckOwner? || a.RouteCode?
    ensures LoginsOk(Do(c, s, a))
  {
    hide Known, WellFormed, LoginsOk, LinkSaved, LinkReported, LinkEnded, Store.Delete, Store.SetSteamId, Sub, Apply;
    var t := Do(c, s, a);
    if a.AddPending? || a.Clear? {
      MovedKeepsLogins(s, t, a.r);
    } else {
      SameLogins(s, t);
    }
  }

  lemma SameLogins(s: State, t: State)
    requires LoginsOk(s) && t.adding == s.adding && t.links == s.links && t.made == s.made
    ensures LoginsOk(t)
  {
    hide WellFormed;
  }

  lemma LoginsKept(c: Setup, s: State, a: Step)
    requires Known(s) && Enabled(c, s, a) && LoginsOk(s)
    ensures LoginsOk(Do(c, s, a))
  {
    hide Known, LoginsOk, RowCreated, ReqRecorded, LinkEnded, LinkSaved, LinkReported, CodeRouted, Moved, Store.Delete, Store.SetSteamId, Sub;
    match a {
      case Save(r, nonce, storeFails) => SaveKeepsLogins(c, s, r, nonce, storeFails);
      case Report(r) => ReportKeepsLogins(s, r);
      case CheckKey(_, _, _, _) => AddingKeepsLogins(c, s, a);
      case CreateRow(_, _) => AddingKeepsLogins(c, s, a);
      case RecordReq(_, _) => AddingKeepsLogins(c, s, a);
      case Spawn(_) => AddingKeepsLogins(c, s, a);
      case End(_, _) => EndKeepsLogins(c, s, a);
      case _ => OthersKeepLogins(c, s, a);
    }
  }

  lemma CheckedLogin(c: Setup, s: State, a: Step)
    requires Enabled(c, s, a) && a.CheckKey?
    ensures WellFormed(a.login)
  {
  }

  lemma {:induction false} RunKeepsLogins(c: Setup, s: State, steps: seq<Step>, t: State)
    requires LoginsOk(s) && Runs(c, s, steps, t)
    ensures LoginsOk(t)
    decreases |steps|
  {
    hide Known, Enabled, Do, LoginsOk;
    if steps != [] {
      LoginsKept(c, s, steps[0]);
      RunKeepsLogins(c, Do(c, s, steps[0]), steps[1..], t);
    }
  }

  /** In every run, an account was added with both Steam credentials or with neither, so its link is
      a credentials login or a QR link, nothing in between. */
  lemma LoginsAreWellFormed(c: Setup, s: State, acc: AccountId)
    requires Reachable(c, s) && acc in s.made
    ensures s.made[acc].login.username == "" <==> s.made[acc].login.password == ""
  {
    hide Runs;
    var steps :| Runs(c, EMPTY, steps, s);
    RunKeepsLogins(c, EMPTY, steps, s);
  }

  // ----- Guard codes on their way

  /** A guard code submitted for an account whose link waits to be told goes out, under that
      link's request; for an account with no request on record nothing goes out. */
  lemma CodeGoesOut(c: Setup, s: State, n: nat, r: RequestId)
    requires Crypto.Lawful(c.cipher) && Reachable(c, s) && Known(s) && n in s.submitting
    requires r in s.links && s.links[r].acc == s.submitting[n]
    ensures var (codes, p) := (Do(c, s, RouteCode(n)).codes, s.links[r].phase);
            if p.Spawned? || p.Pending? || p.Ended? then codes == s.codes + [(s.submitting[n], r)] else codes == s.codes
  {
    RequestOnRecord(c, s, r);
    hide Crypto.Lawful, Reachable, Known;
  }

  /** Step j of these asked, for handler n, whether acc is user's. */
  predicate Asked(done: seq<Step>, j: int, n: nat, user: UserId, acc: AccountId) {
    0 <= j < |done| && done[j] == CheckOwner(n, user, acc)
  }

  ghost predicate OwnerAsked(done: seq<Step>, n: nat, acc: AccountId, made: MadeMap) {
    acc in made && exists j :: Asked(done, j, n, made[acc].user, acc)
  }

  /** A handler routed the code after it found the account to be its user's. */
  ghost predicate OwnersCode(done: seq<Step>, acc: AccountId, made: MadeMap) {
    acc in made && exists n, j, k :: Asked(done, j, n, made[acc].user, acc) && j < k < |done| && done[k] == RouteCode(n)
  }

  ghost predicate AllAsked(done: seq<Step>, s: State) {
    && (forall n :: n in s.submitting ==> OwnerAsked(done, n, s.submitting[n], s.made))
    && (forall i :: 0 <= i < |s.codes| ==> OwnersCode(done, s.codes[i].0, s.made))
  }

  lemma LongerAsked(done: seq<Step>, a: Step, n: nat, acc: AccountId, made: MadeMap, made': MadeMap)
    requires MadeGrows(made, made')
    ensures OwnerAsked(done, n, acc, made) ==> OwnerAsked(done + [a], n, acc, made')
    ensures OwnersCode(done, acc, made) ==> OwnersCode(done + [a], acc, made')
  {
    if OwnerAsked(done, n, acc, made) {
      var j :| Asked(done, j, n, made[acc].user, acc);
      assert Asked(done + [a], j, n, made'[acc].user, acc);
    }
    if OwnersCode(done, acc, made) {
      var m, j, k :| Asked(done, j, m, made[acc].user, acc) && j < k < |done| && done[k] == RouteCode(m);
      assert Asked(done + [a], j, m, made'[acc].user, acc) && (done + [a])[k] == RouteCode(m);
    }
  }

  lemma SaveSubmitsNothing(c: Setup, s: State, r: RequestId, nonce: bytes, storeFails: bool)
    requires r in s.links && s.links[r].phase.Cleared? && s.links[r].phase.outcome.LinkOk? && |nonce| == Crypto.NONCE_SIZE
    ensures LinkSaved(c, s, r, nonce, storeFails).submitting == s.submitting && LinkSaved(c, s, r, nonce, storeFails).codes == s.codes
  {
    hide Crypto.Encrypt, Jwt.ExpiryFromJwt, Store.SaveRefreshToken;
  }

  lemma ReportSubmitsNothing(s: State, r: RequestId)
    requires r in s.links && (s.links[r].phase.Saved? || s.links[r].phase.Cleared?)
    ensures LinkReported(s, r).submitting == s.submitting && LinkReported(s, r).codes == s.codes
  {
    hide ReportOf, AfterReport;
  }

  lemma AddSubmitsNothing(s: State, n: nat, acc: AccountId, r: RequestId)
    requires n in s.adding
    ensures s.adding[n].Checked? && acc !in s.rows ==> RowCreated(s, n, acc).submitting == s.submitting && RowCreated(s, n, acc).codes == s.codes
    ensures s.adding[n].Created? && s.adding[n].acc in s.made ==>
              ReqRecorded(s, n, r).submitting == s.submitting && ReqRecorded(s, n, r).codes == s.codes
  {
    hide Store.Create, Apply;
  }

  lemma OthersSubmitNothing(c: Setup, s: State, a: Step)
    requires Known(s) && Enabled(c, s, a) && !a.CheckOwner? && !a.RouteCode?
    ensures Do(c, s, a).submitting == s.submitting && Do(c, s, a).codes == s.codes
  {
    hide LinkSaved, LinkReported, RowCreated, ReqRecorded, Store.Delete, Store.SetSteamId, Sub, Apply;
    match a {
      case Save(r, nonce, storeFails) => SaveSubmitsNothing(c, s, r, nonce, storeFails);
      case Report(r) => ReportSubmitsNothing(s, r);
      case CreateRow(n, acc) => AddSubmitsNothing(s, n, acc, 0);
      case RecordReq(n, r) => AddSubmitsNothing(s, n, 0, r);
      case _ =>
    }
  }

  lemma AskingGrows(c: Setup, s: State, a: Step)
    requires Known(s) && Enabled(c, s, a) && (a.CheckOwner? || a.RouteCode?)
    ensures var t := Do(c, s, a);
            && t.made == s.made
            && t.submitting == (if a.CheckOwner? then s.submitting[a.n := a.acc] else s.submitting - {a.n})
            && (t.codes == s.codes || (a.RouteCode? && a.n in s.submitting && |t.codes| == |s.codes| + 1 && s.codes <= t.codes
                                       && t.codes[|s.codes|].0 == s.submitting[a.n]))
            && (a.CheckOwner? ==> t.codes == s.codes && Store.IsRowOf(s.rows, a.user, a.acc))
  {
    hide Known;
  }

  lemma StepAsks(c: Setup, s: State, a: Step, done: seq<Step>)
    requires Crypto.Lawful(c.cipher) && Inv(c, s) && Known(s) && Enabled(c, s, a) && AllAsked(done, s)
    ensures AllAsked(done + [a], Do(c, s, a))
  {
    hide Crypto.Lawful, Inv, Known, Enabled, Do, MadeGrows, OwnerAsked, OwnersCode, RowsEvolve;
    StepGrowsMade(c, s, a);
    var t := Do(c, s, a);
    if a.CheckOwner? || a.RouteCode? {
      AskingGrows(c, s, a);
    } else {
      OthersSubmitNothing(c, s, a);
    }
    forall n | n in t.submitting
      ensures OwnerAsked(done + [a], n, t.submitting[n], t.made)
    {
      if a.CheckOwner? && a.n == n {
        OwnerIsAsked(c, s, a, done);
      } else {
        LongerAsked(done, a, n, s.submitting[n], s.made, t.made);
      }
    }
    forall i | 0 <= i < |t.codes|
      ensures OwnersCode(done + [a], t.codes[i].0, t.made)
    {
      if i < |s.codes| {
        LongerAsked(done, a, 0, s.codes[i].0, s.made, t.made);
      } else {
        CodeIsOwners(done, a.n, s.submitting[a.n], s.made);
      }
    }
  }

  lemma StepGrowsMade(c: Setup, s: State, a: Step)
    requires Crypto.Lawful(c.cipher) && Inv(c, s) && Known(s) && Enabled(c, s, a)
    ensures MadeGrows(s.made, Do(c, s, a).made)
  {
    hide Crypto.Lawful, Inv, Known, Enabled, Do, MadeGrows;
    StepEvolves(c, s, a);
  }

  lemma OwnerIsAsked(c: Setup, s: State, a: Step, done: seq<Step>)
    requires Inv(c, s) && a.CheckOwner? && Store.IsRowOf(s.rows, a.user, a.acc)
    ensures OwnerAsked(done + [a], a.n, a.acc, s.made)
  {
    InvReports(c, s);
    hide Inv, LinksOk, EventsOk, CodesOk;
    assert RowOk(c, s.rows[a.acc], s.made[a.acc]);
    assert Asked(done + [a], |done|, a.n, a.user, a.acc);
  }

  lemma CodeIsOwners(done: seq<Step>, n: nat, acc: AccountId, made: MadeMap)
    requires OwnerAsked(done, n, acc, made)
    ensures OwnersCode(done + [RouteCode(n)], acc, made)
  {
    var j :| Asked(done, j, n, made[acc].user, acc);
    assert Asked(done + [RouteCode(n)], j, n, made[acc].user, acc) && (done + [RouteCode(n)])[|done|] == RouteCode(n);
  }

  lemma {:induction false} RunAsks(c: Setup, s: State, steps: seq<Step>, t: State, done: seq<Step>)
    requires Crypto.Lawful(c.cipher) && Inv(c, s) && Runs(c, s, steps, t) && AllAsked(done, s)
    ensures AllAsked(done + steps, t)
    decreases |steps|
  {
    hide Crypto.Lawful, Inv, Known, Enabled, Do, AllAsked;
    if steps == [] {
      assert done + steps == done;
    } else {
      StepAsks(c, s, steps[0], done);
      StepKeepsInv(c, s, steps[0]);
      RunAsks(c, Do(c, s, steps[0]), steps[1..], t, done + [steps[0]]);
      assert done + [steps[0]] + steps[1..] == done + steps;
    }
  }

  /** In every run, each guard code sent was submitted by a handler that had found the account to
      be its own user's: nobody submits a code for another's account. */
  lemma CodesComeFromOwners(c: Setup, steps: seq<Step>, s: State, i: nat)
    requires Crypto.Lawful(c.cipher) && Runs(c, EMPTY, steps, s) && i < |s.codes|
    ensures s.codes[i].0 in s.made
    ensures exists n, j, k :: && Asked(steps, j, n, s.made[s.codes[i].0].user, s.codes[i].0)
                              && j < k < |steps| && steps[k] == RouteCode(n)
  {
    hide Crypto.Lawful, Inv, Runs, Asked;
    EmptyInv(c);
    RunAsks(c, EMPTY, steps, s, []);
    assert [] + steps == steps;
    assert OwnersCode(steps, s.codes[i].0, s.made);
  }

  // ----- The request table over a run

  function ReqOpsOf(s: State, a: Step): seq<ReqOp> {
    if a.RecordReq? && a.n in s.adding && s.adding[a.n].Created? then [SetReq(s.adding[a.n].acc, a.r)]
    else if a.Clear? && a.r in s.links then [ClearReq(s.links[a.r].acc)]
    else []
  }

  /** Every setLinkReq and clearLinkReq of a run, in order. */
  ghost function ReqOps(c: Setup, s: State, steps: seq<Step>): seq<ReqOp>
    decreases |steps|
  {
    if steps == [] || !Known(s) || !Enabled(c, s, steps[0]) then []
    else ReqOpsOf(s, steps[0]) + ReqOps(c, Do(c, s, steps[0]), steps[1..])
  }

  lemma StepAppliesReqOps(c: Setup, s: State, a: Step)
    requires Known(s) && Enabled(c, s, a)
    ensures Do(c, s, a).linkReqs == ApplyAll(s.linkReqs, ReqOpsOf(s, a))
  {
    hide Known, Apply, Sub, LinkSaved, LinkReported, Store.Create;
    if a.Save? {
      SavedKeepsReqs(c, s, a.r, a.nonce, a.storeFails);
    } else if a.Report? {
      ReportedKeepsReqs(s, a.r);
    }
    if ReqOpsOf(s, a) != [] {
      assert ReqOpsOf(s, a)[..0] == [];
    }
  }

  lemma SavedKeepsReqs(c: Setup, s: State, r: RequestId, nonce: bytes, storeFails: bool)
    requires r in s.links && s.links[r].phase.Cleared? && s.links[r].phase.outcome.LinkOk? && |nonce| == Crypto.NONCE_SIZE
    ensures LinkSaved(c, s, r, nonce, storeFails).linkReqs == s.linkReqs
  {
    hide Crypto.Encrypt, Store.SaveRefreshToken, Jwt.ExpiryFromJwt;
  }

  lemma ReportedKeepsReqs(s: State, r: RequestId)
    requires r in s.links && (s.links[r].phase.Saved? || s.links[r].phase.Cleared?)
    ensures LinkReported(s, r).linkReqs == s.linkReqs
  {
    hide ReportOf, AfterReport;
  }

  lemma {:induction false} ApplyConcat(reqs: Reqs, a: seq<ReqOp>, b: seq<ReqOp>)
    ensures ApplyAll(reqs, a + b) == ApplyAll(ApplyAll(reqs, a), b)
    decreases |b|
  {
    if b == [] {
      assert a + b == a;
    } else {
      var n := |b| - 1;
      assert (a + b)[..|a + b| - 1] == a + b[..n];
      ApplyConcat(reqs, a, b[..n]);
    }
  }

  lemma {:induction false} RunAppliesReqOps(c: Setup, s: State, steps: seq<Step>, t: State)
    requires Runs(c, s, steps, t)
    ensures t.linkReqs == ApplyAll(s.linkReqs, ReqOps(c, s, steps))
    decreases |steps|
  {
    hide Known, Do, Enabled, ReqOpsOf;
    if steps != [] {
      StepAppliesReqOps(c, s, steps[0]);
      RunAppliesReqOps(c, Do(c, s, steps[0]), steps[1..], t);
      ApplyConcat(s.linkReqs, ReqOpsOf(s, steps[0]), ReqOps(c, Do(c, s, steps[0]), steps[1..]));
    }
  }

  /** In any run, the request on record for an account is the one last set and not cleared since:
      what a LinkRequests object asked to do the same would answer. */
  lemma RecordIsLastSet(c: Setup, steps: seq<Step>, s: State, acc: AccountId)
    requires Runs(c, EMPTY, steps, s)
    ensures At(s.linkReqs, acc) == LastSet(ReqOps(c, EMPTY, steps), acc)
  {
    hide Runs, ReqOps;
    RunAppliesReqOps(c, EMPTY, steps, s);
    TableIsLastSet(ReqOps(c, EMPTY, steps), acc);
  }

  // ----- A link with nothing else going on

  lemma RunsCons(c: Setup, s: State, a: Step, steps: seq<Step>, t: State)
    requires Known(s) && Enabled(c, s, a) && Runs(c, Do(c, s, a), steps, t)
    ensures Runs(c, s, [a] + steps, t)
  {
    hide Known, Do, Enabled;
    assert ([a] + steps)[1..] == steps;
  }

  const QR := Login("", "")

  lemma CreateAlone(c: Setup, user: UserId, key: bytes)
    ensures var s := EMPTY.(adding := map[0 := Checked(user, QR, key)]);
            && Known(s) && Enabled(c, s, CreateRow(0, 0))
            && Do(c, s, CreateRow(0, 0)) == EMPTY.(rows := map[0 := Store.Row(user, "", "", [], [], None)],
                                                    adding := map[0 := Created(0, QR, key)],
                                                    made := map[0 := Made(user, QR, key, None, None)])
  {
  }

  /** Only account 0 exists, with the one link 0 in phase p. */
  predicate Alone(s: State, p: Phase) {
    s.links.Keys == {0} && s.links[0].phase == p && s.links[0].acc == 0 && s.made.Keys == {0} && s.adding == map[]
  }

  /** t is s with the link in another phase, as far as the next steps are concerned. */
  predicate AloneAfter(s: State, t: State, p: Phase) {
    Alone(t, p) && t.rows == s.rows && t.links[0].key == (if 0 in s.links then s.links[0].key else [])
  }

  lemma AloneIsKnown(s: State, p: Phase)
    requires Alone(s, p)
    ensures Known(s)
  {
  }

  /** The link moves on, with its outcome on record or its request cleared. */
  lemma MovedAlone(s: State, p: Phase, q: Phase, made: MadeMap, reqs: Reqs)
    requires Alone(s, p) && made.Keys == {0}
    ensures AloneAfter(s, Moved(s, 0, q).(made := made, linkReqs := reqs), q)
  {
  }

  lemma PendingAlone(c: Setup, s: State)
    requires Alone(s, Spawned)
    ensures Known(s) && Enabled(c, s, AddPending(0)) && AloneAfter(s, Do(c, s, AddPending(0)), Pending)
  {
    hide Known, Moved, AloneAfter, RowCreated, ReqRecorded, LinkEnded, LinkSaved, LinkReported, CodeRouted, Store.Delete, Sub;
    AloneIsKnown(s, Spawned);
    MovedAlone(s, Spawned, Pending, s.made, s.linkReqs);
    assert Do(c, s, AddPending(0)) == Moved(s, 0, Pending);
    MovesNothingElse(s, Pending);
  }

  lemma MovesNothingElse(s: State, q: Phase)
    requires 0 in s.links
    ensures Moved(s, 0, q) == Moved(s, 0, q).(made := s.made, linkReqs := s.linkReqs)
  {
  }

  lemma EndAlone(c: Setup, s: State, outcome: LinkOutcome)
    requires Alone(s, Pending) && OwnerOfToken(c, outcome)
    ensures Known(s) && Enabled(c, s, End(0, outcome)) && AloneAfter(s, Do(c, s, End(0, outcome)), Ended(outcome))
  {
    hide Known, LinkEnded, AloneAfter, RowCreated, ReqRecorded, LinkSaved, LinkReported, CodeRouted, Store.Delete, Sub, OwnerOfToken;
    AloneIsKnown(s, Pending);
    EndedAlone(s, outcome);
  }

  lemma EndedAlone(s: State, outcome: LinkOutcome)
    requires Alone(s, Pending)
    ensures AloneAfter(s, LinkEnded(s, 0, outcome), Ended(outcome))
  {
    hide Moved, AloneAfter, TokenOf;
    var made := s.made[0 := s.made[0].(token := TokenOf(outcome))];
    MovedAlone(s, Pending, Ended(outcome), made, s.linkReqs);
    MovesNothingElse(s, Ended(outcome));
  }

  lemma ClearAlone(c: Setup, s: State, outcome: LinkOutcome)
    requires Alone(s, Ended(outcome))
    ensures Known(s) && Enabled(c, s, Clear(0)) && AloneAfter(s, Do(c, s, Clear(0)), Cleared(outcome))
  {
    hide Known, Moved, AloneAfter, Apply, RowCreated, ReqRecorded, LinkEnded, LinkSaved, LinkReported, CodeRouted, Store.Delete, Sub;
    AloneIsKnown(s, Ended(outcome));
    MovedAlone(s, Ended(outcome), Cleared(outcome), s.made, Apply(s.linkReqs, ClearReq(0)));
    MovesNothingElse(s, Cleared(outcome));
  }

  /** A step before a run of plain steps: none that takes a key or backfills. */
  lemma PlainCons(c: Setup, s: State, a: Step, steps: seq<Step>, t: State) returns (longer: seq<Step>)
    requires Known(s) && Enabled(c, s, a) && Runs(c, Do(c, s, a), steps, t) && Plain(steps) && !a.CheckKey? && !a.BackfillId?
    ensures Runs(c, s, longer, t) && Plain(longer)
  {
    hide Known, Do, Enabled;
    longer := [a] + steps;
    RunsCons(c, s, a, steps, t);
  }

  predicate Plain(steps: seq<Step>) {
    forall b :: b in steps ==> !b.CheckKey? && !b.BackfillId?
  }

  lemma NoSteps(c: Setup, s: State)
    ensures Runs(c, s, [], s) && Plain([])
  {
  }

  lemma RecordAlone(c: Setup, s: State, key: bytes)
    requires s.adding == map[0 := Created(0, QR, key)] && s.made.Keys == {0} && s.made[0].request == None && s.links == map[]
    ensures Known(s) && Enabled(c, s, RecordReq(0, 0))
    ensures var t := Do(c, s, RecordReq(0, 0));
            && t.adding == map[0 := Recorded(0, 0, QR, key)] && t.made.Keys == {0} && t.links == map[] && t.rows == s.rows
  {
    hide Apply;
  }

  lemma SpawnAlone(c: Setup, s: State, key: bytes)
    requires s.adding == map[0 := Recorded(0, 0, QR, key)] && s.made.Keys == {0} && s.links == map[]
    ensures Known(s) && Enabled(c, s, Spawn(0))
    ensures var t := Do(c, s, Spawn(0)); Alone(t, Spawned) && t.links[0].key == key && t.rows == s.rows
  {
  }

  /** The row of account 0 up to its goroutine. */
  lemma AddAlone(c: Setup, user: UserId, key: bytes) returns (steps: seq<Step>, s: State)
    ensures Runs(c, EMPTY.(adding := map[0 := Checked(user, QR, key)]), steps, s) && Plain(steps)
    ensures Alone(s, Spawned) && s.links[0].key == key && s.rows.Keys == {0} && s.rows[0].user == user
  {
    hide Known, Enabled, Do, Runs, Plain;
    var s0 := EMPTY.(adding := map[0 := Checked(user, QR, key)]);
    CreateAlone(c, user, key);
    var s1 := Do(c, s0, CreateRow(0, 0));
    RecordAlone(c, s1, key);
    var s2 := Do(c, s1, RecordReq(0, 0));
    SpawnAlone(c, s2, key);
    s := Do(c, s2, Spawn(0));
    NoSteps(c, s);
    steps := PlainCons(c, s2, Spawn(0), [], s);
    steps := PlainCons(c, s1, RecordReq(0, 0), steps, s);
    steps := PlainCons(c, s0, CreateRow(0, 0), steps, s);
  }

  /** The goroutine up to the save, for a token whose claims can be read. */
  lemma WaitAlone(c: Setup, s: State, outcome: LinkOutcome) returns (steps: seq<Step>, t: State)
    requires Alone(s, Spawned) && OwnerOfToken(c, outcome)
    ensures Runs(c, s, steps, t) && Plain(steps) && AloneAfter(s, t, Cleared(outcome))
  {
    hide Known, Do, Enabled, OwnerOfToken, Runs, Plain;
    PendingAlone(c, s);
    var s1 := Do(c, s, AddPending(0));
    EndAlone(c, s1, outcome);
    var s2 := Do(c, s1, End(0, outcome));
    ClearAlone(c, s2, outcome);
    t := Do(c, s2, Clear(0));
    NoSteps(c, t);
    steps := PlainCons(c, s2, Clear(0), [], t);
    steps := PlainCons(c, s1, End(0, outcome), steps, t);
    steps := PlainCons(c, s, AddPending(0), steps, t);
  }

  lemma SavedAlone(c: Setup, s: State, outcome: LinkOutcome, nonce: bytes)
    requires Crypto.Lawful(c.cipher) && |nonce| == Crypto.NONCE_SIZE && outcome.LinkOk?
    requires Alone(s, Cleared(outcome)) && |s.links[0].key| == Crypto.KEY_SIZE && s.rows.Keys == {0}
    ensures var t := LinkSaved(c, s, 0, nonce, false);
            t.rows.Keys == {0} && t.rows[0].user == s.rows[0].user && t.rows[0].token != []
  {
    Crypto.DecryptOfEncrypt(c.cipher, s.links[0].key, outcome.refreshToken, nonce);
    hide Crypto.Lawful, Jwt.ExpiryFromJwt, Crypto.Decrypt, Crypto.Encrypt, Moved;
  }

  lemma SavePossible(c: Setup, s: State, outcome: LinkOutcome, nonce: bytes)
    requires Alone(s, Cleared(outcome)) && outcome.LinkOk? && |nonce| == Crypto.NONCE_SIZE
    ensures Known(s) && Enabled(c, s, Save(0, nonce, false))
    ensures Do(c, s, Save(0, nonce, false)) == LinkSaved(c, s, 0, nonce, false)
  {
    hide Known, LinkSaved, RowCreated, ReqRecorded, LinkEnded, LinkReported, CodeRouted, Store.Delete, Sub;
    AloneIsKnown(s, Cleared(outcome));
  }

  lemma SaveAlone(c: Setup, s: State, outcome: LinkOutcome, nonce: bytes) returns (steps: seq<Step>, t: State)
    requires Crypto.Lawful(c.cipher) && |nonce| == Crypto.NONCE_SIZE && outcome.LinkOk?
    requires Alone(s, Cleared(outcome)) && |s.links[0].key| == Crypto.KEY_SIZE && s.rows.Keys == {0}
    ensures Runs(c, s, steps, t) && Plain(steps)
    ensures t.rows.Keys == {0} && t.rows[0].user == s.rows[0].user && t.rows[0].token != []
  {
    hide Known, Enabled, Do, LinkSaved, Crypto.Lawful, Alone, Runs, Plain;
    SavePossible(c, s, outcome, nonce);
    SavedAlone(c, s, outcome, nonce);
    t := Do(c, s, Save(0, nonce, false));
    NoSteps(c, t);
    steps := PlainCons(c, s, Save(0, nonce, false), [], t);
  }

  lemma {:induction false} RunsAppend(c: Setup, s: State, a: seq<Step>, m: State, b: seq<Step>, t: State)
    requires Runs(c, s, a, m) && Runs(c, m, b, t)
    ensures Runs(c, s, a + b, t)
    decreases |a|
  {
    hide Known, Do, Enabled;
    if a == [] {
      assert a + b == b;
    } else {
      RunsAppend(c, Do(c, s, a[0]), a[1..], m, b, t);
      assert (a + b)[1..] == a[1..] + b;
    }
  }

  /** From a handler with the key to a stored token, nothing else happening. */
  lemma LinkAlone(c: Setup, user: UserId, key: bytes, token: string, nonce: bytes) returns (steps: seq<Step>, t: State)
    requires Crypto.Lawful(c.cipher) && |nonce| == Crypto.NONCE_SIZE && |key| == Crypto.KEY_SIZE
    requires Jwt.SteamIdFromJwt(c.claims, token).Some?
    ensures Runs(c, EMPTY.(adding := map[0 := Checked(user, QR, key)]), steps, t) && Plain(steps)
    ensures t.rows.Keys == {0} && Store.IsRowOf(t.rows, user, 0) && t.rows[0].token != []
  {
    hide Crypto.Lawful, Runs;
    var outcome := LinkOk(Jwt.SteamIdFromJwt(c.claims, token).value, token);
    var s0 := EMPTY.(adding := map[0 := Checked(user, QR, key)]);
    var adding, s1 := AddAlone(c, user, key);
    var waiting, s2 := WaitAlone(c, s1, outcome);
    var saving;
    saving, t := SaveAlone(c, s2, outcome, nonce);
    RunsAppend(c, s0, adding, s1, waiting, s2);
    RunsAppend(c, s0, adding + waiting, s2, saving, t);
    steps := adding + waiting + saving;
  }

  // ----- Progress

  /** No handler and no goroutine is ever stuck: whatever else happens, each can take its next step,
      with any fresh id, nonce or outcome the step needs. */
  lemma HandlersGoOn(c: Setup, s: State, n: nat, r: RequestId)
    ensures n in s.adding ==>
              match s.adding[n]
              case Checked(_, _, _) => forall acc :: acc !in s.made && acc !in s.rows ==> Enabled(c, s, CreateRow(n, acc))
              case Created(_, _, _) =>
                forall q :: q !in s.links && (forall a :: a in s.made ==> s.made[a].request != Some(q)) ==> Enabled(c, s, RecordReq(n, q))
              case Recorded(_, _, _, _) => Enabled(c, s, Spawn(n))
    ensures r in s.links ==>
              match s.links[r].phase
              case Spawned => Enabled(c, s, AddPending(r))
              case Pending => forall outcome :: OwnerOfToken(c, outcome) ==> Enabled(c, s, End(r, outcome))
              case Ended(_) => Enabled(c, s, Clear(r))
              case Cleared(LinkOk(_, _)) =>
                forall nonce, storeFails :: |nonce| == Crypto.NONCE_SIZE ==> Enabled(c, s, Save(r, nonce, storeFails))
              case Cleared(LinkError(_)) => Enabled(c, s, Report(r))
              case Saved(_, _) => Enabled(c, s, Report(r))
              case Reported(_, _) => true
    ensures n in s.submitting ==> Enabled(c, s, RouteCode(n))
    ensures forall user, acc :: Enabled(c, s, Delete(user, acc))
    ensures forall user, acc :: n !in s.submitting ==> (Enabled(c, s, CheckOwner(n, user, acc)) <==> acc in s.rows && s.rows[acc].user == user)
  {
    hide OwnerOfToken;
  }

  /** A delete goes through exactly for the owner, and takes the row away; a refused one changes
      nothing. */
  lemma DeletesExactly(c: Setup, s: State, user: UserId, acc: AccountId)
    requires Known(s)
    ensures var rows := Do(c, s, Delete(user, acc)).rows;
            rows == if acc in s.rows && s.rows[acc].user == user then s.rows - {acc} else s.rows
  {
    hide Known;
  }

  /** A backfill writes the Steam id of the account's row, if it has one, and nothing else. */
  lemma BackfillsExactly(c: Setup, s: State, acc: AccountId, steamId: string)
    requires Known(s) && Enabled(c, s, BackfillId(acc, steamId))
    ensures var rows := Do(c, s, BackfillId(acc, steamId)).rows;
            rows == if acc in s.rows then s.rows[acc := s.rows[acc].(steamId := steamId)] else s.rows
  {
    hide Known, Sub;
  }

  /** An add goes through exactly if the user has no row; the row has the user and the name given,
      and neither token nor Steam id; a refused add leaves its handler and changes no row. */
  lemma AddsExactly(c: Setup, s: State, n: nat, acc: AccountId)
    requires Known(s) && Enabled(c, s, CreateRow(n, acc))
    ensures var (t, h) := (Do(c, s, CreateRow(n, acc)), s.adding[n]);
            if exists a :: a in s.rows && s.rows[a].user == h.user then t == s.(adding := s.adding - {n})
            else
              && t.rows == s.rows[acc := Store.Row(h.user, "", h.login.username, [], [], None)]
              && t.adding == s.adding[n := Created(acc, h.login, h.key)]
              && t.made == s.made[acc := Made(h.user, h.login, h.key, None, None)]
  {
    hide Known;
  }
}
