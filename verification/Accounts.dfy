/** The life of a stored refresh token, end to end (api/auth.go, api/steam_accounts.go,
    api/friends.go): credential keys, account links and friends requests together.

    A friends handler reads the user's row, then the cached key, decrypts and sends, waits, and
    may backfill the Steam id; each of these is a step, and everything else may happen between
    them: logins, logouts, expiry, links completing, deletes and new links. */
module Accounts {
  import opened Wrappers
  import Credentials
  import Crypto
  import Jwt
  import KeyCache
  import L = AccountLinks
  import P = PasswordHash
  import Store

  type bytes = Crypto.bytes
  type UserId = Store.UserId
  type AccountId = Store.AccountId

  datatype Setup = Setup(creds: Credentials.Setup, claims: bytes -> Jwt.Claims, exp: bytes -> Option<int>)

  function LinkSetup(c: Setup): L.Setup {
    L.Setup(c.creds.cipher, c.claims, c.exp)
  }

  /** A friends handler: it has read the row; it has sent the token; it has the reply. */
  datatype Call =
    | RowRead(user: UserId, acc: AccountId, row: Store.Row)
    | Sent(acc: AccountId, row: Store.Row, token: string)
    | Replied(acc: AccountId, row: Store.Row, owner: string)
    | Undecryptable(acc: AccountId)
    | Done

  /** History: a ListFriends command sent for a user with the token of an account. */
  datatype Command = Command(user: UserId, acc: AccountId, token: string)

  datatype State = State(creds: Credentials.State, links: L.State, calls: map<nat, Call>, sent: seq<Command>)

  const EMPTY := State(Credentials.EMPTY, L.EMPTY, map[], [])

  datatype Step =
    | Creds(cred: Credentials.Step)
    | Links(link: L.Step)
    | BeginAdd(n: nat, user: UserId, login: L.Login)
    | ReadRow(f: nat, user: UserId, acc: AccountId)
    | SendToken(f: nat)
    | Reply(f: nat, owner: Option<string>)
    | Backfill(f: nat)

  function ServedKey(s: State, user: UserId): Option<bytes> {
    KeyCache.Lookup(s.creds.keys, user, s.creds.now)
  }

  /** The guard of the backfill. */
  predicate WantsBackfill(row: Store.Row, owner: string) {
    row.steamId == "" && owner != ""
  }

  ghost predicate Enabled(c: Setup, s: State, a: Step) {
    match a
    case Creds(b) => Credentials.Enabled(c.creds, s.creds, b)
    case Links(b) => !b.CheckKey? && !b.BackfillId? && L.Enabled(LinkSetup(c), s.links, b)
    case BeginAdd(n, _, _) => n !in s.links.adding
    case ReadRow(f, user, acc) => f !in s.calls && Store.IsRowOf(s.links.rows, user, acc) && s.links.rows[acc].token != []
    case SendToken(f) => f in s.calls && s.calls[f].RowRead?
    case Reply(f, owner) => f in s.calls && s.calls[f].Sent? && (owner.Some? ==> Jwt.SteamIdFromJwt(c.claims, s.calls[f].token) == owner)
    case Backfill(f) => f in s.calls && s.calls[f].Replied?
  }

  function KeyRead(s: State, user: UserId): Credentials.State {
    s.creds.(keys := KeyCache.AfterGet(s.creds.keys, user, s.creds.now))
  }

  /** 400 for half the credentials; keys.Get, then 401 or the insert to come. */
  function AddBegun(s: State, n: nat, user: UserId, login: L.Login): State
    requires n !in s.links.adding
  {
    if !L.WellFormed(login) then s
    else
      match ServedKey(s, user)
      case None => s.(creds := KeyRead(s, user))
      case Some(key) =>
        s.(creds := KeyRead(s, user), links := s.links.(adding := s.links.adding[n := L.Checked(user, login, key)]))
  }

  /** keys.Get, then 401; or Decrypt, then 500; or the command to the worker. */
  function TokenSent(c: Setup, s: State, f: nat): State
    requires f in s.calls && s.calls[f].RowRead?
  {
    var call := s.calls[f];
    var t := s.(creds := KeyRead(s, call.user));
    match ServedKey(s, call.user)
    case None => t.(calls := s.calls[f := Done])
    case Some(key) =>
      match Crypto.Decrypt(c.creds.cipher, key, call.row.token, call.row.nonce)
      case Err(_) => t.(calls := s.calls[f := Undecryptable(call.acc)])
      case Ok(token) =>
        t.(calls := s.calls[f := Sent(call.acc, call.row, token)], sent := s.sent + [Command(call.user, call.acc, token)])
  }

  ghost function Do(c: Setup, s: State, a: Step): State
    requires P.Lawful(c.creds.pr) && L.Known(s.links) && Enabled(c, s, a)
  {
    match a
    case Creds(b) => s.(creds := Credentials.Do(c.creds, s.creds, b))
    case Links(b) => s.(links := L.Do(LinkSetup(c), s.links, b))
    case BeginAdd(n, user, login) => AddBegun(s, n, user, login)
    case ReadRow(f, user, acc) => s.(calls := s.calls[f := RowRead(user, acc, s.links.rows[acc])])
    case SendToken(f) => TokenSent(c, s, f)
    case Reply(f, owner) =>
      s.(calls := s.calls[f := if owner.None? then Done else Replied(s.calls[f].acc, s.calls[f].row, owner.value)])
    case Backfill(f) =>
      var call := s.calls[f];
      s.(calls := s.calls[f := Done],
         links := if WantsBackfill(call.row, call.owner)
                  then s.links.(rows := L.OrElse(Store.SetSteamId(s.links.rows, call.acc, call.owner), s.links.rows))
                  else s.links)
  }

  ghost predicate Runs(c: Setup, s: State, steps: seq<Step>, t: State)
    requires P.Lawful(c.creds.pr)
    decreases |steps|
  {
    if steps == [] then s == t
    else L.Known(s.links) && Enabled(c, s, steps[0]) && Runs(c, Do(c, s, steps[0]), steps[1..], t)
  }

  ghost predicate Reachable(c: Setup, s: State)
    requires P.Lawful(c.creds.pr)
  {
    exists steps :: Runs(c, EMPTY, steps, s)
  }

  // ----- The invariant

  ghost predicate IsKeyOf(c: Setup, s: State, user: UserId, key: bytes)
    requires P.Lawful(c.creds.pr)
  {
    Credentials.IsKeyOf(c.creds, s.creds.users, s.creds.origins, user, key)
  }

  /** Whatever captured a key captured the user's key. */
  ghost predicate CapturedOk(c: Setup, s: State)
    requires P.Lawful(c.creds.pr)
  {
    && (forall n :: n in s.links.adding && s.links.adding[n].Checked? ==>
          IsKeyOf(c, s, s.links.adding[n].user, s.links.adding[n].key))
    && (forall a :: a in s.links.made ==> IsKeyOf(c, s, s.links.made[a].user, s.links.made[a].key))
  }

  /** A row read with its token is the row of that account, as it still reads today. */
  predicate ReadOk(c: Setup, made: L.MadeMap, acc: AccountId, row: Store.Row) {
    acc in made && row.token != [] && L.RowOk(LinkSetup(c), row, made[acc])
  }

  predicate CallOk(c: Setup, made: L.MadeMap, call: Call) {
    match call
    case RowRead(user, acc, row) => ReadOk(c, made, acc, row) && made[acc].user == user
    case Sent(acc, row, token) => ReadOk(c, made, acc, row) && made[acc].token == Some(token)
    case Replied(acc, row, owner) => ReadOk(c, made, acc, row) && made[acc].token.Some? && owner == L.Sub(LinkSetup(c), made[acc].token.value)
    case Undecryptable(_) => false
    case Done => true
  }

  ghost predicate CallsOk(c: Setup, made: L.MadeMap, calls: map<nat, Call>) {
    forall f :: f in calls ==> CallOk(c, made, calls[f])
  }

  /** The row a handler works with is still what the table holds for that account, if it holds
      one. */
  ghost predicate ReadsCurrent(rows: Store.Table, calls: map<nat, Call>) {
    forall f :: f in calls && (calls[f].RowRead? || calls[f].Sent? || calls[f].Replied?) && calls[f].acc in rows ==>
      rows[calls[f].acc] == calls[f].row
  }

  predicate CommandOk(made: L.MadeMap, m: Command) {
    m.acc in made && made[m.acc].user == m.user && made[m.acc].token == Some(m.token)
  }

  ghost predicate SentOk(made: L.MadeMap, sent: seq<Command>) {
    forall i :: 0 <= i < |sent| ==> CommandOk(made, sent[i])
  }

  ghost predicate Inv(c: Setup, s: State)
    requires P.Lawful(c.creds.pr)
  {
    && Credentials.Inv(c.creds, s.creds)
    && L.Inv(LinkSetup(c), s.links)
    && CapturedOk(c, s)
    && CallsOk(c, s.links.made, s.calls)
    && SentOk(s.links.made, s.sent)
    && ReadsCurrent(s.links.rows, s.calls)
  }

  // ----- Steps of the parts

  lemma GrowthKeepsCall(c: Setup, made: L.MadeMap, made': L.MadeMap, call: Call)
    requires L.MadeGrows(made, made') && CallOk(c, made, call)
    ensures CallOk(c, made', call)
  {
    hide L.Sub;
  }

  lemma GrowthKeepsCalls(c: Setup, s: State, made: L.MadeMap)
    requires L.MadeGrows(s.links.made, made) && CallsOk(c, s.links.made, s.calls) && SentOk(s.links.made, s.sent)
    ensures CallsOk(c, made, s.calls) && SentOk(made, s.sent)
  {
    hide CallOk;
    forall f | f in s.calls
      ensures CallOk(c, made, s.calls[f])
    {
      GrowthKeepsCall(c, s.links.made, made, s.calls[f]);
    }
  }

  lemma KeptKeys(c: Setup, s: State, t: State)
    requires P.Lawful(c.creds.pr) && CapturedOk(c, s) && Credentials.Keeps(s.creds, t.creds) && t.links == s.links
    ensures CapturedOk(c, t)
  {
    hide P.Lawful, Credentials.IsKeyOf, Credentials.Keeps;
    forall n | n in t.links.adding && t.links.adding[n].Checked?
      ensures IsKeyOf(c, t, t.links.adding[n].user, t.links.adding[n].key)
    {
      Credentials.KeepsKeys(c.creds, s.creds, t.creds, t.links.adding[n].user, t.links.adding[n].key);
    }
    forall a | a in t.links.made
      ensures IsKeyOf(c, t, t.links.made[a].user, t.links.made[a].key)
    {
      Credentials.KeepsKeys(c.creds, s.creds, t.creds, t.links.made[a].user, t.links.made[a].key);
    }
  }

  lemma CredsInv(c: Setup, s: State)
    requires P.Lawful(c.creds.pr) && Credentials.Inv(c.creds, s.creds)
    ensures Credentials.UsersOk(c.creds, s.creds.users, s.creds.origins)
  {
    hide P.Lawful, Credentials.UsersOk, Credentials.PuttingOk, Credentials.KeysOk;
  }

  lemma CredsStepKeepsInv(c: Setup, s: State, a: Step)
    requires Credentials.Sound(c.creds) && Inv(c, s) && L.Known(s.links) && Enabled(c, s, a) && a.Creds?
    ensures Inv(c, Do(c, s, a))
  {
    hide P.Lawful, P.CollisionFree, Crypto.Lawful, Credentials.Inv, Credentials.Do, Credentials.Enabled, Credentials.UsersOk,
         Credentials.Keeps, L.Inv, L.Known, L.Enabled, CapturedOk, CallsOk, SentOk, ReadsCurrent;
    CredsInv(c, s);
    Credentials.StepKeeps(c.creds, s.creds, a.cred);
    Credentials.StepKeepsInv(c.creds, s.creds, a.cred);
    KeptKeys(c, s, Do(c, s, a));
  }

  /** A link step captures no new key: what it makes, it makes with a key it had. */
  ghost predicate CapturesNothing(s: L.State, t: L.State) {
    && (forall n :: n in t.adding && t.adding[n].Checked? ==> n in s.adding && t.adding[n] == s.adding[n])
    && (forall a :: a in t.made && a !in s.made ==>
          exists n :: n in s.adding && s.adding[n].Checked? && t.made[a].user == s.adding[n].user && t.made[a].key == s.adding[n].key)
    && L.MadeGrows(s.made, t.made)
  }

  lemma CreateRowCaptures(c: L.Setup, s: L.State, a: L.Step)
    requires L.Known(s) && L.Enabled(c, s, a) && a.CreateRow? && L.MadeGrows(s.made, L.Do(c, s, a).made)
    ensures CapturesNothing(s, L.Do(c, s, a))
  {
    hide L.Known, L.MadeGrows, L.RowCreated, CapturesNothing;
    RowCreatedCaptures(s, a.n, a.acc);
  }

  lemma RowCreatedCaptures(s: L.State, n: nat, acc: AccountId)
    requires n in s.adding && s.adding[n].Checked? && acc !in s.rows && acc !in s.made
    requires L.MadeGrows(s.made, L.RowCreated(s, n, acc).made)
    ensures CapturesNothing(s, L.RowCreated(s, n, acc))
  {
    hide L.MadeGrows, Store.Create;
    var h, t := s.adding[n], L.RowCreated(s, n, acc);
    forall x | x in t.made && x !in s.made
      ensures n in s.adding && h.Checked? && t.made[x].user == h.user && t.made[x].key == h.key
    {
    }
  }

  lemma OtherStepMakesNothing(c: L.Setup, s: L.State, a: L.Step)
    requires L.Known(s) && L.Enabled(c, s, a) && !a.CheckKey? && !a.CreateRow? && !a.Save?
    ensures var t := L.Do(c, s, a);
            t.made.Keys == s.made.Keys && forall n :: n in t.adding && t.adding[n].Checked? ==> n in s.adding && t.adding[n] == s.adding[n]
  {
    hide Store.Delete, Store.SetSteamId, L.Sub;
    if !a.RecordReq? && !a.End? {
      assert L.Do(c, s, a).made == s.made;
    }
  }

  lemma LinkStepCapturesNothing(c: L.Setup, s: L.State, a: L.Step)
    requires Crypto.Lawful(c.cipher) && L.Inv(c, s) && L.Known(s) && L.Enabled(c, s, a) && !a.CheckKey?
    ensures CapturesNothing(s, L.Do(c, s, a))
  {
    hide Crypto.Lawful, L.Inv, L.Known, L.Enabled, L.MadeGrows, L.RowsEvolve, L.LinkSaved, L.RowCreated, L.ReqRecorded, L.LinkEnded;
    L.StepEvolves(c, s, a);
    EvolvedGrows(s, a, L.Do(c, s, a));
    if a.CreateRow? {
      CreateRowCaptures(c, s, a);
      hide L.Do, CapturesNothing;
    } else if a.Save? {
      SaveMakesNothing(c, s, a);
      hide L.Do;
    } else {
      OtherStepMakesNothing(c, s, a);
      hide L.Do;
    }
  }

  lemma EvolvedGrows(s: L.State, a: L.Step, t: L.State)
    requires L.RowsEvolve(s, a, t)
    ensures L.MadeGrows(s.made, t.made)
  {
    hide L.MadeGrows;
  }

  lemma SaveMakesNothing(c: L.Setup, s: L.State, a: L.Step)
    requires L.Known(s) && L.Enabled(c, s, a) && a.Save?
    ensures L.Do(c, s, a).made == s.made && L.Do(c, s, a).adding == s.adding
  {
    hide L.Known, L.LinkSaved;
    SavedMakesNothing(c, s, a.r, a.nonce, a.storeFails);
  }

  lemma SavedMakesNothing(c: L.Setup, s: L.State, r: nat, nonce: bytes, storeFails: bool)
    requires r in s.links && s.links[r].phase.Cleared? && s.links[r].phase.outcome.LinkOk? && |nonce| == Crypto.NONCE_SIZE
    ensures L.LinkSaved(c, s, r, nonce, storeFails).made == s.made && L.LinkSaved(c, s, r, nonce, storeFails).adding == s.adding
  {
    hide Crypto.Encrypt, Store.SaveRefreshToken;
  }

  lemma NothingCaptured(c: Setup, s: State, t: State)
    requires P.Lawful(c.creds.pr) && CapturedOk(c, s) && CapturesNothing(s.links, t.links) && t.creds == s.creds
    ensures CapturedOk(c, t)
  {
    hide P.Lawful, Credentials.IsKeyOf;
  }

  lemma LinkStepKeepsInv(c: Setup, s: State, a: Step)
    requires Credentials.Sound(c.creds) && Inv(c, s) && L.Known(s.links) && Enabled(c, s, a) && a.Links?
    ensures Inv(c, Do(c, s, a))
  {
    hide P.Lawful, P.CollisionFree, Crypto.Lawful, Credentials.Inv, Credentials.Enabled, L.Inv, L.Known, L.Enabled, L.Do,
         CapturedOk, CallsOk, SentOk, ReadsCurrent, CapturesNothing, L.MadeGrows, L.RowsEvolve;
    L.StepKeepsInv(LinkSetup(c), s.links, a.link);
    LinkStepCapturesNothing(LinkSetup(c), s.links, a.link);
    NothingCaptured(c, s, Do(c, s, a));
    CapturedGrows(s.links, Do(c, s, a).links);
    GrowthKeepsCalls(c, s, Do(c, s, a).links.made);
    L.StepEvolves(LinkSetup(c), s.links, a.link);
    EvolutionKeepsReads(c, s, a.link, Do(c, s, a).links);
  }

  lemma EvolutionKeepsReads(c: Setup, s: State, a: L.Step, t: L.State)
    requires L.RowsEvolve(s.links, a, t) && ReadsCurrent(s.links.rows, s.calls) && CallsOk(c, s.links.made, s.calls)
    ensures ReadsCurrent(t.rows, s.calls)
  {
    hide L.RowOk, L.MadeGrows, L.Sub;
    forall f | f in s.calls && (s.calls[f].RowRead? || s.calls[f].Sent? || s.calls[f].Replied?) && s.calls[f].acc in t.rows
      ensures t.rows[s.calls[f].acc] == s.calls[f].row
    {
      assert CallOk(c, s.links.made, s.calls[f]);
    }
  }

  lemma CapturedGrows(s: L.State, t: L.State)
    requires CapturesNothing(s, t)
    ensures L.MadeGrows(s.made, t.made)
  {
    hide L.MadeGrows;
  }

  // ----- Steps of the handlers

  lemma KeyReadKeepsCreds(c: Setup, s: State, user: UserId)
    requires Credentials.Sound(c.creds) && Credentials.Inv(c.creds, s.creds)
    ensures Credentials.Inv(c.creds, KeyRead(s, user))
    ensures KeyRead(s, user).users == s.creds.users && KeyRead(s, user).origins == s.creds.origins
    ensures ServedKey(s, user).Some? ==> IsKeyOf(c, s, user, ServedKey(s, user).value)
  {
    hide P.Lawful, P.CollisionFree, Crypto.Lawful, Credentials.Inv, Credentials.IsKeyOf, KeyCache.AfterGet;
    Credentials.StepKeepsInv(c.creds, s.creds, Credentials.GetKey(user));
    if ServedKey(s, user).Some? {
      Credentials.LookupIsKey(c.creds, s.creds, user);
    }
  }

  lemma SameCredsCaptured(c: Setup, s: State, t: State)
    requires P.Lawful(c.creds.pr) && CapturedOk(c, s)
    requires t.creds.users == s.creds.users && t.creds.origins == s.creds.origins && t.links.made == s.links.made
    requires forall n :: n in t.links.adding && t.links.adding[n].Checked? && !(n in s.links.adding && t.links.adding[n] == s.links.adding[n]) ==>
               IsKeyOf(c, s, t.links.adding[n].user, t.links.adding[n].key)
    ensures CapturedOk(c, t)
  {
    hide P.Lawful, Credentials.IsKeyOf;
  }

  lemma BeginAddKeepsInv(c: Setup, s: State, a: Step)
    requires Credentials.Sound(c.creds) && Inv(c, s) && L.Known(s.links) && Enabled(c, s, a) && a.BeginAdd?
    ensures Inv(c, Do(c, s, a))
  {
    hide P.Lawful, P.CollisionFree, Crypto.Lawful, Credentials.Inv, L.Inv, L.Known, CapturedOk, CallsOk, SentOk, ReadsCurrent,
         IsKeyOf, ServedKey, KeyRead;
    KeyReadKeepsCreds(c, s, a.user);
    var t := Do(c, s, a);
    if L.WellFormed(a.login) && ServedKey(s, a.user).Some? {
      L.StepKeepsInv(LinkSetup(c), s.links, L.CheckKey(a.n, a.user, a.login, ServedKey(s, a.user).value));
    }
    SameCredsCaptured(c, s, t);
  }

  lemma ReadRowKeepsInv(c: Setup, s: State, a: Step)
    requires P.Lawful(c.creds.pr) && Inv(c, s) && L.Known(s.links) && Enabled(c, s, a) && a.ReadRow?
    ensures Inv(c, Do(c, s, a))
  {
    hide P.Lawful, Credentials.Inv, L.Inv, L.Known, CapturedOk, SentOk, L.RowOk;
    RowView(c, s, a.acc);
    assert CallOk(c, s.links.made, RowRead(a.user, a.acc, s.links.rows[a.acc])) by { RowUser(c, s, a.acc); }
    hide CallOk, Store.IsRowOf, IsKeyOf;
    SameCaptured(c, s, Do(c, s, a));
  }

  lemma SameCaptured(c: Setup, s: State, t: State)
    requires P.Lawful(c.creds.pr) && CapturedOk(c, s) && t.creds == s.creds && t.links == s.links
    ensures CapturedOk(c, t)
  {
    hide P.Lawful, Credentials.IsKeyOf;
  }

  lemma RowView(c: Setup, s: State, acc: AccountId)
    requires L.Inv(LinkSetup(c), s.links) && acc in s.links.rows
    ensures acc in s.links.made && L.RowOk(LinkSetup(c), s.links.rows[acc], s.links.made[acc])
  {
    L.InvReports(LinkSetup(c), s.links);
    hide L.Inv, L.RowOk, L.LinksOk, L.EventsOk, L.CodesOk, Store.OneRowPerUser;
  }

  lemma RowUser(c: Setup, s: State, acc: AccountId)
    requires acc in s.links.rows && acc in s.links.made && L.RowOk(LinkSetup(c), s.links.rows[acc], s.links.made[acc])
    ensures s.links.rows[acc].user == s.links.made[acc].user
  {
  }

  /** The key served today opens the token read before, whichever login put either there. */
  lemma ReadTokenOpens(c: Setup, s: State, user: UserId, acc: AccountId, row: Store.Row, key: bytes)
    requires Credentials.Sound(c.creds) && CapturedOk(c, s) && IsKeyOf(c, s, user, key)
    requires ReadOk(c, s.links.made, acc, row) && s.links.made[acc].user == user
    ensures acc in s.links.made && s.links.made[acc].token.Some?
    ensures Crypto.Decrypt(c.creds.cipher, key, row.token, row.nonce) == Ok(s.links.made[acc].token.value)
  {
    hide P.Lawful, P.CollisionFree, Crypto.Lawful, Crypto.DeriveKey, Crypto.Decrypt, Crypto.Encrypt, L.Sub;
    var m := s.links.made[acc];
    assert IsKeyOf(c, s, m.user, m.key);
    assert key == m.key;
    Crypto.DecryptOfEncrypt(c.creds.cipher, m.key, m.token.value, row.nonce);
  }

  lemma SendTokenCall(c: Setup, s: State, f: nat)
    requires Credentials.Sound(c.creds) && Inv(c, s) && f in s.calls && s.calls[f].RowRead?
    requires ServedKey(s, s.calls[f].user).Some? ==> IsKeyOf(c, s, s.calls[f].user, ServedKey(s, s.calls[f].user).value)
    ensures var t := TokenSent(c, s, f);
            && f in t.calls && t.calls == s.calls[f := t.calls[f]] && CallOk(c, s.links.made, t.calls[f])
            && (t.calls[f].Sent? ==> t.calls[f].acc == s.calls[f].acc && t.calls[f].row == s.calls[f].row)
            && (t.calls[f].Sent? || t.calls[f].Done?)
            && (t.sent == s.sent ||
                (t.calls[f].Sent? && t.sent == s.sent + [Command(s.calls[f].user, s.calls[f].acc, t.calls[f].token)]))
            && t.links == s.links && t.creds == KeyRead(s, s.calls[f].user)
  {
    hide P.Lawful, P.CollisionFree, Crypto.Lawful, Credentials.Inv, L.Inv, CapturedOk, SentOk, ReadsCurrent,
         IsKeyOf, ServedKey, KeyRead, ReadOk, Crypto.Decrypt;
    var call := s.calls[f];
    assert CallOk(c, s.links.made, call);
    if ServedKey(s, call.user).Some? {
      ReadTokenOpens(c, s, call.user, call.acc, call.row, ServedKey(s, call.user).value);
    }
  }

  lemma SentGrows(made: L.MadeMap, sent: seq<Command>, m: Command)
    requires SentOk(made, sent) && CommandOk(made, m)
    ensures SentOk(made, sent + [m])
  {
    hide CommandOk;
  }

  lemma CallReplaced(c: Setup, s: State, calls: map<nat, Call>, f: nat)
    requires CallsOk(c, s.links.made, s.calls) && ReadsCurrent(s.links.rows, s.calls)
    requires f in s.calls && f in calls && calls == s.calls[f := calls[f]] && CallOk(c, s.links.made, calls[f])
    requires calls[f].Done? || (!s.calls[f].Undecryptable? && !s.calls[f].Done? && !calls[f].Undecryptable?
                                && calls[f].acc == s.calls[f].acc && calls[f].row == s.calls[f].row)
    ensures CallsOk(c, s.links.made, calls) && ReadsCurrent(s.links.rows, calls)
  {
    hide CallOk;
  }

  lemma SendTokenKeepsInv(c: Setup, s: State, a: Step)
    requires Credentials.Sound(c.creds) && Inv(c, s) && L.Known(s.links) && Enabled(c, s, a) && a.SendToken?
    ensures Inv(c, Do(c, s, a))
  {
    hide P.Lawful, P.CollisionFree, Crypto.Lawful, Credentials.Inv, L.Inv, L.Known, CapturedOk, CallsOk, SentOk, ReadsCurrent,
         IsKeyOf, ServedKey, KeyRead, TokenSent, ReadOk;
    var call := s.calls[a.f];
    KeyReadKeepsCreds(c, s, call.user);
    SendTokenCall(c, s, a.f);
    var t := Do(c, s, a);
    SameCredsCaptured(c, s, t);
    CallReplaced(c, s, t.calls, a.f);
    if t.sent != s.sent {
      CallHolds(c, s, a.f);
      CommandOfCall(c, s.links.made, call, t.calls[a.f]);
      SentGrows(s.links.made, s.sent, Command(call.user, call.acc, t.calls[a.f].token));
    }
  }

  lemma CommandOfCall(c: Setup, made: L.MadeMap, before: Call, after: Call)
    requires before.RowRead? && after.Sent? && after.acc == before.acc && CallOk(c, made, before) && CallOk(c, made, after)
    ensures CommandOk(made, Command(before.user, before.acc, after.token))
  {
    hide L.RowOk;
  }

  lemma CallHolds(c: Setup, s: State, f: nat)
    requires CallsOk(c, s.links.made, s.calls) && f in s.calls
    ensures CallOk(c, s.links.made, s.calls[f])
  {
    hide CallOk;
  }

  /** The Steam id is stored together with the token, so a reply naming the token's subject
      leaves nothing to backfill. */
  lemma NothingToBackfill(c: Setup, made: L.MadeMap, call: Call)
    requires call.Replied? && CallOk(c, made, call)
    ensures !WantsBackfill(call.row, call.owner)
  {
    hide L.Sub;
  }

  lemma ReplyKeepsInv(c: Setup, s: State, a: Step)
    requires P.Lawful(c.creds.pr) && Inv(c, s) && L.Known(s.links) && Enabled(c, s, a) && (a.Reply? || a.Backfill?)
    ensures Inv(c, Do(c, s, a))
  {
    hide P.Lawful, Credentials.Inv, L.Inv, L.Known, CapturedOk, CallsOk, SentOk, ReadsCurrent, ReadOk;
    CallHolds(c, s, a.f);
    if a.Backfill? {
      NothingToBackfill(c, s.links.made, s.calls[a.f]);
      hide WantsBackfill;
    }
    var t := Do(c, s, a);
    SameCaptured(c, s, t);
    CallReplaced(c, s, t.calls, a.f);
  }

  lemma StepKeepsInv(c: Setup, s: State, a: Step)
    requires Credentials.Sound(c.creds) && Inv(c, s) && L.Known(s.links) && Enabled(c, s, a)
    ensures Inv(c, Do(c, s, a))
  {
    hide P.Lawful, P.CollisionFree, Crypto.Lawful, Inv, L.Known, Do, Enabled;
    match a {
      case Creds(_) => CredsStepKeepsInv(c, s, a);
      case Links(_) => LinkStepKeepsInv(c, s, a);
      case BeginAdd(_, _, _) => BeginAddKeepsInv(c, s, a);
      case ReadRow(_, _, _) => ReadRowKeepsInv(c, s, a);
      case SendToken(_) => SendTokenKeepsInv(c, s, a);
      case Reply(_, _) => ReplyKeepsInv(c, s, a);
      case Backfill(_) => ReplyKeepsInv(c, s, a);
    }
  }

  lemma EmptyInv(c: Setup)
    requires P.Lawful(c.creds.pr)
    ensures Inv(c, EMPTY)
  {
    hide P.Lawful;
    Credentials.EmptyInv(c.creds);
    L.EmptyInv(LinkSetup(c));
    hide Credentials.Inv, L.Inv;
  }

  lemma {:induction false} RunKeepsInv(c: Setup, s: State, steps: seq<Step>, t: State)
    requires Credentials.Sound(c.creds) && Inv(c, s) && Runs(c, s, steps, t)
    ensures Inv(c, t)
    decreases |steps|
  {
    hide P.Lawful, P.CollisionFree, Crypto.Lawful, Inv, L.Known, Do, Enabled;
    if steps != [] {
      StepKeepsInv(c, s, steps[0]);
      RunKeepsInv(c, Do(c, s, steps[0]), steps[1..], t);
    }
  }

  lemma ReachableInv(c: Setup, s: State)
    requires Credentials.Sound(c.creds) && Reachable(c, s)
    ensures Inv(c, s)
  {
    hide P.Lawful, P.CollisionFree, Crypto.Lawful, Inv, Runs;
    var steps :| Runs(c, EMPTY, steps, s);
    EmptyInv(c);
    RunKeepsInv(c, EMPTY, steps, s);
  }

  // ----- What holds in every run

  /** Any refresh token sent in a ListFriends command is exactly the one the worker returned for
      that account, an account of the requesting user, whichever later login supplied the key. */
  lemma SentTokenIsTheReturnedToken(c: Setup, s: State, i: nat)
    requires Credentials.Sound(c.creds) && Reachable(c, s) && i < |s.sent|
    ensures var m := s.sent[i];
            m.acc in s.links.made && s.links.made[m.acc].user == m.user && s.links.made[m.acc].token == Some(m.token)
  {
    hide P.Lawful, P.CollisionFree, Crypto.Lawful, Inv, Reachable;
    ReachableInv(c, s);
    InvCalls(c, s);
    hide CallsOk;
    assert CommandOk(s.links.made, s.sent[i]);
  }

  lemma InvCalls(c: Setup, s: State)
    requires P.Lawful(c.creds.pr) && Inv(c, s)
    ensures CallsOk(c, s.links.made, s.calls) && SentOk(s.links.made, s.sent) && ReadsCurrent(s.links.rows, s.calls)
  {
    hide P.Lawful, Credentials.Inv, L.Inv, CapturedOk, CallsOk, SentOk, ReadsCurrent;
  }

  /** A handler that has the row and finds a key never fails to decrypt; and the row it works
      with stays the user's current one for as long as the account has a row. */
  lemma StoredTokenAlwaysOpens(c: Setup, s: State, f: nat)
    requires Credentials.Sound(c.creds) && Reachable(c, s) && f in s.calls
    ensures !s.calls[f].Undecryptable?
    ensures s.calls[f].RowRead? && ServedKey(s, s.calls[f].user).Some? ==>
              && TokenSent(c, s, f).calls[f].Sent? && s.calls[f].acc in s.links.made
              && s.links.made[s.calls[f].acc].token == Some(TokenSent(c, s, f).calls[f].token)
    ensures (s.calls[f].RowRead? || s.calls[f].Sent? || s.calls[f].Replied?) && s.calls[f].acc in s.links.rows ==>
              s.links.rows[s.calls[f].acc] == s.calls[f].row
  {
    hide P.Lawful, P.CollisionFree, Crypto.Lawful, Inv, Reachable, ReadOk, IsKeyOf, ServedKey, KeyRead, Crypto.Decrypt;
    ReachableInv(c, s);
    InvCalls(c, s);
    CallHolds(c, s, f);
    if s.calls[f].RowRead? && ServedKey(s, s.calls[f].user).Some? {
      var call := s.calls[f];
      InvCaptured(c, s);
      KeyReadKeepsCreds(c, s, call.user);
      ReadTokenOpens(c, s, call.user, call.acc, call.row, ServedKey(s, call.user).value);
    }
    hide CallsOk, SentOk;
  }

  lemma InvCaptured(c: Setup, s: State)
    requires P.Lawful(c.creds.pr) && Inv(c, s)
    ensures CapturedOk(c, s) && Credentials.Inv(c.creds, s.creds)
  {
    hide P.Lawful, Credentials.Inv, L.Inv, CapturedOk, CallsOk, SentOk, ReadsCurrent;
  }

  /** With a worker that reports a token's subject on both paths, the friends handler never
      backfills: every row with a token already has that token's subject as its Steam id. */
  lemma BackfillNeverFires(c: Setup, s: State, f: nat)
    requires Credentials.Sound(c.creds) && Reachable(c, s) && f in s.calls && s.calls[f].Replied?
    ensures !WantsBackfill(s.calls[f].row, s.calls[f].owner)
  {
    hide P.Lawful, P.CollisionFree, Crypto.Lawful, Inv, Reachable, WantsBackfill;
    ReachableInv(c, s);
    InvCalls(c, s);
    CallHolds(c, s, f);
    NothingToBackfill(c, s.links.made, s.calls[f]);
  }

  // ----- Every run here is a run of AccountLinks

  lemma {:induction false} Projects(c: Setup, s: State, steps: seq<Step>, t: State) returns (projected: seq<L.Step>)
    requires Credentials.Sound(c.creds) && Inv(c, s) && Runs(c, s, steps, t)
    ensures L.Runs(LinkSetup(c), s.links, projected, t.links)
    decreases |steps|
  {
    hide P.Lawful, P.CollisionFree, Crypto.Lawful, Inv, L.Known, Do, Enabled, L.Do, L.Enabled;
    if steps == [] {
      projected := [];
    } else {
      var a := steps[0];
      StepKeepsInv(c, s, a);
      var rest := Projects(c, Do(c, s, a), steps[1..], t);
      var first := ProjectedStep(c, s, a);
      if first.None? {
        projected := rest;
      } else {
        projected := [first.value] + rest;
        assert projected[1..] == rest;
      }
    }
  }

  /** The step of AccountLinks that a step here is, if it is one. */
  lemma ProjectedStep(c: Setup, s: State, a: Step) returns (b: Option<L.Step>)
    requires Credentials.Sound(c.creds) && Inv(c, s) && L.Known(s.links) && Enabled(c, s, a)
    ensures b.None? ==> Do(c, s, a).links == s.links
    ensures b.Some? ==> L.Enabled(LinkSetup(c), s.links, b.value) && Do(c, s, a).links == L.Do(LinkSetup(c), s.links, b.value)
  {
    hide P.Lawful, P.CollisionFree, Crypto.Lawful, Inv, L.Known, WantsBackfill, ServedKey, KeyRead, Credentials.Do, Credentials.Enabled;
    if a.Links? {
      b := Some(a.link);
    } else if a.BeginAdd? && L.WellFormed(a.login) && ServedKey(s, a.user).Some? {
      b := Some(L.CheckKey(a.n, a.user, a.login, ServedKey(s, a.user).value));
    } else {
      b := None;
      if a.Backfill? {
        InvCalls(c, s);
        CallHolds(c, s, a.f);
        NothingToBackfill(c, s.links.made, s.calls[a.f]);
      }
    }
  }

  lemma ReachableInLinks(c: Setup, s: State)
    requires Credentials.Sound(c.creds) && Reachable(c, s)
    ensures L.Reachable(LinkSetup(c), s.links)
  {
    hide P.Lawful, P.CollisionFree, Crypto.Lawful, Inv, Runs, L.Runs;
    var steps :| Runs(c, EMPTY, steps, s);
    EmptyInv(c);
    var projected := Projects(c, EMPTY, steps, s);
  }

  // ----- The current row, and a row that is gone

  /** The row of acc is what the user's row is now. */
  predicate IsCurrent(rows: Store.Table, user: UserId, acc: AccountId, row: Store.Row) {
    Store.IsRowOf(rows, user, acc) && rows[acc] == row
  }

  /** A handler that finds a key sends the token it read. The row it was read from is the user's
      current row exactly when the account still has its row; otherwise the user's row, if there
      is one, is another account's, whatever token that holds. */
  lemma SendsCurrentTokenExactly(c: Setup, s: State, f: nat)
    requires Credentials.Sound(c.creds) && Reachable(c, s)
    requires f in s.calls && s.calls[f].RowRead? && ServedKey(s, s.calls[f].user).Some?
    ensures var call, t := s.calls[f], TokenSent(c, s, f);
            && t.calls[f].Sent? && t.sent == s.sent + [Command(call.user, call.acc, t.calls[f].token)]
            && call.acc in s.links.made && s.links.made[call.acc].token == Some(t.calls[f].token)
            && (IsCurrent(s.links.rows, call.user, call.acc, call.row) <==> call.acc in s.links.rows)
            && (call.acc !in s.links.rows ==> forall a :: Store.IsRowOf(s.links.rows, call.user, a) ==> a != call.acc)
  {
    hide P.Lawful, P.CollisionFree, Crypto.Lawful, Inv, Reachable, IsKeyOf, Crypto.Decrypt, ReadOk, ServedKey, KeyRead;
    StoredTokenAlwaysOpens(c, s, f);
    ReachableInv(c, s);
    InvCalls(c, s);
    CallHolds(c, s, f);
    RowReadUser(c, s, f);
  }

  lemma RowReadUser(c: Setup, s: State, f: nat)
    requires P.Lawful(c.creds.pr) && Inv(c, s) && f in s.calls && s.calls[f].RowRead?
    requires CallOk(c, s.links.made, s.calls[f])
    ensures s.calls[f].row.user == s.calls[f].user
  {
    hide P.Lawful, Inv, L.Sub;
  }

  lemma {:induction false} RunsAppend(c: Setup, s: State, a: seq<Step>, m: State, b: seq<Step>, t: State)
    requires P.Lawful(c.creds.pr) && Runs(c, s, a, m) && Runs(c, m, b, t)
    ensures Runs(c, s, a + b, t)
    decreases |a|
  {
    hide P.Lawful, L.Known, Do, Enabled;
    if a == [] {
      assert a + b == b;
    } else {
      RunsAppend(c, Do(c, s, a[0]), a[1..], m, b, t);
      assert (a + b)[1..] == a[1..] + b;
    }
  }

  lemma ReachableStep(c: Setup, s: State, a: Step)
    requires P.Lawful(c.creds.pr) && Reachable(c, s) && L.Known(s.links) && Enabled(c, s, a)
    ensures Reachable(c, Do(c, s, a))
  {
    hide P.Lawful, L.Known, Do, Enabled;
    var steps :| Runs(c, EMPTY, steps, s);
    assert Runs(c, s, [a], Do(c, s, a)) by { assert [a][1..] == []; }
    RunsAppend(c, EMPTY, steps, s, [a], Do(c, s, a));
  }

  /** Steps of AccountLinks alone, taken here. */
  lemma {:induction false} ReachableLinkRun(c: Setup, s: State, steps: seq<L.Step>, links: L.State)
    requires P.Lawful(c.creds.pr) && Reachable(c, s) && L.Runs(LinkSetup(c), s.links, steps, links)
    requires forall b :: b in steps ==> !b.CheckKey? && !b.BackfillId?
    ensures Reachable(c, s.(links := links))
    decreases |steps|
  {
    hide P.Lawful, L.Known, L.Do, L.Enabled, Reachable;
    if steps == [] {
      assert s.(links := links) == s;
    } else {
      ReachableStep(c, s, Links(steps[0]));
      ReachableLinkRun(c, Do(c, s, Links(steps[0])), steps[1..], links);
    }
  }

  const USER: UserId := "u"
  const SALT: bytes := [0, 0, 0, 0, 0, 0, 0, 0, 0, 0, 0, 0, 0, 0, 0, 0]
  const NONCE: bytes := [0, 0, 0, 0, 0, 0, 0, 0, 0, 0, 0, 0]

  /** A user has registered, and the handler has cached the key. */
  lemma KeyCached(c: Setup) returns (s: State)
    requires Credentials.Sound(c.creds) && P.NewHasher(c.creds.hasher.pepper) == Some(c.creds.hasher)
    requires "a" in c.creds.passwords && c.creds.ttl > 0
    ensures Reachable(c, s) && s.links == L.EMPTY && s.calls == map[] && s.sent == []
    ensures ServedKey(s, USER).Some? && |ServedKey(s, USER).value| == Crypto.KEY_SIZE
  {
    hide P.CollisionFree, Crypto.Lawful, L.Known, Reachable, P.EncodePHC;
    EmptyReachable(c);
    var register := Creds(Credentials.Register(0, USER, "u", "a", SALT, SALT));
    assert P.Hash(c.creds.pr, c.creds.hasher, "a", SALT).Returned?;
    ReachableStep(c, EMPTY, register);
    var s1 := Do(c, EMPTY, register);
    var put := Creds(Credentials.PutKey(0));
    ReachableStep(c, s1, put);
    s := Do(c, s1, put);
  }

  lemma EmptyReachable(c: Setup)
    requires P.Lawful(c.creds.pr)
    ensures Reachable(c, EMPTY) && L.Known(EMPTY.links)
  {
    hide P.Lawful;
    assert Runs(c, EMPTY, [], EMPTY);
  }

  lemma KnownHere(c: Setup, s: State)
    requires Credentials.Sound(c.creds) && Reachable(c, s)
    ensures L.Known(s.links)
  {
    hide P.Lawful, P.CollisionFree, Crypto.Lawful, Inv, Reachable, L.Known;
    ReachableInv(c, s);
    LinksInv(c, s);
    L.InvKnown(LinkSetup(c), s.links);
  }

  lemma LinksInv(c: Setup, s: State)
    requires P.Lawful(c.creds.pr) && Inv(c, s)
    ensures L.Inv(LinkSetup(c), s.links)
  {
    hide P.Lawful, Credentials.Inv, L.Inv, CapturedOk, CallsOk, SentOk, ReadsCurrent;
  }

  /** It happens: the account is deleted between the friends handler's read and its send, and the
      token sent is that of an account the user no longer has. */
  lemma DeletedTokenIsSent() returns (c: Setup, s: State)
    ensures Credentials.Sound(c.creds) && Reachable(c, s)
    ensures |s.sent| == 1 && s.sent[0].user == USER && s.links.rows == map[]
  {
    var creds := Credentials.SoundIsPossible();
    c := Setup(creds, _ => Jwt.NotJson, _ => None);
    hide P.Lawful, P.CollisionFree, Crypto.Lawful, Reachable, L.Known, L.Runs, ServedKey, KeyRead, TokenSent;
    var s0 := KeyCached(c);
    KnownHere(c, s0);
    var key := ServedKey(s0, USER).value;
    ReachableStep(c, s0, BeginAdd(0, USER, L.QR));
    var s1 := Do(c, s0, BeginAdd(0, USER, L.QR));
    KeySurvivesRead(s0, USER);
    var steps, links := L.LinkAlone(LinkSetup(c), USER, key, "token", NONCE);
    ReachableLinkRun(c, s1, steps, links);
    var s2 := s1.(links := links);
    SameKeyServed(s0, s2, USER);
    s := DeletedAfterRead(c, s2, 0);
  }

  lemma KeySurvivesRead(s: State, user: UserId)
    requires ServedKey(s, user).Some?
    ensures KeyRead(s, user) == s.creds
  {
  }

  lemma DeletedAfterRead(c: Setup, s: State, acc: AccountId) returns (t: State)
    requires Credentials.Sound(c.creds) && Reachable(c, s) && s.calls == map[] && s.sent == []
    requires s.links.rows.Keys == {acc} && Store.IsRowOf(s.links.rows, USER, acc) && s.links.rows[acc].token != []
    requires ServedKey(s, USER).Some?
    ensures Reachable(c, t) && |t.sent| == 1 && t.sent[0].user == USER && t.links.rows == map[]
  {
    hide P.Lawful, P.CollisionFree, Crypto.Lawful, Reachable, L.Known, ServedKey, KeyRead, TokenSent;
    KnownHere(c, s);
    ReachableStep(c, s, ReadRow(0, USER, acc));
    var s1 := Do(c, s, ReadRow(0, USER, acc));
    KnownHere(c, s1);
    ReachableStep(c, s1, Links(L.Delete(USER, acc)));
    var s2 := Do(c, s1, Links(L.Delete(USER, acc)));
    assert s2.links.rows == map[];
    KnownHere(c, s2);
    SameKeyServed(s, s2, USER);
    SendsCurrentTokenExactly(c, s2, 0);
    ReachableStep(c, s2, SendToken(0));
    t := Do(c, s2, SendToken(0));
    SendKeepsRows(c, s2, 0);
  }

  lemma SameKeyServed(s: State, t: State, user: UserId)
    requires t.creds == s.creds
    ensures ServedKey(t, user) == ServedKey(s, user)
  {
  }

  lemma SendKeepsRows(c: Setup, s: State, f: nat)
    requires f in s.calls && s.calls[f].RowRead?
    ensures TokenSent(c, s, f).links == s.links
  {
    hide Crypto.Decrypt;
  }

  // ----- Every run here is a run of Credentials

  /** The step of Credentials that a step here is, if it is one: a handler that reads the key
      takes a GetKey. */
  ghost function CredStep(s: State, a: Step): seq<Credentials.Step> {
    match a
    case Creds(b) => [b]
    case BeginAdd(_, user, login) => if L.WellFormed(login) then [Credentials.GetKey(user)] else []
    case SendToken(f) => if f in s.calls && s.calls[f].RowRead? then [Credentials.GetKey(s.calls[f].user)] else []
    case _ => []
  }

  ghost function CredSteps(c: Setup, s: State, steps: seq<Step>): seq<Credentials.Step>
    requires P.Lawful(c.creds.pr)
    decreases |steps|
  {
    if steps == [] || !L.Known(s.links) || !Enabled(c, s, steps[0]) then []
    else CredStep(s, steps[0]) + CredSteps(c, Do(c, s, steps[0]), steps[1..])
  }

  lemma CredStepIs(c: Setup, s: State, a: Step)
    requires P.Lawful(c.creds.pr) && L.Known(s.links) && Enabled(c, s, a)
    ensures CredStep(s, a) == [] ==> Do(c, s, a).creds == s.creds
    ensures CredStep(s, a) != [] ==>
              && |CredStep(s, a)| == 1 && Credentials.Enabled(c.creds, s.creds, CredStep(s, a)[0])
              && Do(c, s, a).creds == Credentials.Do(c.creds, s.creds, CredStep(s, a)[0])
  {
    hide P.Lawful, L.Known, L.Do, L.Enabled, Credentials.Registered, Credentials.LoggedIn, KeyCache.AfterGet, Crypto.Decrypt,
         ServedKey, WantsBackfill;
  }

  lemma {:induction false} RunsInCreds(c: Setup, s: State, steps: seq<Step>, t: State)
    requires P.Lawful(c.creds.pr) && Runs(c, s, steps, t)
    ensures Credentials.Runs(c.creds, s.creds, CredSteps(c, s, steps), t.creds)
    decreases |steps|
  {
    hide P.Lawful, L.Known, Do, Enabled, CredStep, Credentials.Do, Credentials.Enabled;
    if steps != [] {
      var u := Do(c, s, steps[0]);
      CredStepIs(c, s, steps[0]);
      RunsInCreds(c, u, steps[1..], t);
      var first, rest := CredStep(s, steps[0]), CredSteps(c, u, steps[1..]);
      if first == [] {
        assert first + rest == rest;
      } else {
        assert first == [first[0]] && (first + rest)[1..] == rest;
      }
    }
  }

  /** In every run of all the handlers, a key is served for a user if and only if the last time
      one was cached for the user or the user logged out, this key was cached, less than ttl ago. */
  lemma ServedExactly(c: Setup, steps: seq<Step>, s: State, u: UserId, key: bytes)
    requires P.Lawful(c.creds.pr) && Runs(c, EMPTY, steps, s)
    ensures var creds := CredSteps(c, EMPTY, steps);
            ServedKey(s, u) == Some(key) <==>
            exists i :: KeyCache.LastPut(Credentials.KeyOps(c.creds, Credentials.EMPTY, creds), c.creds.ttl, u,
                                         Credentials.Clock(0, creds), key, i)
  {
    hide P.Lawful, Runs, CredSteps, Credentials.Runs, Credentials.KeyOps, KeyCache.LastPut, KeyCache.Lookup;
    RunsInCreds(c, EMPTY, steps, s);
    Credentials.ServedExactly(c.creds, CredSteps(c, EMPTY, steps), s.creds, u, key);
  }

  /** After a logout, and until a key is cached for the user again, no handler gets the user's
      token: a friends handler ends with 401 and sends nothing, an add is refused. */
  lemma NothingSentAfterLogout(c: Setup, s: State, u: UserId, steps: seq<Step>, t: State, f: nat)
    requires P.Lawful(c.creds.pr) && L.Known(s.links) && Runs(c, Do(c, s, Creds(Credentials.Logout(u))), steps, t)
    requires Credentials.NoPutFor(c.creds, Credentials.Do(c.creds, s.creds, Credentials.Logout(u)),
                                  CredSteps(c, Do(c, s, Creds(Credentials.Logout(u))), steps), u)
    ensures ServedKey(t, u) == None
    ensures f in t.calls && t.calls[f].RowRead? && t.calls[f].user == u ==>
              TokenSent(c, t, f).sent == t.sent && TokenSent(c, t, f).calls[f] == Done
    ensures forall n, login :: n !in t.links.adding ==> AddBegun(t, n, u, login).links == t.links
  {
    hide P.Lawful, L.Known, Runs, CredSteps, Credentials.Runs, Credentials.NoPutFor, Credentials.Do, KeyCache.Lookup, KeyRead, Crypto.Decrypt;
    var v := Do(c, s, Creds(Credentials.Logout(u)));
    RunsInCreds(c, v, steps, t);
    Credentials.NothingServedAfterLogout(c.creds, s.creds, u, CredSteps(c, v, steps), t.creds);
  }

  // ----- Progress

  /** A friends handler can always take its next step; one begins exactly when the user has a row
      with a token; and what it reads is that row. */
  lemma FriendsHandlersGoOn(c: Setup, s: State, f: nat)
    requires P.Lawful(c.creds.pr) && L.Known(s.links)
    ensures f in s.calls ==>
              match s.calls[f]
              case RowRead(_, _, _) => Enabled(c, s, SendToken(f))
              case Sent(_, _, _) => Enabled(c, s, Reply(f, None)) && Do(c, s, Reply(f, None)).calls[f] == Done
              case Replied(_, _, _) => Enabled(c, s, Backfill(f)) && Do(c, s, Backfill(f)).calls[f] == Done
              case _ => true
    ensures f !in s.calls ==> forall user, acc ::
              Enabled(c, s, ReadRow(f, user, acc)) <==> acc in s.links.rows && s.links.rows[acc].user == user && s.links.rows[acc].token != []
    ensures forall user, acc :: Enabled(c, s, ReadRow(f, user, acc)) ==>
              Do(c, s, ReadRow(f, user, acc)).calls[f] == RowRead(user, acc, s.links.rows[acc])
    ensures f in s.calls && s.calls[f].Sent? ==> forall owner: string ::
              Jwt.SteamIdFromJwt(c.claims, s.calls[f].token) == Some(owner) ==>
              Enabled(c, s, Reply(f, Some(owner))) && Do(c, s, Reply(f, Some(owner))).calls[f] == Replied(s.calls[f].acc, s.calls[f].row, owner)
  {
    hide P.Lawful, L.Known, Jwt.SteamIdFromJwt, WantsBackfill, ServedKey, KeyRead;
  }

  /** An add goes on exactly if both credentials or neither are given and a key is served for the
      user, with that key and those credentials; otherwise it ends with 400 or 401. */
  lemma AddBeginsExactly(c: Setup, s: State, n: nat, user: UserId, login: L.Login)
    requires n !in s.links.adding
    ensures var t := AddBegun(s, n, user, login);
            && (n in t.links.adding <==> (login.username == "" <==> login.password == "") && ServedKey(s, user).Some?)
            && (n in t.links.adding ==> t.links.adding[n] == L.Checked(user, login, ServedKey(s, user).value))
            && t.links.rows == s.links.rows && t.links.links == s.links.links
  {
    hide ServedKey, KeyRead;
  }

  /** A friends handler sends exactly if a key is served for its user, and then the token it read,
      decrypted; with none it ends with 401. */
  lemma SendsExactly(c: Setup, s: State, f: nat)
    requires Credentials.Sound(c.creds) && Reachable(c, s) && f in s.calls && s.calls[f].RowRead?
    ensures var (t, call) := (TokenSent(c, s, f), s.calls[f]);
            if ServedKey(s, call.user).Some? then
              && t.calls[f].Sent? && t.calls[f].acc == call.acc && t.calls[f].row == call.row
              && Crypto.Decrypt(c.creds.cipher, ServedKey(s, call.user).value, call.row.token, call.row.nonce) == Ok(t.calls[f].token)
              && t.sent == s.sent + [Command(call.user, call.acc, t.calls[f].token)]
            else t.calls[f] == Done && t.sent == s.sent
  {
    hide P.Lawful, P.CollisionFree, Crypto.Lawful, Reachable, ServedKey, KeyRead, Crypto.Decrypt;
    StoredTokenAlwaysOpens(c, s, f);
  }

  /** The backfill writes exactly when the row it read has no Steam id and the reply names one. */
  lemma BackfillsExactly(row: Store.Row, owner: string)
    ensures WantsBackfill(row, owner) <==> row.steamId == "" && owner != ""
  {
  }
}
