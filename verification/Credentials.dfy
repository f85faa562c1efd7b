/** Where credential keys come from (api/auth.go): registering and logging in put a key derived
    from the password into the cache, logging out and expiry take it away. Handlers interleave:
    creating the user, or checking the password, and putting the key are separate steps. */
module Credentials {
  import opened Wrappers
  import Crypto
  import KeyCache
  import P = PasswordHash

  type bytes = Crypto.bytes
  type UserId = string

  /** The server's fixed collaborators: cryptography, the password hasher, the key lifetime; and
      the passwords that occur in a run, any finite set of them. */
  datatype Setup = Setup(pr: P.Primitives, cipher: Crypto.Cipher, hasher: P.Hasher, ttl: int, passwords: set<string>)

  /** What is assumed of them; of the hash, that the passwords of the run do not collide. */
  ghost predicate Sound(c: Setup) {
    P.Lawful(c.pr) && P.CollisionFree(c.pr, c.hasher, c.passwords) && Crypto.Lawful(c.cipher)
  }

  datatype User = User(name: string, hash: string, kdfSalt: bytes)

  type Users = map<UserId, User>

  /** What a user registered with: history that no step reads. */
  datatype Origin = Origin(password: string, hashSalt: bytes)

  type Origins = map<UserId, Origin>

  /** A handler that has the key and is about to cache it. */
  datatype Putting = Putting(user: UserId, key: bytes)

  datatype State = State(now: int, users: Users, origins: Origins, keys: KeyCache.Entries, putting: map<nat, Putting>)

  const EMPTY := State(0, map[], map[], map[], map[])

  /** n names a handler, u the row created or found by name. */
  datatype Step =
    | Tick(t: int)
    | Register(n: nat, u: UserId, name: string, password: string, hashSalt: bytes, kdfSalt: bytes)
    | Login(n: nat, u: UserId, tried: string)
    | PutKey(n: nat)
    | Logout(u: UserId)
    | GetKey(u: UserId)

  predicate NameTaken(users: Users, name: string) {
    exists u :: u in users && users[u].name == name
  }

  ghost predicate Enabled(c: Setup, s: State, a: Step) {
    match a
    case Tick(t) => s.now <= t
    case Register(n, u, name, password, hashSalt, kdfSalt) =>
      n !in s.putting && u !in s.users && password in c.passwords
      && |hashSalt| == c.hasher.params.saltLen && |kdfSalt| == Crypto.KDF_SALT_SIZE
    case Login(n, u, tried) => n !in s.putting && u in s.users && tried in c.passwords
    case PutKey(n) => n in s.putting
    case Logout(_) => true
    case GetKey(_) => true
  }

  /** An empty or duplicate name, an empty password, or a hash that panics, creates nobody. */
  ghost function Registered(c: Setup, s: State, n: nat, u: UserId, name: string, password: string, hashSalt: bytes,
                            kdfSalt: bytes): State
    requires P.Lawful(c.pr) && |hashSalt| == c.hasher.params.saltLen
  {
    var hash := P.Hash(c.pr, c.hasher, password, hashSalt);
    if name == "" || password == "" || !hash.Returned? || NameTaken(s.users, name) then s
    else s.(users := s.users[u := User(name, hash.value, kdfSalt)],
            origins := s.origins[u := Origin(password, hashSalt)],
            putting := s.putting[n := Putting(u, Crypto.DeriveKey(c.pr, c.cipher, password, kdfSalt))])
  }

  /** A wrong password, or a verification that fails, changes nothing. */
  ghost function LoggedIn(c: Setup, s: State, n: nat, u: UserId, tried: string): State
    requires P.Lawful(c.pr) && u in s.users
  {
    if P.Verify(c.pr, c.hasher, tried, s.users[u].hash) != P.Returned(true) then s
    else s.(putting := s.putting[n := Putting(u, Crypto.DeriveKey(c.pr, c.cipher, tried, s.users[u].kdfSalt))])
  }

  ghost function Do(c: Setup, s: State, a: Step): State
    requires P.Lawful(c.pr) && Enabled(c, s, a)
  {
    match a
    case Tick(t) => s.(now := t)
    case Register(n, u, name, password, hashSalt, kdfSalt) => Registered(c, s, n, u, name, password, hashSalt, kdfSalt)
    case Login(n, u, tried) => LoggedIn(c, s, n, u, tried)
    case PutKey(n) =>
      s.(keys := KeyCache.Put(s.keys, c.ttl, s.putting[n].user, s.putting[n].key, s.now), putting := s.putting - {n})
    case Logout(u) => s.(keys := KeyCache.Delete(s.keys, u))
    case GetKey(u) => s.(keys := KeyCache.AfterGet(s.keys, u, s.now))
  }

  ghost predicate Runs(c: Setup, s: State, steps: seq<Step>, t: State)
    requires P.Lawful(c.pr)
    decreases |steps|
  {
    if steps == [] then s == t
    else Enabled(c, s, steps[0]) && Runs(c, Do(c, s, steps[0]), steps[1..], t)
  }

  ghost predicate Reachable(c: Setup, s: State)
    requires P.Lawful(c.pr)
  {
    exists steps :: Runs(c, EMPTY, steps, s)
  }

  // ----- One key per user

  /** The stored hash is the one of the registered password. */
  ghost predicate HashedFrom(c: Setup, user: User, o: Origin) {
    && |o.hashSalt| == c.hasher.params.saltLen && o.password in c.passwords
    && P.Hash(c.pr, c.hasher, o.password, o.hashSalt) == P.Returned(user.hash)
  }

  /** The key of a user: the registered password's, under the user's own salt. */
  ghost predicate IsKeyOf(c: Setup, users: Users, origins: Origins, u: UserId, key: bytes)
    requires P.Lawful(c.pr)
  {
    u in users && u in origins && key == Crypto.DeriveKey(c.pr, c.cipher, origins[u].password, users[u].kdfSalt)
  }

  ghost predicate UsersOk(c: Setup, users: Users, origins: Origins) {
    && origins.Keys == users.Keys
    && (forall u :: u in users ==> HashedFrom(c, users[u], origins[u]))
    && (forall u, v :: u in users && v in users && users[u].name == users[v].name ==> u == v)
  }

  ghost predicate PuttingOk(c: Setup, users: Users, origins: Origins, putting: map<nat, Putting>)
    requires P.Lawful(c.pr)
  {
    forall n :: n in putting ==> IsKeyOf(c, users, origins, putting[n].user, putting[n].key)
  }

  ghost predicate KeysOk(c: Setup, users: Users, origins: Origins, keys: KeyCache.Entries)
    requires P.Lawful(c.pr)
  {
    forall u :: u in keys ==> IsKeyOf(c, users, origins, u, keys[u].key)
  }

  ghost predicate Inv(c: Setup, s: State)
    requires P.Lawful(c.pr)
  {
    && UsersOk(c, s.users, s.origins)
    && PuttingOk(c, s.users, s.origins, s.putting)
    && KeysOk(c, s.users, s.origins, s.keys)
  }

  /** t extends s: no registered user changes. */
  ghost predicate Keeps(s: State, t: State) {
    && (forall u :: u in s.users ==> u in t.users && t.users[u] == s.users[u])
    && (forall u :: u in s.origins ==> u in t.origins && t.origins[u] == s.origins[u])
  }

  lemma KeepsKeys(c: Setup, s: State, t: State, u: UserId, key: bytes)
    requires P.Lawful(c.pr) && Keeps(s, t) && IsKeyOf(c, s.users, s.origins, u, key)
    ensures IsKeyOf(c, t.users, t.origins, u, key)
  {
    hide Crypto.DeriveKey, P.Lawful;
  }

  lemma NewUserOk(c: Setup, users: Users, origins: Origins, u: UserId, user: User, o: Origin)
    requires UsersOk(c, users, origins) && u !in users && HashedFrom(c, user, o) && !NameTaken(users, user.name)
    ensures UsersOk(c, users[u := user], origins[u := o])
  {
    hide HashedFrom;
  }

  lemma RegisterKeeps(c: Setup, s: State, a: Step)
    requires P.Lawful(c.pr) && UsersOk(c, s.users, s.origins) && Enabled(c, s, a) && a.Register?
    ensures Keeps(s, Do(c, s, a)) && UsersOk(c, Do(c, s, a).users, Do(c, s, a).origins)
  {
    hide Crypto.DeriveKey, P.Lawful, P.Hash, UsersOk, NameTaken;
    var hash := P.Hash(c.pr, c.hasher, a.password, a.hashSalt);
    OriginsMatch(c, s.users, s.origins);
    if a.name != "" && a.password != "" && hash.Returned? && !NameTaken(s.users, a.name) {
      NewUserOk(c, s.users, s.origins, a.u, User(a.name, hash.value, a.kdfSalt), Origin(a.password, a.hashSalt));
    }
    hide HashedFrom;
  }

  lemma OriginsMatch(c: Setup, users: Users, origins: Origins)
    requires UsersOk(c, users, origins)
    ensures origins.Keys == users.Keys
  {
    hide HashedFrom;
  }

  lemma StepKeeps(c: Setup, s: State, a: Step)
    requires P.Lawful(c.pr) && UsersOk(c, s.users, s.origins) && Enabled(c, s, a)
    ensures Keeps(s, Do(c, s, a))
  {
    hide Crypto.DeriveKey, P.Lawful, P.Hash, P.Verify, Registered, UsersOk, KeyCache.Put, KeyCache.Delete, KeyCache.AfterGet;
    if a.Register? {
      RegisterKeeps(c, s, a);
      hide Do, Enabled, Keeps;
    }
  }

  /** A login that verifies was made with the registered password, so it derives the same key. */
  lemma LoginDerivesTheKey(c: Setup, s: State, u: UserId, tried: string)
    requires Sound(c) && UsersOk(c, s.users, s.origins) && u in s.users
    requires tried in c.passwords && P.Verify(c.pr, c.hasher, tried, s.users[u].hash) == P.Returned(true)
    ensures IsKeyOf(c, s.users, s.origins, u, Crypto.DeriveKey(c.pr, c.cipher, tried, s.users[u].kdfSalt))
  {
    hide Crypto.DeriveKey, P.Lawful, P.CollisionFree, P.Hash, P.Verify, Crypto.Lawful;
    var o := s.origins[u];
    assert HashedFrom(c, s.users[u], o);
    P.VerifyAcceptsOnlyThePassword(c.pr, c.hasher, c.passwords, o.password, o.hashSalt, tried);
  }

  lemma RegisterKeepsInv(c: Setup, s: State, a: Step)
    requires Sound(c) && Inv(c, s) && Enabled(c, s, a) && a.Register?
    ensures Inv(c, Do(c, s, a))
  {
    hide Crypto.DeriveKey, P.Lawful, P.CollisionFree, P.Hash, P.Verify, Crypto.Lawful, UsersOk, Keeps, NameTaken;
    var t := Do(c, s, a);
    RegisterKeeps(c, s, a);
    if t != s {
      forall n | n in t.putting
        ensures IsKeyOf(c, t.users, t.origins, t.putting[n].user, t.putting[n].key)
      {
        if n != a.n {
          KeepsKeys(c, s, t, s.putting[n].user, s.putting[n].key);
        }
      }
      forall u | u in t.keys
        ensures IsKeyOf(c, t.users, t.origins, u, t.keys[u].key)
      {
        KeepsKeys(c, s, t, u, s.keys[u].key);
      }
    }
  }

  lemma LoginKeepsInv(c: Setup, s: State, a: Step)
    requires Sound(c) && Inv(c, s) && Enabled(c, s, a) && a.Login?
    ensures Inv(c, Do(c, s, a))
  {
    hide Crypto.DeriveKey, P.Lawful, P.CollisionFree, P.Hash, P.Verify, Crypto.Lawful, UsersOk, IsKeyOf, KeysOk, Registered;
    if P.Verify(c.pr, c.hasher, a.tried, s.users[a.u].hash) == P.Returned(true) {
      LoginDerivesTheKey(c, s, a.u, a.tried);
    }
  }

  lemma StepKeepsInv(c: Setup, s: State, a: Step)
    requires Sound(c) && Inv(c, s) && Enabled(c, s, a)
    ensures Inv(c, Do(c, s, a))
  {
    hide Crypto.DeriveKey, P.Lawful, P.CollisionFree, P.Hash, P.Verify, Crypto.Lawful, UsersOk, IsKeyOf, Registered, LoggedIn;
    if a.Register? {
      RegisterKeepsInv(c, s, a);
      hide Do, Enabled, Inv;
    } else if a.Login? {
      LoginKeepsInv(c, s, a);
      hide Do, Enabled, Inv;
    }
  }

  lemma EmptyInv(c: Setup)
    requires P.Lawful(c.pr)
    ensures Inv(c, EMPTY)
  {
    hide Crypto.DeriveKey, P.Lawful;
  }

  lemma {:induction false} RunKeepsInv(c: Setup, s: State, steps: seq<Step>, t: State)
    requires Sound(c) && Inv(c, s) && Runs(c, s, steps, t)
    ensures Inv(c, t)
    decreases |steps|
  {
    hide P.Lawful, P.CollisionFree, Crypto.Lawful, Inv, Enabled, Do;
    if steps != [] {
      StepKeepsInv(c, s, steps[0]);
      RunKeepsInv(c, Do(c, s, steps[0]), steps[1..], t);
    }
  }

  lemma LookupIsKey(c: Setup, s: State, u: UserId)
    requires P.Lawful(c.pr) && Inv(c, s) && KeyCache.Lookup(s.keys, u, s.now).Some?
    ensures IsKeyOf(c, s.users, s.origins, u, KeyCache.Lookup(s.keys, u, s.now).value)
  {
    hide Crypto.DeriveKey, P.Lawful, UsersOk, IsKeyOf;
  }

  /** In every run, whichever registration or login cached it and whenever it is read, the key
      served for a user is the user's one key. */
  lemma ServedKeyIsTheKey(c: Setup, s: State, u: UserId)
    requires Sound(c) && Reachable(c, s) && KeyCache.Lookup(s.keys, u, s.now).Some?
    ensures IsKeyOf(c, s.users, s.origins, u, KeyCache.Lookup(s.keys, u, s.now).value)
  {
    hide P.Lawful, P.CollisionFree, Crypto.Lawful, Inv, Runs, IsKeyOf;
    var steps :| Runs(c, EMPTY, steps, s);
    EmptyInv(c);
    RunKeepsInv(c, EMPTY, steps, s);
    LookupIsKey(c, s, u);
  }

  // ----- When a key is served

  /** What a step asks of the cache. */
  ghost function OpOf(c: Setup, s: State, a: Step): seq<KeyCache.Op>
    requires Enabled(c, s, a)
  {
    match a
    case PutKey(n) => [KeyCache.PutOp(s.putting[n].user, s.putting[n].key, s.now)]
    case Logout(u) => [KeyCache.DeleteOp(u, s.now)]
    case GetKey(u) => [KeyCache.GetOp(u, s.now)]
    case _ => []
  }

  /** What a run asks of the cache, in order. */
  ghost function KeyOps(c: Setup, s: State, steps: seq<Step>): seq<KeyCache.Op>
    requires P.Lawful(c.pr)
    decreases |steps|
  {
    if steps == [] || !Enabled(c, s, steps[0]) then []
    else OpOf(c, s, steps[0]) + KeyOps(c, Do(c, s, steps[0]), steps[1..])
  }

  /** The time the last tick set. */
  function Clock(now: int, steps: seq<Step>): int
    decreases |steps|
  {
    if steps == [] then now else Clock(if steps[0].Tick? then steps[0].t else now, steps[1..])
  }

  /** The cache is what a history has made of it, and the clock is not behind the history. */
  predicate Replayed(c: Setup, s: State, h: seq<KeyCache.Op>) {
    KeyCache.Ordered(h) && (h != [] ==> h[|h| - 1].at <= s.now) && s.keys == KeyCache.Replay(h, c.ttl)
  }

  lemma StepReplays(c: Setup, s: State, a: Step, h: seq<KeyCache.Op>)
    requires P.Lawful(c.pr) && Enabled(c, s, a) && Replayed(c, s, h)
    ensures Replayed(c, Do(c, s, a), h + OpOf(c, s, a))
    ensures Do(c, s, a).now == if a.Tick? then a.t else s.now
  {
    hide P.Lawful, P.Hash, P.Verify, NameTaken, Crypto.DeriveKey, KeyCache.Replay;
    if a.PutKey? || a.Logout? || a.GetKey? {
      KeyCache.ReplayAppend(h, c.ttl, OpOf(c, s, a)[0]);
    } else {
      assert h + OpOf(c, s, a) == h;
    }
  }

  lemma {:induction false} RunReplays(c: Setup, s: State, steps: seq<Step>, t: State, h: seq<KeyCache.Op>)
    requires P.Lawful(c.pr) && Runs(c, s, steps, t) && Replayed(c, s, h)
    ensures Replayed(c, t, h + KeyOps(c, s, steps)) && t.now == Clock(s.now, steps)
    decreases |steps|
  {
    hide P.Lawful, Replayed, Do, Enabled, OpOf;
    if steps == [] {
      assert h + [] == h;
    } else {
      StepReplays(c, s, steps[0], h);
      RunReplays(c, Do(c, s, steps[0]), steps[1..], t, h + OpOf(c, s, steps[0]));
      assert h + OpOf(c, s, steps[0]) + KeyOps(c, Do(c, s, steps[0]), steps[1..]) == h + KeyOps(c, s, steps);
    }
  }

  /** In every run, a key is served for a user if and only if the last PutKey or Logout for that
      user was a PutKey of it, less than ttl ago by the clock of the run. */
  lemma ServedExactly(c: Setup, steps: seq<Step>, s: State, u: UserId, key: bytes)
    requires P.Lawful(c.pr) && Runs(c, EMPTY, steps, s)
    ensures KeyCache.Lookup(s.keys, u, s.now) == Some(key) <==>
              exists i :: KeyCache.LastPut(KeyOps(c, EMPTY, steps), c.ttl, u, Clock(0, steps), key, i)
  {
    hide P.Lawful, Runs, KeyOps, KeyCache.LastPut, KeyCache.Lookup, KeyCache.Answer;
    RunReplays(c, EMPTY, steps, s, []);
    var h := KeyOps(c, EMPTY, steps);
    assert [] + h == h;
    KeyCache.LookupIsAnswer(h, c.ttl, u, s.now);
    KeyCache.AnswerIsLastPut(h, c.ttl, u, s.now, key);
  }

  /** No handler caches a key for u in these steps. */
  ghost predicate NoPutFor(c: Setup, s: State, steps: seq<Step>, u: UserId)
    requires P.Lawful(c.pr)
    decreases |steps|
  {
    steps == [] || !Enabled(c, s, steps[0])
    || (!(steps[0].PutKey? && s.putting[steps[0].n].user == u) && NoPutFor(c, Do(c, s, steps[0]), steps[1..], u))
  }

  lemma StepPutsNothing(c: Setup, s: State, a: Step, u: UserId)
    requires P.Lawful(c.pr) && Enabled(c, s, a) && u !in s.keys && !(a.PutKey? && s.putting[a.n].user == u)
    ensures u !in Do(c, s, a).keys
  {
    hide P.Lawful, P.Hash, P.Verify, NameTaken, Crypto.DeriveKey;
  }

  lemma {:induction false} NothingPut(c: Setup, s: State, steps: seq<Step>, t: State, u: UserId)
    requires P.Lawful(c.pr) && Runs(c, s, steps, t) && NoPutFor(c, s, steps, u) && u !in s.keys
    ensures u !in t.keys
    decreases |steps|
  {
    hide P.Lawful, Do, Enabled;
    if steps != [] {
      StepPutsNothing(c, s, steps[0], u);
      NothingPut(c, Do(c, s, steps[0]), steps[1..], t, u);
    }
  }

  /** After a logout nothing is served for the user, whatever happens, until the next PutKey for
      that user. */
  lemma NothingServedAfterLogout(c: Setup, s: State, u: UserId, steps: seq<Step>, t: State)
    requires P.Lawful(c.pr) && Runs(c, Do(c, s, Logout(u)), steps, t) && NoPutFor(c, Do(c, s, Logout(u)), steps, u)
    ensures KeyCache.Lookup(t.keys, u, t.now) == None
  {
    assert u !in Do(c, s, Logout(u)).keys;
    hide P.Lawful, Runs, NoPutFor, Do;
    NothingPut(c, Do(c, s, Logout(u)), steps, t, u);
  }

  /** A login goes on to cache a key exactly when it was tried with the registered password, and
      then it is that user's key, served from the moment it is cached. */
  lemma LoginSucceedsExactly(c: Setup, s: State, n: nat, u: UserId, tried: string)
    requires Sound(c) && Reachable(c, s) && Enabled(c, s, Login(n, u, tried))
    ensures u in s.origins
    ensures var t := Do(c, s, Login(n, u, tried));
            && (n in t.putting <==> tried == s.origins[u].password)
            && (n in t.putting ==>
                  && t.putting[n].user == u && IsKeyOf(c, s.users, s.origins, u, t.putting[n].key)
                  && (c.ttl > 0 ==>
                        var v := Do(c, t, PutKey(n)); KeyCache.Lookup(v.keys, u, v.now) == Some(t.putting[n].key)))
  {
    hide P.Lawful, P.CollisionFree, P.Hash, P.Verify, Crypto.Lawful, Crypto.DeriveKey, Runs, Inv, UsersOk;
    var steps :| Runs(c, EMPTY, steps, s);
    EmptyInv(c);
    RunKeepsInv(c, EMPTY, steps, s);
    InvUsers(c, s);
    var o := s.origins[u];
    P.HashThenVerify(c.pr, c.hasher, o.password, o.hashSalt, c.hasher);
    if P.Verify(c.pr, c.hasher, tried, s.users[u].hash) == P.Returned(true) {
      LoginDerivesTheKey(c, s, u, tried);
      P.VerifyAcceptsOnlyThePassword(c.pr, c.hasher, c.passwords, o.password, o.hashSalt, tried);
    }
  }

  lemma InvUsers(c: Setup, s: State)
    requires P.Lawful(c.pr) && Inv(c, s)
    ensures UsersOk(c, s.users, s.origins) && s.origins.Keys == s.users.Keys
    ensures forall u :: u in s.users ==> HashedFrom(c, s.users[u], s.origins[u])
  {
    hide P.Lawful, PuttingOk, KeysOk, HashedFrom;
  }

  /** Registering succeeds exactly when name and password are given, the name is free and the hash
      does not panic; the user
      then has that name and salt, and the key of the very password goes on to be cached. */
  lemma RegisterSucceedsExactly(c: Setup, s: State, n: nat, u: UserId, name: string, password: string, hashSalt: bytes, kdfSalt: bytes)
    requires P.Lawful(c.pr) && Enabled(c, s, Register(n, u, name, password, hashSalt, kdfSalt))
    ensures var t := Do(c, s, Register(n, u, name, password, hashSalt, kdfSalt));
            && (u in t.users <==> name != "" && password != "" && (forall v :: v in s.users ==> s.users[v].name != name)
                                  && P.Hash(c.pr, c.hasher, password, hashSalt).Returned?)
            && (u !in t.users ==> t == s)
            && |hashSalt| == c.hasher.params.saltLen && |kdfSalt| == 16
            && (u in t.users ==>
                  && t.users[u].name == name && t.users[u].kdfSalt == kdfSalt && t.origins[u].password == password
                  && P.Hash(c.pr, c.hasher, password, hashSalt) == P.Returned(t.users[u].hash)
                  && n in t.putting && t.putting[n].user == u && IsKeyOf(c, t.users, t.origins, u, t.putting[n].key))
  {
    hide P.Lawful, P.Hash, Crypto.DeriveKey;
  }

  // ----- The assumptions are consistent

  function Pack(s: string): bytes {
    if s == "" then []
    else [s[0] as int / 65536, s[0] as int / 256 % 256, s[0] as int % 256] + Pack(s[1..])
  }

  function ValidChar(n: int): (ch: char) {
    if 0 <= n < 0xD800 || 0xE000 <= n < 0x11_0000 then n as char else 'x'
  }

  function Unpack(b: bytes): string {
    if |b| < 3 then "" else [ValidChar((b[0] as int) * 65536 + (b[1] as int) * 256 + b[2])] + Unpack(b[3..])
  }

  lemma {:induction false} UnpackOfPack(s: string)
    ensures Unpack(Pack(s)) == s
  {
    if s != "" {
      var b := [s[0] as int / 65536, s[0] as int / 256 % 256, s[0] as int % 256];
      assert Pack(s) == b + Pack(s[1..]);
      assert (b + Pack(s[1..]))[3..] == Pack(s[1..]);
      UnpackOfPack(s[1..]);
    }
  }

  const TAG: bytes := [0, 0, 0, 0, 0, 0, 0, 0, 0, 0, 0, 0, 0, 0, 0, 0]

  function Seal(key: bytes, nonce: bytes, plaintext: string): bytes {
    TAG + Pack(plaintext)
  }

  function Open(key: bytes, nonce: bytes, sealed: bytes): Option<string> {
    if |sealed| < Crypto.TAG_SIZE then None else Some(Unpack(sealed[Crypto.TAG_SIZE..]))
  }

  lemma OpenOfSeal(key: bytes, nonce: bytes, plaintext: string)
    ensures Open(key, nonce, Seal(key, nonce, plaintext)) == Some(plaintext)
  {
    assert Seal(key, nonce, plaintext)[Crypto.TAG_SIZE..] == Pack(plaintext);
    UnpackOfPack(plaintext);
  }

  /** Tells the password "a" from every other. */
  function Mac(pepper: bytes, s: string): bytes {
    if s == "a" then [1] else [2]
  }

  function IdKey(k: bytes, salt: bytes, t: P.uint32, m: P.uint32, l: P.uint8, n: P.uint32): Option<bytes> {
    if t >= 1 && l >= 1 then Some(Repeat(if |k| > 0 then k[0] else 0, n)) else None
  }

  function Repeat(b: Crypto.Base64.byte, n: nat): (s: bytes)
    ensures |s| == n && (n > 0 ==> s[0] == b)
  {
    if n == 0 then [] else [b] + Repeat(b, n - 1)
  }

  /** A cipher, a key function and a hasher, with two passwords, that meet every assumption. */
  lemma SoundIsPossible() returns (c: Setup)
    ensures Sound(c) && c.passwords == {"a", "b"} && P.NewHasher(c.hasher.pepper) == Some(c.hasher) && c.ttl > 0
  {
    var pr := P.Primitives(Mac, IdKey);
    var cipher := Crypto.Cipher(s => Pack(s), Seal, Open);
    c := Setup(pr, cipher, P.Hasher([0], P.DEFAULT_PARAMS), 1, {"a", "b"});
    assert P.Lawful(pr);
    assert Crypto.Lawful(cipher) by {
      forall k, n, p ensures Open(k, n, Seal(k, n, p)) == Some(p) { OpenOfSeal(k, n, p); }
    }
    hide P.Lawful, Crypto.Lawful, Pack, Unpack, Seal;
    TwoPasswords(c.hasher);
  }

  lemma TwoPasswords(h: P.Hasher)
    requires h.params.keyLen > 0
    ensures P.CollisionFree(P.Primitives(Mac, IdKey), h, {"a", "b"})
  {
    var pr := P.Primitives(Mac, IdKey);
    forall a, b, salt | a in {"a", "b"} && b in {"a", "b"} && a != b && P.Derive(pr, h, a, salt, h.params).Some?
      ensures P.Derive(pr, h, a, salt, h.params) != P.Derive(pr, h, b, salt, h.params)
    {
      assert P.Derive(pr, h, a, salt, h.params).value[0] == Mac(h.pepper, a)[0];
      assert P.Derive(pr, h, b, salt, h.params).value[0] == Mac(h.pepper, b)[0];
    }
  }
}
