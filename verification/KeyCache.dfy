/** The in-memory credential-key cache with lazy expiry (auth/keycache.go), and the lifetime of
    a key against that of the token minted with it (auth/jwt.go).

    Times are nanoseconds. The clock is a parameter of each operation and never goes back. */
module KeyCache {
  import opened Wrappers
  import Base64

  type Key = Base64.bytes
  datatype Entry = Entry(key: Key, expires: int)
  type Entries = map<string, Entry>

  // ----- The operations on the map

  function Put(m: Entries, ttl: int, user: string, key: Key, now: int): Entries {
    m[user := Entry(key, now + ttl)]
  }

  function Delete(m: Entries, user: string): Entries {
    m - {user}
  }

  /** now.Before(expires) */
  predicate Live(m: Entries, user: string, now: int) {
    user in m && now < m[user].expires
  }

  function Lookup(m: Entries, user: string, now: int): Option<Key> {
    if Live(m, user, now) then Some(m[user].key) else None
  }

  /** Get evicts an entry it finds expired. */
  function AfterGet(m: Entries, user: string, now: int): Entries {
    if user in m && !Live(m, user, now) then m - {user} else m
  }

  // ----- The history a caller can see

  datatype Op =
    | PutOp(user: string, key: Key, at: int)
    | DeleteOp(user: string, at: int)
    | GetOp(user: string, at: int)

  /** The operations in order, on a clock that never goes back. */
  predicate Ordered(h: seq<Op>) {
    forall i, j :: 0 <= i < j < |h| ==> h[i].at <= h[j].at
  }

  /** Reference answer: the last Put or Delete for the user was a Put less than ttl ago. */
  function Answer(h: seq<Op>, ttl: int, user: string, now: int): Option<Key>
    decreases |h|
  {
    if h == [] then None
    else
      var last := h[|h| - 1];
      if last.GetOp? || last.user != user then Answer(h[..|h| - 1], ttl, user, now)
      else if last.PutOp? && now - last.at < ttl then Some(last.key)
      else None
  }

  /** The map a history of operations leaves behind. */
  function Replay(h: seq<Op>, ttl: int): Entries
    decreases |h|
  {
    if h == [] then map[]
    else
      var m := Replay(h[..|h| - 1], ttl);
      After(m, ttl, h[|h| - 1])
  }

  function After(m: Entries, ttl: int, op: Op): Entries {
    match op
    case PutOp(u, k, at) => Put(m, ttl, u, k, at)
    case DeleteOp(u, _) => Delete(m, u)
    case GetOp(u, at) => AfterGet(m, u, at)
  }

  lemma ReplayAppend(h: seq<Op>, ttl: int, op: Op)
    requires Ordered(h) && (h != [] ==> h[|h| - 1].at <= op.at)
    ensures Ordered(h + [op]) && Replay(h + [op], ttl) == After(Replay(h, ttl), ttl, op)
  {
    assert (h + [op])[..|h|] == h;
  }

  /** Lazy eviction cannot be observed: in every history, a lookup gives the reference answer. */
  lemma {:induction false} LookupIsAnswer(h: seq<Op>, ttl: int, user: string, now: int)
    requires Ordered(h) && (h != [] ==> h[|h| - 1].at <= now)
    ensures Lookup(Replay(h, ttl), user, now) == Answer(h, ttl, user, now)
    decreases |h|
  {
    if h != [] {
      LookupIsAnswer(h[..|h| - 1], ttl, user, now);
    }
  }

  /** The reference answer, without recursion: some Put of that key for the user is less than
      ttl old and no later Put or Delete for the user follows it. */
  ghost predicate LastPut(h: seq<Op>, ttl: int, user: string, now: int, key: Key, i: int) {
    && 0 <= i < |h|
    && h[i] == PutOp(user, key, h[i].at) && now - h[i].at < ttl
    && forall j :: i < j < |h| ==> h[j].GetOp? || h[j].user != user
  }

  lemma {:induction false} AnswerIsLastPut(h: seq<Op>, ttl: int, user: string, now: int, key: Key)
    ensures Answer(h, ttl, user, now) == Some(key) <==> exists i :: LastPut(h, ttl, user, now, key, i)
    decreases |h|
  {
    if h != [] {
      var n := |h| - 1;
      var last := h[n];
      var front := h[..n];
      AnswerIsLastPut(front, ttl, user, now, key);
      if last.GetOp? || last.user != user {
        if i :| LastPut(front, ttl, user, now, key, i) {
          assert LastPut(h, ttl, user, now, key, i);
        }
        if i :| LastPut(h, ttl, user, now, key, i) {
          assert LastPut(front, ttl, user, now, key, i);
        }
      } else {
        if i :| LastPut(h, ttl, user, now, key, i) {
          assert i == n;
        }
        if Answer(h, ttl, user, now) == Some(key) {
          assert LastPut(h, ttl, user, now, key, n);
        }
      }
    }
  }

  /** The cache object. `history` records every call it has answered. */
  class Cache {
    const ttl: int
    var entries: Entries
    ghost var history: seq<Op>

    ghost predicate Valid()
      reads this
    {
      Ordered(history) && entries == Replay(history, ttl)
    }

    /** The caller's clock is not behind the last call's. */
    ghost predicate NotBefore(now: int)
      reads this
    {
      history != [] ==> history[|history| - 1].at <= now
    }

    constructor (ttl: int)
      ensures Valid() && this.ttl == ttl && history == [] && entries == map[]
    {
      this.ttl := ttl;
      entries := map[];
      history := [];
    }

    method Put(user: string, key: Key, now: int)
      requires Valid() && NotBefore(now)
      modifies this
      ensures Valid() && history == old(history) + [PutOp(user, key, now)]
    {
      entries := entries[user := Entry(key, now + ttl)];
      ReplayAppend(history, ttl, PutOp(user, key, now));
      history := history + [PutOp(user, key, now)];
    }

    /** The answer depends on the history alone; an expired entry is evicted on the way. */
    method Get(user: string, now: int) returns (key: Option<Key>)
      requires Valid() && NotBefore(now)
      modifies this
      ensures Valid() && history == old(history) + [GetOp(user, now)]
      ensures key == Answer(old(history), ttl, user, now)
      ensures entries == if key.None? then old(entries) - {user} else old(entries)
    {
      LookupIsAnswer(history, ttl, user, now);
      if user !in entries {
        key := None;
      } else if !(now < entries[user].expires) {
        entries := entries - {user};
        key := None;
      } else {
        key := Some(entries[user].key);
      }
      ReplayAppend(history, ttl, GetOp(user, now));
      history := history + [GetOp(user, now)];
    }

    method Delete(user: string, now: int)
      requires Valid() && NotBefore(now)
      modifies this
      ensures Valid() && history == old(history) + [DeleteOp(user, now)]
    {
      entries := entries - {user};
      ReplayAppend(history, ttl, DeleteOp(user, now));
      history := history + [DeleteOp(user, now)];
    }
  }

  // ----- Key lifetime against token lifetime

  const SECOND := 1_000_000_000

  /** A numeric date holds whole seconds. */
  function WholeSeconds(t: int): int {
    t - t % SECOND
  }

  /** Login puts the key and then issues the token; both live for ttl. The key has expired at
      the token's unrounded expiry, and outlives the rounded one by less than a second. */
  lemma KeyAgainstToken(put: int, issue: int, ttl: int)
    requires put <= issue
    ensures put + ttl <= issue + ttl
    ensures put + ttl - WholeSeconds(issue + ttl) < SECOND
  {
  }

  /** The moments at which a key put at login is still served although the token issued with
      it has expired. */
  ghost predicate ServedAfterExpiry(put: int, issue: int, ttl: int, now: int) {
    && Lookup(Put(map[], ttl, "user", [], put), "user", now).Some?
    && !(now < WholeSeconds(issue + ttl))
  }

  /** "A key never outlives the token it was minted for" holds exactly when the expiry, rounded
      down to the second, does not fall before the key's. */
  lemma KeyNeverOutlivesTokenExactly(put: int, issue: int, ttl: int)
    requires put <= issue
    ensures (forall now :: !ServedAfterExpiry(put, issue, ttl, now)) <==> put + ttl <= WholeSeconds(issue + ttl)
  {
    var e := WholeSeconds(issue + ttl);
    if e < put + ttl {
      assert ServedAfterExpiry(put, issue, ttl, e);
    }
  }

  /** A login half a second past a whole second is one where it does not. */
  lemma KeyOutlivesTokenWitness()
    ensures ServedAfterExpiry(SECOND / 2, SECOND / 2, 24 * 3600 * SECOND, 24 * 3600 * SECOND)
  {
  }
}
