/** The steam_accounts table (store/steam_accounts.go, db/migrations/001_init.sql): a map from
    account id to row, with at most one row per user. A NULL text column is the empty string and
    a NULL byte column the empty sequence, as their readers see them. */
module Store {
  import opened Wrappers
  import Base64

  type bytes = Base64.bytes
  type AccountId = nat
  type UserId = string

  datatype Row = Row(user: UserId, steamId: string, username: string, token: bytes, nonce: bytes, expires: Option<int>)

  type Table = map<AccountId, Row>

  datatype StoreError = SteamAccountExists | SteamAccountNotFound

  /** The unique index on user_id. */
  ghost predicate OneRowPerUser(t: Table) {
    forall a, b :: a in t && b in t && t[a].user == t[b].user ==> a == b
  }

  predicate HasRow(t: Table, user: UserId) {
    exists a :: a in t && t[a].user == user
  }

  // ----- The statements

  /** id is the fresh identifier the database generates. */
  function Create(t: Table, id: AccountId, user: UserId, username: string): Result<Table, StoreError>
    requires id !in t
  {
    if HasRow(t, user) then Err(SteamAccountExists) else Ok(t[id := Row(user, "", username, [], [], None)])
  }

  function SaveRefreshToken(t: Table, id: AccountId, steamId: string, username: string, token: bytes, nonce: bytes,
                            expires: Option<int>): Result<Table, StoreError> {
    if id !in t then Err(SteamAccountNotFound)
    else Ok(t[id := Row(t[id].user, steamId, if username != "" then username else t[id].username, token, nonce, expires)])
  }

  function SetSteamId(t: Table, id: AccountId, steamId: string): Result<Table, StoreError> {
    if id !in t then Err(SteamAccountNotFound) else Ok(t[id := t[id].(steamId := steamId)])
  }

  function Delete(t: Table, user: UserId, id: AccountId): Result<Table, StoreError> {
    if id !in t || t[id].user != user then Err(SteamAccountNotFound) else Ok(t - {id})
  }

  /** id names the row of user. */
  predicate IsRowOf(t: Table, user: UserId, id: AccountId) {
    id in t && t[id].user == user
  }

  // ----- What the statements keep

  /** t' is t but for the row id, whose owner does not change; no row appears or disappears. */
  ghost predicate ChangesOnly(t: Table, t': Table, id: AccountId) {
    && t'.Keys == t.Keys
    && (forall a :: a in t && a != id ==> t'[a] == t[a])
    && (id in t ==> t'[id].user == t[id].user && t'[id].username == t[id].username)
  }

  lemma CreateKeepsOneRow(t: Table, id: AccountId, user: UserId, username: string)
    requires OneRowPerUser(t) && id !in t
    ensures Create(t, id, user, username).Ok? <==> forall a :: a in t ==> t[a].user != user
    ensures Create(t, id, user, username).Ok? ==>
              var t' := Create(t, id, user, username).value;
              OneRowPerUser(t') && t'.Keys == t.Keys + {id} && t' - {id} == t
              && IsRowOf(t', user, id) && t'[id].token == [] && t'[id].steamId == ""
  {
  }

  /** A backfill for a deleted row changes nothing, even when the user has a new row; otherwise
      it changes the one row it names. A link passes no username. */
  lemma BackfillTouchesOneRow(t: Table, id: AccountId, steamId: string, token: bytes, nonce: bytes, expires: Option<int>)
    requires OneRowPerUser(t)
    ensures SaveRefreshToken(t, id, steamId, "", token, nonce, expires).Ok? <==> id in t
    ensures SetSteamId(t, id, steamId).Ok? <==> id in t
    ensures id in t ==>
              var saved := SaveRefreshToken(t, id, steamId, "", token, nonce, expires).value;
              var identified := SetSteamId(t, id, steamId).value;
              && ChangesOnly(t, saved, id) && OneRowPerUser(saved)
              && saved[id].token == token && saved[id].nonce == nonce && saved[id].steamId == steamId && saved[id].expires == expires
              && ChangesOnly(t, identified, id) && OneRowPerUser(identified)
              && identified[id] == t[id].(steamId := steamId)
  {
  }

  /** Saving keeps the username when none is given, and otherwise takes the one given. */
  lemma SaveNames(t: Table, id: AccountId, steamId: string, username: string, token: bytes, nonce: bytes, expires: Option<int>)
    requires id in t
    ensures var t' := SaveRefreshToken(t, id, steamId, username, token, nonce, expires).value;
            && t'.Keys == t.Keys && (forall a :: a in t && a != id ==> t'[a] == t[a])
            && t'[id] == t[id].(steamId := steamId, token := token, nonce := nonce, expires := expires,
                                username := if username == "" then t[id].username else username)
  {
  }

  /** Only the owner's delete removes a row; the user can then link again. */
  lemma DeleteThenCreate(t: Table, user: UserId, id: AccountId, again: AccountId, username: string)
    requires OneRowPerUser(t) && again !in t
    ensures Delete(t, user, id).Ok? <==> IsRowOf(t, user, id)
    ensures Delete(t, user, id).Ok? ==>
              var t' := Delete(t, user, id).value;
              OneRowPerUser(t') && t'.Keys == t.Keys - {id} && (forall a :: a in t' ==> t'[a] == t[a])
              && Create(t', again, user, username).Ok?
  {
  }

  class SteamAccountStore {
    var rows: Table

    ghost predicate Valid()
      reads this
    {
      OneRowPerUser(rows)
    }

    constructor ()
      ensures Valid() && rows == map[]
    {
      rows := map[];
    }

    method CreateRow(id: AccountId, user: UserId, username: string) returns (r: Result<AccountId, StoreError>)
      requires Valid() && id !in rows
      modifies this
      ensures Valid() && (r.Ok? <==> !HasRow(old(rows), user)) && (r.Ok? ==> r.value == id) && (r.Err? ==> r.error == SteamAccountExists)
      ensures rows == match Create(old(rows), id, user, username) case Ok(t) => t case Err(_) => old(rows)
    {
      if HasRow(rows, user) {
        return Err(SteamAccountExists);
      }
      rows := rows[id := Row(user, "", username, [], [], None)];
      return Ok(id);
    }

    method SaveToken(id: AccountId, steamId: string, username: string, token: bytes, nonce: bytes, expires: Option<int>)
        returns (r: Result<(), StoreError>)
      requires Valid()
      modifies this
      ensures Valid() && r == if id in old(rows) then Ok(()) else Err(SteamAccountNotFound)
      ensures rows == match SaveRefreshToken(old(rows), id, steamId, username, token, nonce, expires) case Ok(t) => t case Err(_) => old(rows)
    {
      if id !in rows {
        return Err(SteamAccountNotFound);
      }
      var row := rows[id];
      var name := if username != "" then username else row.username;
      rows := rows[id := Row(row.user, steamId, name, token, nonce, expires)];
      return Ok(());
    }

    method BackfillSteamId(id: AccountId, steamId: string) returns (r: Result<(), StoreError>)
      requires Valid()
      modifies this
      ensures Valid() && r == if id in old(rows) then Ok(()) else Err(SteamAccountNotFound)
      ensures rows == match SetSteamId(old(rows), id, steamId) case Ok(t) => t case Err(_) => old(rows)
    {
      if id !in rows {
        return Err(SteamAccountNotFound);
      }
      rows := rows[id := rows[id].(steamId := steamId)];
      return Ok(());
    }

    method DeleteRow(user: UserId, id: AccountId) returns (r: Result<(), StoreError>)
      requires Valid()
      modifies this
      ensures Valid() && r == if IsRowOf(old(rows), user, id) then Ok(()) else Err(SteamAccountNotFound)
      ensures rows == match Delete(old(rows), user, id) case Ok(t) => t case Err(_) => old(rows)
    {
      if id !in rows || rows[id].user != user {
        return Err(SteamAccountNotFound);
      }
      rows := rows - {id};
      return Ok(());
    }

    /** The answer is the user's only row. */
    method GetByUserId(user: UserId) returns (r: Result<(AccountId, Row), StoreError>)
      requires Valid()
      ensures r.Err? ==> r.error == SteamAccountNotFound && !HasRow(rows, user)
      ensures r.Ok? ==> IsRowOf(rows, user, r.value.0) && rows[r.value.0] == r.value.1
      ensures r.Ok? ==> forall a :: IsRowOf(rows, user, a) ==> a == r.value.0
    {
      if !HasRow(rows, user) {
        return Err(SteamAccountNotFound);
      }
      var id :| id in rows && rows[id].user == user;
      return Ok((id, rows[id]));
    }
  }
}
