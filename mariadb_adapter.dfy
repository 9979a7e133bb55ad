/**
 * lib/auth/mariadb-adapter.ts: the authentication library's adapter over the
 * users and sessions tables. Each `executeQuery` call is recorded in
 * `executed` as the SQL text with its parameters; the rows a SELECT brings
 * back and the fresh UUIDs are inputs of the methods. SQL text that the
 * source spreads over several lines is written on one line here.
 */
module MariaDbAdapter {
  import opened Wrappers
  import opened Text

  /** A parameter of a prepared statement: a text or SQL `NULL`. */
  datatype SqlValue = SqlText(text: string) | SqlNumber(number: int) | SqlNull

  datatype Query = Query(sql: string, params: seq<SqlValue>)

  /** A row of the users SELECTs (`created_at` read back as `emailVerified`). */
  datatype UserRow = UserRow(
    id: string,
    name: Option<string>,
    email: string,
    image: Option<string>,
    role: Option<string>,
    emailVerified: Option<string>)

  /** A row of the sessions SELECTs. */
  datatype SessionRow = SessionRow(id: string, userId: string, expires: string, sessionToken: string)

  const InsertUser: string := "INSERT INTO users (id, name, email, image) VALUES (?, ?, ?, ?)"
  const SelectUserById: string := "SELECT id, name, email, image, role, created_at as emailVerified FROM users WHERE id = ?"
  const SelectUserByEmail: string := "SELECT id, name, email, image, role, created_at as emailVerified FROM users WHERE email = ?"
  const SelectUserByAccount: string := "SELECT u.id, u.name, u.email, u.image, u.role, u.created_at as emailVerified FROM users u JOIN accounts a ON u.id = a.user_id WHERE a.provider = ? AND a.provider_account_id = ?"
  const DeleteUserSql: string := "DELETE FROM users WHERE id = ?"
  const InsertAccount: string := "INSERT INTO accounts (id, user_id, type, provider, provider_account_id, refresh_token, access_token, expires_at, token_type, scope, id_token, session_state) VALUES (?, ?, ?, ?, ?, ?, ?, ?, ?, ?, ?, ?)"
  const DeleteAccountSql: string := "DELETE FROM accounts WHERE provider = ? AND provider_account_id = ?"
  const InsertSession: string := "INSERT INTO sessions (id, user_id, expires, session_token) VALUES (?, ?, ?, ?)"
  const SelectSession: string := "SELECT id, user_id as userId, expires, session_token as sessionToken FROM sessions WHERE session_token = ?"
  const UpdateExpires: string := "UPDATE sessions SET expires = ? WHERE session_token = ?"
  const UpdateUserId: string := "UPDATE sessions SET user_id = ? WHERE session_token = ?"
  const UpdateBoth: string := "UPDATE sessions SET expires = ?, user_id = ? WHERE session_token = ?"
  const DeleteSessionSql: string := "DELETE FROM sessions WHERE session_token = ?"

  /** `rows[0] || null`: the first row, or none when the SELECT found nothing. */
  function FirstOrNull<R>(rows: seq<R>): (r: Option<R>)
    ensures r.None? <==> rows == []
    ensures r.Some? ==> r.value == rows[0] && r.value in rows
  {
    if rows == [] then None else Some(rows[0])
  }

  /** `x || null` for an optional text: a missing or empty text is sent as `NULL`. */
  function OrNull(x: Option<string>): SqlValue {
    if x.None? || x.value == "" then SqlNull else SqlText(x.value)
  }

  /** `n || null` for an optional number: a missing number or `0` is sent as `NULL`. */
  function NumberOrNull(n: Option<int>): SqlValue {
    if n.None? || n.value == 0 then SqlNull else SqlNumber(n.value)
  }

  /** A possibly `null` text sent as it is. */
  function Nullable(x: Option<string>): SqlValue {
    if x.None? then SqlNull else SqlText(x.value)
  }

  // --------------------------------------------------------- linkAccount

  /** The account `linkAccount` receives; the token fields may be absent. */
  datatype Account = Account(
    userId: string,
    accountType: string,
    provider: string,
    providerAccountId: string,
    refreshToken: Option<string>,
    accessToken: Option<string>,
    expiresAt: Option<int>,
    tokenType: Option<string>,
    scope: Option<string>,
    idToken: Option<string>,
    sessionState: Option<string>)

  /** The parameters of the accounts INSERT, in column order. */
  function AccountParams(newId: string, a: Account): seq<SqlValue> {
    [SqlText(newId), SqlText(a.userId), SqlText(a.accountType), SqlText(a.provider), SqlText(a.providerAccountId),
     OrNull(a.refreshToken), OrNull(a.accessToken), NumberOrNull(a.expiresAt), OrNull(a.tokenType),
     OrNull(a.scope), OrNull(a.idToken), OrNull(a.sessionState)]
  }

  /** `x || null` as sent: `NULL` exactly for an absent or empty text, the text itself otherwise. */
  predicate SentAsTextOrNull(v: SqlValue, x: Option<string>) {
    (v == SqlNull <==> x.None? || x.value == "")
    && (x.Some? && x.value != "" ==> v == SqlText(x.value))
  }

  /**
   * One parameter per column of the INSERT: the account's identity as given,
   * each token field as its text or `NULL` when it is absent or empty, and
   * the expiry as its number or `NULL` when it is missing or zero.
   */
  lemma AccountParamsMeaning(newId: string, a: Account)
    ensures |AccountParams(newId, a)| == 12
    ensures AccountParams(newId, a)[..5] ==
      [SqlText(newId), SqlText(a.userId), SqlText(a.accountType), SqlText(a.provider), SqlText(a.providerAccountId)]
    ensures SentAsTextOrNull(AccountParams(newId, a)[5], a.refreshToken)
    ensures SentAsTextOrNull(AccountParams(newId, a)[6], a.accessToken)
    ensures AccountParams(newId, a)[7] == SqlNull <==> a.expiresAt.None? || a.expiresAt.value == 0
    ensures a.expiresAt.Some? && a.expiresAt.value != 0 ==> AccountParams(newId, a)[7] == SqlNumber(a.expiresAt.value)
    ensures SentAsTextOrNull(AccountParams(newId, a)[8], a.tokenType)
    ensures SentAsTextOrNull(AccountParams(newId, a)[9], a.scope)
    ensures SentAsTextOrNull(AccountParams(newId, a)[10], a.idToken)
    ensures SentAsTextOrNull(AccountParams(newId, a)[11], a.sessionState)
  {
  }

  // ---------------------------------------------------------- updateUser

  /** The fields of `userData` in key order; `None` is a field set to `undefined`. */
  type UserData = seq<(string, Option<SqlValue>)>

  /** `Object.keys(userData)` */
  function Keys(userData: UserData): seq<string> {
    seq(|userData|, i requires 0 <= i < |userData| => userData[i].0)
  }

  /** `userData[key]` */
  function Lookup(userData: UserData, key: string): Option<SqlValue>
    decreases |userData|
  {
    if userData == [] then None
    else if userData[0].0 == key then userData[0].1
    else Lookup(userData[1..], key)
  }

  /** `keys.filter(key => userData[key] !== undefined)` */
  function FilterDefined(userData: UserData, keys: seq<string>): (r: seq<string>)
    ensures forall i :: 0 <= i < |r| ==> Lookup(userData, r[i]).Some?
    ensures forall k :: k in r <==> k in keys && Lookup(userData, k).Some?
    ensures |r| <= |keys|
    decreases |keys|
  {
    if keys == [] then []
    else
      var rest := FilterDefined(userData, keys[1..]);
      assert forall k :: k in keys <==> k == keys[0] || k in keys[1..];
      if Lookup(userData, keys[0]).Some? then [keys[0]] + rest else rest
  }

  /** `fields` */
  function Fields(userData: UserData): seq<string> {
    FilterDefined(userData, Keys(userData))
  }

  /** `fields.map(field => userData[field])` */
  function Values(userData: UserData, fields: seq<string>): seq<SqlValue>
    requires forall i :: 0 <= i < |fields| ==> Lookup(userData, fields[i]).Some?
  {
    seq(|fields|, i requires 0 <= i < |fields| => Lookup(userData, fields[i]).value)
  }

  /** `fields.map(field => `${field} = ?`)` */
  function Assignments(fields: seq<string>): seq<string> {
    seq(|fields|, i requires 0 <= i < |fields| => fields[i] + " = ?")
  }

  /** `setClause` */
  function SetClause(fields: seq<string>): string {
    Join(Assignments(fields), ", ")
  }

  /** The UPDATE `updateUser` issues, or `None` when no field is defined and nothing is sent. */
  function UpdateUserQuery(id: string, userData: UserData): Option<Query> {
    var fields := Fields(userData);
    if |fields| == 0 then None
    else Some(Query("UPDATE users SET " + SetClause(fields) + " WHERE id = ?",
                    Values(userData, fields) + [SqlText(id)]))
  }

  /**
   * The UPDATE names exactly the defined fields and sends each one's value in
   * the same position, followed by the id; nothing is sent when every field is
   * undefined.
   */
  lemma UpdateUserQueryMeaning(id: string, userData: UserData)
    ensures UpdateUserQuery(id, userData).None? <==>
      forall k :: k in Keys(userData) ==> Lookup(userData, k).None?
    ensures UpdateUserQuery(id, userData).Some? ==>
      var q, fields := UpdateUserQuery(id, userData).value, Fields(userData);
      |q.params| == |fields| + 1 && q.params[|fields|] == SqlText(id)
      && (forall i :: 0 <= i < |fields| ==> Some(q.params[i]) == Lookup(userData, fields[i]))
      && (forall k :: k in fields <==> k in Keys(userData) && Lookup(userData, k).Some?)
  {
    var fields := Fields(userData);
    if |fields| == 0 {
      assert forall k :: k in Keys(userData) ==> Lookup(userData, k).None?;
    } else {
      assert fields[0] in fields;
    }
  }

  /**
   * The statement has as many `?` placeholders as it has parameters, given
   * field names without a `?` (the adapter's user fields all qualify).
   */
  lemma UpdateUserPlaceholders(id: string, userData: UserData)
    requires forall i :: 0 <= i < |userData| ==> '?' !in userData[i].0
    ensures UpdateUserQuery(id, userData).Some? ==>
      Count(UpdateUserQuery(id, userData).value.sql, '?') == |UpdateUserQuery(id, userData).value.params|
  {
    var fields := Fields(userData);
    if |fields| > 0 {
      FieldsHaveNoMark(userData);
      AssignmentsCount(fields);
      FramedCount("UPDATE users SET ", SetClause(fields), " WHERE id = ", " WHERE id = ?");
    }
  }

  lemma FieldsHaveNoMark(userData: UserData)
    requires forall i :: 0 <= i < |userData| ==> '?' !in userData[i].0
    ensures forall i :: 0 <= i < |Fields(userData)| ==> '?' !in Fields(userData)[i]
  {
    var fields := Fields(userData);
    forall i | 0 <= i < |fields|
      ensures '?' !in fields[i]
    {
      assert fields[i] in Keys(userData);
      var j :| 0 <= j < |Keys(userData)| && Keys(userData)[j] == fields[i];
    }
  }

  /** A text between a placeholder-free head and a tail ending in the one placeholder. */
  lemma FramedCount(head: string, mid: string, before: string, tail: string)
    requires '?' !in head && '?' !in before && tail == before + "?"
    ensures Count(head + mid + tail, '?') == Count(mid, '?') + 1
  {
    CountAbsent(head, '?');
    OnePlaceholder(before, tail);
    CountConcat(head, mid, '?');
    CountConcat(head + mid, tail, '?');
  }

  lemma OnePlaceholder(before: string, s: string)
    requires '?' !in before && s == before + "?"
    ensures Count(s, '?') == 1
  {
    CountAbsent(before, '?');
    CountConcat(before, "?", '?');
  }

  /** The clause holds one placeholder per field. */
  lemma {:induction false} AssignmentsCount(fields: seq<string>)
    requires forall i :: 0 <= i < |fields| ==> '?' !in fields[i]
    ensures Count(SetClause(fields), '?') == |fields|
    decreases |fields|
  {
    var sep := ", ";
    assert '?' !in sep;
    CountAbsent(sep, '?');
    if fields != [] {
      var first := fields[0] + " = ?";
      OnePlaceholder(fields[0] + " = ", first);
      if |fields| == 1 {
        assert Assignments(fields) == [first];
      } else {
        AssignmentsCount(fields[1..]);
        assert Assignments(fields) == [first] + Assignments(fields[1..]);
        JoinCons(first, Assignments(fields[1..]), sep);
        CountConcat(first, sep, '?');
        CountConcat(first + sep, SetClause(fields[1..]), '?');
      }
    }
  }

  /** What `updateUser` returns: its own argument when nothing was sent, else the re-read row. */
  datatype UpdateUserResult = InputReturned | Reloaded(row: Option<UserRow>)

  // ------------------------------------------------------ session expiry

  /** `expires.toISOString().slice(0, 19).replace('T', ' ')` */
  function ExpiryText(iso: string): string {
    ReplaceFirst(SliceTo(iso, 19), 'T', ' ')
  }

  /** The shape `toISOString` gives for four-digit years: `YYYY-MM-DDTHH:mm:ss.sssZ`. */
  predicate IsoShape(iso: string) {
    |iso| == 24 && iso[10] == 'T' && 'T' !in iso[..10]
  }

  /**
   * The stored expiry is the date and the time to the second, separated by a
   * space instead of `T`: the fraction and the `Z` are cut off.
   */
  lemma ExpiryTextMeaning(iso: string)
    requires IsoShape(iso)
    ensures ExpiryText(iso) == iso[..10] + " " + iso[11..19]
  {
    var s := SliceTo(iso, 19);
    assert s == iso[..19];
    assert 'T' in s && FirstIndex(s, 'T') == 10 by {
      assert s[10] == 'T';
      assert s[..10] == iso[..10];
      FirstIndexConcat(s[..10], 'T', s[11..]);
      assert s == s[..10] + ['T'] + s[11..];
    }
  }

  // ------------------------------------------------------- the adapter

  class Adapter {
    /** Every statement sent to the database, in order. */
    var executed: seq<Query>

    constructor ()
      ensures executed == []
    {
      executed := [];
    }

    /** `createUser`: inserts the user under a fresh id; back comes role "user", unverified. */
    method CreateUser(newId: string, name: Option<string>, email: string, image: Option<string>)
      returns (user: UserRow)
      modifies this
      ensures executed == old(executed) + [Query(InsertUser, [SqlText(newId), Nullable(name), SqlText(email), OrNull(image)])]
      ensures user == UserRow(newId, name, email, image, Some("user"), None)
    {
      executed := executed + [Query(InsertUser, [SqlText(newId), Nullable(name), SqlText(email), OrNull(image)])];
      user := UserRow(newId, name, email, image, Some("user"), None);
    }

    /** `getUser` */
    method GetUser(id: string, rows: seq<UserRow>) returns (user: Option<UserRow>)
      modifies this
      ensures executed == old(executed) + [Query(SelectUserById, [SqlText(id)])]
      ensures user == FirstOrNull(rows)
    {
      executed := executed + [Query(SelectUserById, [SqlText(id)])];
      user := FirstOrNull(rows);
    }

    /** `getUserByEmail` */
    method GetUserByEmail(email: string, rows: seq<UserRow>) returns (user: Option<UserRow>)
      modifies this
      ensures executed == old(executed) + [Query(SelectUserByEmail, [SqlText(email)])]
      ensures user == FirstOrNull(rows)
    {
      executed := executed + [Query(SelectUserByEmail, [SqlText(email)])];
      user := FirstOrNull(rows);
    }

    /** `getUserByAccount` */
    method GetUserByAccount(provider: string, providerAccountId: string, rows: seq<UserRow>)
      returns (user: Option<UserRow>)
      modifies this
      ensures executed == old(executed) + [Query(SelectUserByAccount, [SqlText(provider), SqlText(providerAccountId)])]
      ensures user == FirstOrNull(rows)
    {
      executed := executed + [Query(SelectUserByAccount, [SqlText(provider), SqlText(providerAccountId)])];
      user := FirstOrNull(rows);
    }

    /**
     * `updateUser`: with no defined field nothing is sent and the argument
     * comes back; otherwise the UPDATE and then the re-reading SELECT are sent
     * and the first row read back is the result.
     */
    method UpdateUser(id: string, userData: UserData, rows: seq<UserRow>) returns (result: UpdateUserResult)
      modifies this
      ensures UpdateUserQuery(id, userData).None? ==> result == InputReturned && executed == old(executed)
      ensures UpdateUserQuery(id, userData).Some? ==>
        result == Reloaded(FirstOrNull(rows))
        && executed == old(executed) + [UpdateUserQuery(id, userData).value, Query(SelectUserById, [SqlText(id)])]
    {
      var fields := Fields(userData);
      if |fields| == 0 {
        return InputReturned;
      }
      var setClause := SetClause(fields);
      var values := Values(userData, fields);
      executed := executed + [Query("UPDATE users SET " + setClause + " WHERE id = ?", values + [SqlText(id)])];
      executed := executed + [Query(SelectUserById, [SqlText(id)])];
      result := Reloaded(FirstOrNull(rows));
    }

    /** `deleteUser` */
    method DeleteUser(userId: string)
      modifies this
      ensures executed == old(executed) + [Query(DeleteUserSql, [SqlText(userId)])]
    {
      executed := executed + [Query(DeleteUserSql, [SqlText(userId)])];
    }

    /** `linkAccount`: inserts the account under a fresh id and hands the account back. */
    method LinkAccount(newId: string, account: Account) returns (linked: Account)
      modifies this
      ensures executed == old(executed) + [Query(InsertAccount, AccountParams(newId, account))]
      ensures linked == account
    {
      executed := executed + [Query(InsertAccount, AccountParams(newId, account))];
      linked := account;
    }

    /** `unlinkAccount` */
    method UnlinkAccount(provider: string, providerAccountId: string)
      modifies this
      ensures executed == old(executed) + [Query(DeleteAccountSql, [SqlText(provider), SqlText(providerAccountId)])]
    {
      executed := executed + [Query(DeleteAccountSql, [SqlText(provider), SqlText(providerAccountId)])];
    }

    /** `createSession`: the expiry is stored in the database's date-time form. */
    method CreateSession(newId: string, sessionToken: string, userId: string, expiresIso: string)
      returns (session: SessionRow)
      modifies this
      ensures executed == old(executed) +
        [Query(InsertSession, [SqlText(newId), SqlText(userId), SqlText(ExpiryText(expiresIso)), SqlText(sessionToken)])]
      ensures session == SessionRow(newId, userId, expiresIso, sessionToken)
    {
      executed := executed +
        [Query(InsertSession, [SqlText(newId), SqlText(userId), SqlText(ExpiryText(expiresIso)), SqlText(sessionToken)])];
      session := SessionRow(newId, userId, expiresIso, sessionToken);
    }

    /**
     * `getSessionAndUser`: `null` when no session has the token (and the user
     * is then not looked up) or when its user is missing; otherwise the first
     * session row and the first row of its user.
     */
    method GetSessionAndUser(sessionToken: string, sessionRows: seq<SessionRow>, userRows: seq<UserRow>)
      returns (result: Option<(SessionRow, UserRow)>)
      modifies this
      ensures sessionRows == [] ==>
        result.None? && executed == old(executed) + [Query(SelectSession, [SqlText(sessionToken)])]
      ensures sessionRows != [] ==>
        executed == old(executed) + [Query(SelectSession, [SqlText(sessionToken)]),
                                      Query(SelectUserById, [SqlText(sessionRows[0].userId)])]
      ensures result.Some? <==> sessionRows != [] && userRows != []
      ensures result.Some? ==> result.value == (sessionRows[0], userRows[0])
    {
      executed := executed + [Query(SelectSession, [SqlText(sessionToken)])];
      var session := FirstOrNull(sessionRows);
      if session.None? {
        return None;
      }
      executed := executed + [Query(SelectUserById, [SqlText(session.value.userId)])];
      var user := FirstOrNull(userRows);
      if user.None? {
        return None;
      }
      result := Some((session.value, user.value));
    }

    /**
     * `updateSession`: the statement depends on which of the expiry and the
     * (non-empty) user id are given: both columns, one of them, or with neither
     * just the SELECT; the session is then read back.
     */
    method UpdateSession(sessionToken: string, expiresIso: Option<string>, userId: Option<string>, rows: seq<SessionRow>)
      returns (session: Option<SessionRow>)
      modifies this
      ensures var hasUser := userId.Some? && userId.value != "";
        var token := SqlText(sessionToken);
        var sent :=
          if expiresIso.Some? && hasUser then
            Query(UpdateBoth, [SqlText(ExpiryText(expiresIso.value)), SqlText(userId.value), token])
          else if expiresIso.Some? then Query(UpdateExpires, [SqlText(ExpiryText(expiresIso.value)), token])
          else if hasUser then Query(UpdateUserId, [SqlText(userId.value), token])
          else Query(SelectSession, [token]);
        executed == old(executed) + [sent, Query(SelectSession, [token])]
      ensures session == FirstOrNull(rows)
    {
      var query := SelectSession;
      var data := [SqlText(sessionToken)];
      if expiresIso.Some? {
        query := UpdateExpires;
        data := [SqlText(ExpiryText(expiresIso.value)), SqlText(sessionToken)];
      }
      if userId.Some? && userId.value != "" {
        query := UpdateUserId;
        data := [SqlText(userId.value), SqlText(sessionToken)];
      }
      if expiresIso.Some? && userId.Some? && userId.value != "" {
        query := UpdateBoth;
        data := [SqlText(ExpiryText(expiresIso.value)), SqlText(userId.value), SqlText(sessionToken)];
      }
      executed := executed + [Query(query, data)];
      executed := executed + [Query(SelectSession, [SqlText(sessionToken)])];
      session := FirstOrNull(rows);
    }

    /** `deleteSession` */
    method DeleteSession(sessionToken: string)
      modifies this
      ensures executed == old(executed) + [Query(DeleteSessionSql, [SqlText(sessionToken)])]
    {
      executed := executed + [Query(DeleteSessionSql, [SqlText(sessionToken)])];
    }
  }
}
