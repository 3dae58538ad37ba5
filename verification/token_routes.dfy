/**
 * The server's `/api/auth` token routes: a Supabase-JWT guard, and POST, GET and
 * DELETE of the signed-in user's Google tokens in the `user_tokens` table. The
 * table is a map keyed by (user, provider) held by a `TokenTable` object whose
 * methods update it; the verifier behind `supabase.auth.getUser`, the clock and
 * database faults are parameters.
 */
module TokenRoutes {
  import opened Wrappers
  import opened Text
  import opened Js

  datatype User = User(id: string, email: Option<string>)

  /** What `supabase.auth.getUser(token)` gives: a user or an error object, or it throws. */
  datatype VerifyOutcome = Verified(user: Option<User>, error: Option<string>) | VerifyThrew

  /** A row as `select('access_token, refresh_token, expires_at')` returns it, enriched for the reply. */
  datatype TokenData = TokenData(
    accessToken: string, refreshToken: Option<string>, expiresAt: Option<int>,
    isExpired: Option<bool>, userId: string, email: Option<string>)

  /**
   * The JSON body of a reply: `{ success: true, message }`, `{ success: true, data }`,
   * or an error, with `success: false` only in the replies of the `catch` blocks.
   */
  datatype ReplyBody =
    | Message(message: string)
    | TokensFound(data: TokenData)
    | Problem(error: string, successFalse: bool)

  datatype Reply = Reply(status: int, body: ReplyBody)

  datatype AuthOutcome = Authenticated(user: User) | Rejected(reply: Reply)

  const BearerPrefix := "Bearer "
  const MissingHeader := "Missing or invalid authorization header"
  const InvalidToken := "Invalid or expired token"
  const AuthFailed := "Authentication validation failed"

  /** Removing the first "Bearer " of a header that starts with it leaves the rest. */
  lemma BearerTokenIsRest(header: string)
    requires StartsWith(header, BearerPrefix)
    ensures ReplaceFirst(header, BearerPrefix, "") == header[|BearerPrefix|..]
  {
    assert header == BearerPrefix + header[|BearerPrefix|..];
    ReplaceFirstAtStart(BearerPrefix, header[|BearerPrefix|..]);
  }

  /**
   * `validateSupabaseAuth`: 401 without a "Bearer " header, 401 when the verifier reports
   * an error or no user, 500 when it throws, and the verified user otherwise.
   */
  function ValidateSupabaseAuth(authorization: Option<string>, verify: string -> VerifyOutcome): (r: AuthOutcome)
    ensures !Truthy(authorization) || !StartsWith(authorization.value, BearerPrefix) ==>
      r == Rejected(Reply(401, Problem(MissingHeader, false)))
    ensures r.Authenticated? ==>
      Truthy(authorization) && StartsWith(authorization.value, BearerPrefix) &&
      verify(authorization.value[|BearerPrefix|..]) == Verified(Some(r.user), None)
    ensures r.Rejected? ==> r.reply.status in {401, 500}
    ensures r.Rejected? && r.reply.status == 500 ==>
      Truthy(authorization) && verify(authorization.value[|BearerPrefix|..]) == VerifyThrew
    ensures Truthy(authorization) && StartsWith(authorization.value, BearerPrefix) ==>
      var outcome := verify(authorization.value[|BearerPrefix|..]);
      && (outcome.VerifyThrew? ==> r == Rejected(Reply(500, Problem(AuthFailed, false))))
      && (outcome.Verified? && (outcome.error.Some? || outcome.user.None?) ==>
            r == Rejected(Reply(401, Problem(InvalidToken, false))))
      && (outcome.Verified? && outcome.error.None? && outcome.user.Some? ==> r == Authenticated(outcome.user.value))
  {
    if !Truthy(authorization) || !StartsWith(authorization.value, BearerPrefix) then
      Rejected(Reply(401, Problem(MissingHeader, false)))
    else
      BearerTokenIsRest(authorization.value);
      var token := ReplaceFirst(authorization.value, BearerPrefix, "");
      match verify(token)
      case VerifyThrew => Rejected(Reply(500, Problem(AuthFailed, false)))
      case Verified(user, error) =>
        if error.Some? || user.None? then Rejected(Reply(401, Problem(InvalidToken, false)))
        else Authenticated(user.value)
  }

  /** Every well-formed bearer header with a verified token authenticates its user. */
  lemma VerifiedBearerAuthenticates(token: string, user: User, verify: string -> VerifyOutcome)
    requires verify(token) == Verified(Some(user), None)
    ensures ValidateSupabaseAuth(Some(BearerPrefix + token), verify) == Authenticated(user)
  {
    assert (BearerPrefix + token)[|BearerPrefix|..] == token;
    assert StartsWith(BearerPrefix + token, BearerPrefix) by {
      assert (BearerPrefix + token)[..|BearerPrefix|] == BearerPrefix;
    }
    BearerTokenIsRest(BearerPrefix + token);
  }

  // ---------------------------------------------------------------- the table

  const GoogleProvider := "google"
  /** PostgREST's code for "no rows returned" by `.single()`. */
  const NoRowsCode := "PGRST116"
  /** The largest magnitude of a valid JavaScript time value, in milliseconds. */
  const MaxTimeValue := 8_640_000_000_000_000

  datatype TokenKey = TokenKey(userId: string, provider: string)

  /** A stored row; `expiresAt` is the instant of the stored timestamp in milliseconds, or null. */
  datatype TokenRow = TokenRow(accessToken: string, refreshToken: Option<string>, expiresAt: Option<int>)

  /**
   * A field of a JSON body as the upsert sends it on: left out (`undefined`, which
   * `JSON.stringify` drops from the payload), `null`, or a string.
   */
  datatype BodyField = Absent | Null | Given(s: string)

  /** The fields of the POST body; `expires_at` is a time value in milliseconds. */
  datatype TokenBody = TokenBody(accessToken: Option<string>, refreshToken: BodyField, expiresAt: Option<int>)

  /** An error reported by the database. */
  datatype DbError = DbError(code: string, message: string)

  /** The new table and the reply of one request. */
  datatype Step = Step(reply: Reply, rows: map<TokenKey, TokenRow>)

  function KeyOf(user: User): TokenKey {
    TokenKey(user.id, GoogleProvider)
  }

  /**
   * `expires_at ? new Date(expires_at).toISOString() : null`: absent and 0 store null; a
   * time value out of range makes `toISOString` throw.
   */
  function StoredExpiry(expiresAt: Option<int>): (r: Result<Option<int>, string>)
    ensures expiresAt.None? || expiresAt == Some(0) ==> r == Ok(None)
    ensures r.Err? <==> expiresAt.Some? && (expiresAt.value > MaxTimeValue || expiresAt.value < -MaxTimeValue)
    ensures r.Ok? && r.value.Some? ==> expiresAt == r.value && r.value.value != 0
  {
    match expiresAt
    case None => Ok(None)
    case Some(ms) =>
      if ms == 0 then Ok(None)
      else if ms > MaxTimeValue || ms < -MaxTimeValue then Err("Invalid time value")
      else Ok(Some(ms))
  }

  /** `expires_at && new Date(expires_at) < new Date()`: null stays null, otherwise whether it is past. */
  function IsExpired(expiresAt: Option<int>, now: int): (r: Option<bool>)
    ensures r.None? <==> expiresAt.None?
    ensures r == Some(true) <==> expiresAt.Some? && expiresAt.value < now
  {
    match expiresAt
    case None => None
    case Some(t) => Some(t < now)
  }

  /**
   * The refresh token a merge-duplicates upsert leaves in a row: the sent value, or, when
   * the field was left out of the payload, the stored one (null for a new row).
   */
  function UpsertedRefreshToken(rows: map<TokenKey, TokenRow>, key: TokenKey, sent: BodyField): (r: Option<string>)
    ensures sent.Given? ==> r == Some(sent.s)
    ensures sent.Null? ==> r.None?
    ensures sent.Absent? && key in rows ==> r == rows[key].refreshToken
    ensures sent.Absent? && key !in rows ==> r.None?
  {
    match sent
    case Given(t) => Some(t)
    case Null => None
    case Absent => if key in rows then rows[key].refreshToken else None
  }

  /**
   * POST /google-tokens after authentication. The upsert on (user_id, provider) writes the
   * columns of its payload and, on a conflict, leaves the others as they were.
   */
  function PostStep(rows: map<TokenKey, TokenRow>, user: User, body: TokenBody, fault: Option<DbError>): (s: Step)
    ensures s.reply.status in {200, 400, 500}
    ensures s.reply.status == 400 <==> !Truthy(body.accessToken)
    ensures s.reply.status != 200 ==> s.rows == rows
    ensures s.reply.status == 200 <==>
      Truthy(body.accessToken) && StoredExpiry(body.expiresAt).Ok? && fault.None?
    ensures s.reply.status == 200 ==>
      KeyOf(user) in s.rows && s.rows[KeyOf(user)].accessToken == body.accessToken.value &&
      s.rows[KeyOf(user)].expiresAt == StoredExpiry(body.expiresAt).value &&
      s.rows - {KeyOf(user)} == rows - {KeyOf(user)}
    ensures s.reply.status == 200 && body.refreshToken.Given? ==>
      s.rows[KeyOf(user)].refreshToken == Some(body.refreshToken.s)
    ensures s.reply.status == 200 && body.refreshToken.Null? ==> s.rows[KeyOf(user)].refreshToken.None?
    ensures s.reply.status == 200 && body.refreshToken.Absent? ==>
      s.rows[KeyOf(user)].refreshToken == (if KeyOf(user) in rows then rows[KeyOf(user)].refreshToken else None)
  {
    if !Truthy(body.accessToken) then Step(Reply(400, Problem("Access token is required", false)), rows)
    else match StoredExpiry(body.expiresAt)
      case Err(_) => Step(Reply(500, Problem("Failed to store Google tokens", true)), rows)
      case Ok(expiry) =>
        if fault.Some? then Step(Reply(500, Problem("Failed to store tokens", false)), rows)
        else
          Step(Reply(200, Message("Tokens stored successfully")),
               rows[KeyOf(user) := TokenRow(body.accessToken.value,
                                            UpsertedRefreshToken(rows, KeyOf(user), body.refreshToken), expiry)])
  }

  /** GET /google-tokens after authentication. */
  function GetReply(rows: map<TokenKey, TokenRow>, user: User, fault: Option<DbError>, now: int): (r: Reply)
    ensures r.status in {200, 404, 500}
    ensures r.status == 500 <==> fault.Some? && fault.value.code != NoRowsCode
    ensures r.status == 404 <==> (fault.None? && KeyOf(user) !in rows) || (fault.Some? && fault.value.code == NoRowsCode)
    ensures r.status == 200 ==>
      && r.body.TokensFound? && r.body.data.userId == user.id
      && r.body.data.email == user.email && KeyOf(user) in rows
      && r.body.data.accessToken == rows[KeyOf(user)].accessToken
      && r.body.data.refreshToken == rows[KeyOf(user)].refreshToken
      && r.body.data.expiresAt == rows[KeyOf(user)].expiresAt
      && r.body.data.isExpired == IsExpired(rows[KeyOf(user)].expiresAt, now)
  {
    if fault.Some? && fault.value.code != NoRowsCode then Reply(500, Problem("Failed to fetch tokens", false))
    else if fault.Some? || KeyOf(user) !in rows then Reply(404, Problem("No Google tokens found for user", false))
    else
      var row := rows[KeyOf(user)];
      Reply(200, TokensFound(TokenData(row.accessToken, row.refreshToken, row.expiresAt,
                                       IsExpired(row.expiresAt, now), user.id, user.email)))
  }

  /** DELETE /google-tokens after authentication. */
  function DeleteStep(rows: map<TokenKey, TokenRow>, user: User, fault: Option<DbError>): (s: Step)
    ensures s.reply.status == 200 <==> fault.None?
    ensures s.reply.status != 200 ==> s.reply.status == 500 && s.rows == rows
    ensures s.reply.status == 200 ==> KeyOf(user) !in s.rows && s.rows - {KeyOf(user)} == rows - {KeyOf(user)}
  {
    if fault.Some? then Step(Reply(500, Problem("Failed to delete tokens", false)), rows)
    else Step(Reply(200, Message("Google tokens deleted successfully")), rows - {KeyOf(user)})
  }

  /** The guard followed by the POST handler. */
  function PostTokens(rows: map<TokenKey, TokenRow>, authorization: Option<string>, verify: string -> VerifyOutcome,
                      body: TokenBody, fault: Option<DbError>): Step
  {
    match ValidateSupabaseAuth(authorization, verify)
    case Rejected(reply) => Step(reply, rows)
    case Authenticated(user) => PostStep(rows, user, body, fault)
  }

  /** The guard followed by the GET handler. */
  function GetTokens(rows: map<TokenKey, TokenRow>, authorization: Option<string>, verify: string -> VerifyOutcome,
                     fault: Option<DbError>, now: int): Reply
  {
    match ValidateSupabaseAuth(authorization, verify)
    case Rejected(reply) => reply
    case Authenticated(user) => GetReply(rows, user, fault, now)
  }

  /** The guard followed by the DELETE handler. */
  function DeleteTokens(rows: map<TokenKey, TokenRow>, authorization: Option<string>, verify: string -> VerifyOutcome,
                        fault: Option<DbError>): Step
  {
    match ValidateSupabaseAuth(authorization, verify)
    case Rejected(reply) => Step(reply, rows)
    case Authenticated(user) => DeleteStep(rows, user, fault)
  }

  /** The `user_tokens` table as the three routes see it. */
  class TokenTable {
    var rows: map<TokenKey, TokenRow>

    constructor()
      ensures rows == map[]
    {
      rows := map[];
    }

    method Post(authorization: Option<string>, verify: string -> VerifyOutcome, body: TokenBody, fault: Option<DbError>)
      returns (reply: Reply)
      modifies this
      ensures Step(reply, rows) == PostTokens(old(rows), authorization, verify, body, fault)
    {
      var auth := ValidateSupabaseAuth(authorization, verify);
      if auth.Rejected? {
        return auth.reply;
      }
      var user := auth.user;
      if !Truthy(body.accessToken) {
        return Reply(400, Problem("Access token is required", false));
      }
      var expiry := StoredExpiry(body.expiresAt);
      if expiry.Err? {
        return Reply(500, Problem("Failed to store Google tokens", true));
      }
      if fault.Some? {
        return Reply(500, Problem("Failed to store tokens", false));
      }
      var refresh := UpsertedRefreshToken(rows, KeyOf(user), body.refreshToken);
      rows := rows[KeyOf(user) := TokenRow(body.accessToken.value, refresh, expiry.value)];
      reply := Reply(200, Message("Tokens stored successfully"));
    }

    method Get(authorization: Option<string>, verify: string -> VerifyOutcome, fault: Option<DbError>, now: int)
      returns (reply: Reply)
      ensures reply == GetTokens(rows, authorization, verify, fault, now)
    {
      var auth := ValidateSupabaseAuth(authorization, verify);
      if auth.Rejected? {
        return auth.reply;
      }
      var key := KeyOf(auth.user);
      if fault.Some? && fault.value.code != NoRowsCode {
        reply := Reply(500, Problem("Failed to fetch tokens", false));
      } else if fault.Some? || key !in rows {
        reply := Reply(404, Problem("No Google tokens found for user", false));
      } else {
        var row := rows[key];
        reply := Reply(200, TokensFound(TokenData(row.accessToken, row.refreshToken, row.expiresAt,
                                                  IsExpired(row.expiresAt, now), auth.user.id, auth.user.email)));
      }
    }

    method Delete(authorization: Option<string>, verify: string -> VerifyOutcome, fault: Option<DbError>)
      returns (reply: Reply)
      modifies this
      ensures Step(reply, rows) == DeleteTokens(old(rows), authorization, verify, fault)
    {
      var auth := ValidateSupabaseAuth(authorization, verify);
      if auth.Rejected? {
        return auth.reply;
      }
      if fault.Some? {
        return Reply(500, Problem("Failed to delete tokens", false));
      }
      rows := rows - {KeyOf(auth.user)};
      reply := Reply(200, Message("Google tokens deleted successfully"));
    }
  }

  // ---------------------------------------------------------------- properties across requests

  /** A request without a bearer header is refused with 401 whatever the verifier says, and changes nothing. */
  lemma NoBearerChangesNothing(rows: map<TokenKey, TokenRow>, authorization: Option<string>,
                               verify: string -> VerifyOutcome, body: TokenBody, fault: Option<DbError>, now: int)
    requires !Truthy(authorization) || !StartsWith(authorization.value, BearerPrefix)
    ensures PostTokens(rows, authorization, verify, body, fault) == Step(Reply(401, Problem(MissingHeader, false)), rows)
    ensures DeleteTokens(rows, authorization, verify, fault) == Step(Reply(401, Problem(MissingHeader, false)), rows)
    ensures GetTokens(rows, authorization, verify, fault, now) == Reply(401, Problem(MissingHeader, false))
  {
  }

  /**
   * After a successful POST, a GET by the same header returns the sent access token and
   * expiry, and the sent refresh token, or the one stored before when the field was left out.
   */
  lemma PostThenGet(rows: map<TokenKey, TokenRow>, authorization: Option<string>, verify: string -> VerifyOutcome,
                    body: TokenBody, now: int)
    requires PostTokens(rows, authorization, verify, body, None).reply.status == 200
    ensures ValidateSupabaseAuth(authorization, verify).Authenticated?
    ensures var after := PostTokens(rows, authorization, verify, body, None).rows;
      var key := KeyOf(ValidateSupabaseAuth(authorization, verify).user);
      var r := GetTokens(after, authorization, verify, None, now);
      && r.status == 200 && r.body.data.accessToken == body.accessToken.value
      && r.body.data.expiresAt == StoredExpiry(body.expiresAt).value
      && (body.refreshToken.Given? ==> r.body.data.refreshToken == Some(body.refreshToken.s))
      && (body.refreshToken.Null? ==> r.body.data.refreshToken.None?)
      && (body.refreshToken.Absent? ==>
            r.body.data.refreshToken == (if key in rows then rows[key].refreshToken else None))
  {
  }

  /**
   * The sign-in callback may leave out the provider's refresh token: a later POST without
   * one keeps the refresh token an earlier POST stored.
   */
  lemma OmittedRefreshTokenKept(rows: map<TokenKey, TokenRow>, authorization: Option<string>,
                                verify: string -> VerifyOutcome, first: TokenBody, second: TokenBody, now: int)
    requires first.refreshToken.Given? && second.refreshToken.Absent?
    requires PostTokens(rows, authorization, verify, first, None).reply.status == 200
    requires PostTokens(PostTokens(rows, authorization, verify, first, None).rows, authorization, verify, second, None).reply.status == 200
    ensures var mid := PostTokens(rows, authorization, verify, first, None).rows;
      var after := PostTokens(mid, authorization, verify, second, None).rows;
      GetTokens(after, authorization, verify, None, now).body.data.refreshToken == Some(first.refreshToken.s)
  {
    var mid := PostTokens(rows, authorization, verify, first, None).rows;
    PostThenGet(rows, authorization, verify, first, now);
    PostThenGet(mid, authorization, verify, second, now);
  }

  /** After a successful DELETE, a GET by the same header finds nothing. */
  lemma DeleteThenGet(rows: map<TokenKey, TokenRow>, authorization: Option<string>, verify: string -> VerifyOutcome, now: int)
    requires DeleteTokens(rows, authorization, verify, None).reply.status == 200
    ensures GetTokens(DeleteTokens(rows, authorization, verify, None).rows, authorization, verify, None, now).status == 404
  {
  }

  /**
   * The upsert keeps one row per user: after two successful POSTs the row holds the second's
   * access token and expiry, as the second alone would leave it. The refresh token is the
   * second's too, unless the second left it out, in which case it is what the first left.
   */
  lemma LastPostWins(rows: map<TokenKey, TokenRow>, authorization: Option<string>, verify: string -> VerifyOutcome,
                     first: TokenBody, second: TokenBody)
    requires PostTokens(rows, authorization, verify, second, None).reply.status == 200
    ensures ValidateSupabaseAuth(authorization, verify).Authenticated?
    ensures var key := KeyOf(ValidateSupabaseAuth(authorization, verify).user);
      var mid := PostTokens(rows, authorization, verify, first, None).rows;
      var both := PostTokens(mid, authorization, verify, second, None).rows;
      var alone := PostTokens(rows, authorization, verify, second, None).rows;
      && key in both && key in alone
      && both - {key} == mid - {key} && alone - {key} == rows - {key}
      && both[key].accessToken == alone[key].accessToken
      && both[key].expiresAt == alone[key].expiresAt
      && (!second.refreshToken.Absent? ==> both[key] == alone[key])
      && (second.refreshToken.Absent? ==>
            both[key].refreshToken == (if key in mid then mid[key].refreshToken else None))
  {
  }

  /** When the second POST sends every column, the first leaves no trace in the other rows or its own. */
  lemma FullPostReplaces(rows: map<TokenKey, TokenRow>, authorization: Option<string>, verify: string -> VerifyOutcome,
                         first: TokenBody, second: TokenBody)
    requires !second.refreshToken.Absent?
    requires PostTokens(rows, authorization, verify, second, None).reply.status == 200
    ensures PostTokens(PostTokens(rows, authorization, verify, first, None).rows, authorization, verify, second, None).rows
         == PostTokens(rows, authorization, verify, second, None).rows
  {
    var key := KeyOf(ValidateSupabaseAuth(authorization, verify).user);
    var mid := PostTokens(rows, authorization, verify, first, None).rows;
    var both := PostTokens(mid, authorization, verify, second, None).rows;
    var alone := PostTokens(rows, authorization, verify, second, None).rows;
    LastPostWins(rows, authorization, verify, first, second);
    assert mid - {key} == rows - {key};
    assert both.Keys == alone.Keys;
  }

  /** A request only ever touches the row of the user its token verifies as. */
  lemma OtherUsersUntouched(rows: map<TokenKey, TokenRow>, authorization: Option<string>, verify: string -> VerifyOutcome,
                            body: TokenBody, fault: Option<DbError>, other: TokenKey)
    requires ValidateSupabaseAuth(authorization, verify).Authenticated?
    requires other != KeyOf(ValidateSupabaseAuth(authorization, verify).user)
    ensures var p := PostTokens(rows, authorization, verify, body, fault).rows;
      (other in p <==> other in rows) && (other in rows ==> p[other] == rows[other])
    ensures var d := DeleteTokens(rows, authorization, verify, fault).rows;
      (other in d <==> other in rows) && (other in rows ==> d[other] == rows[other])
  {
    var user := ValidateSupabaseAuth(authorization, verify).user;
    var p := PostTokens(rows, authorization, verify, body, fault).rows;
    var d := DeleteTokens(rows, authorization, verify, fault).rows;
    assert other in p - {KeyOf(user)} <==> other in rows - {KeyOf(user)};
    assert other in d - {KeyOf(user)} <==> other in rows - {KeyOf(user)};
  }

  /** An expiry of 0 stores null, and the boundary of JavaScript's time range is kept. */
  lemma StoredExpiryEdges()
    ensures StoredExpiry(Some(0)) == Ok(None)
    ensures StoredExpiry(Some(MaxTimeValue)) == Ok(Some(MaxTimeValue))
    ensures StoredExpiry(Some(MaxTimeValue + 1)).Err?
  {
  }
}
