/**
 * The credential pipeline of class `JWTAuthentication`
 * (auth_backend/jwt_authentication.py).
 *
 * `dispense_new_jwt` (issue) exchanges a temporary GitHub OAuth code for a
 * bearer token, checks who it belongs to, stores it under the user's id and
 * hands back a signed JSON Web Token; `refresh_jwt` (refresh) decodes such a
 * token, finds the stored bearer token for its subject, checks it with GitHub
 * again and hands back a fresh token. Each is a chain of checks that stops
 * at the first failure and answers through `format_response`.
 *
 * `Issue` and `Refresh` are the specifications: for given configuration,
 * GitHub answers, store contents and clock, the outcome, the GitHub requests
 * sent and the store write made. The class's methods follow the source's
 * control flow call by call and are proved to meet them.
 */
module JwtAuth {
  import opened Wrappers
  import opened Http
  import opened Scopes
  import opened Event
  import opened Tokens
  import opened Services

  /** The `data` of a response: `{"error": message}` or `{"token": encoded}`. */
  datatype Body = ErrorBody(error: string) | TokenBody(token: string)

  const BadRequest: int := 400
  const Unauthorized: int := 401
  const InternalError: int := 500

  const PasswordNotFoundPrefix: string := "'password' field not found: "
  const NotAuthorized: string := "Not Authorized"
  const NoGitHubUser: string := "Could not find GitHub user information"
  const PersistFailed: string := "Unable to persist bearer token"
  const InvalidJwt: string := "Invalid JSON Web Token"
  const NoSubject: string := "sub field not present in JWT"
  const NoStoredToken: string := "Could not find bearer token in datastore"
  const NotValidated: string := "Could not validate bearer token"

  /** The message of the 400 answer: the fixed prefix followed by the payload as Python prints it. */
  function PasswordNotFound(payload: Payload): (msg: string)
    ensures |msg| > |PasswordNotFoundPrefix| && msg[..|PasswordNotFoundPrefix|] == PasswordNotFoundPrefix
  {
    PasswordNotFoundPrefix + Repr(payload)
  }

  /** The instance's configuration, as the pipeline reads it. */
  datatype Settings = Settings(
    payload: Payload,
    jwtSigningSecret: string,
    client: Client,
    expectedOauthScopes: seq<string>,
    codec: Codec)

  /** What one pipeline run does: its outcome, the GitHub requests it sends, the store write it makes. */
  datatype Trace = Trace(outcome: Outcome<Body>, requests: seq<Request>, stored: Option<(string, string)>)

  /** A failed run: the error answer, the requests sent before the failing check, no write. */
  function Failure(status: int, message: string, requests: seq<Request>): Trace
  {
    Trace(FormatResponse(status, ErrorBody(message)), requests, None)
  }

  /** The store contents after a run that made `stored`. */
  function AfterWrite(items: map<string, string>, stored: Option<(string, string)>): map<string, string>
  {
    if stored.None? then items else Upsert(items, stored.value.0, stored.value.1)
  }

  // ---------------------------------------------------------------------
  // The decisions the helper methods take on the services' answers

  /**
   * `retrieve_bearer_token`'s decision on GitHub's answer: the access token
   * when the status is 200 and the granted scopes cover the expected ones,
   * None otherwise (the two failures are not told apart).
   */
  function BearerTokenFrom(reply: AccessTokenReply, expected: seq<string>): (r: Option<string>)
    ensures r.Some? <==> reply.status == Ok && AreScopesSufficient(expected, reply.scope)
    ensures r.Some? ==> r.value == reply.accessToken
  {
    if reply.status != Ok then None
    else if !AreScopesSufficient(expected, reply.scope) then None
    else Some(reply.accessToken)
  }

  /** The pair `(userid, login)` that `retrieve_gh_user_info` returns. */
  datatype UserInfo = UserInfo(id: Option<string>, login: Option<string>)

  /** `userid and login`: both present and non-empty. */
  predicate Identified(u: UserInfo)
  {
    !Falsy(u.id) && !Falsy(u.login)
  }

  /**
   * `retrieve_gh_user_info`'s decision on GitHub's answer: (None, None) on a
   * status other than 200, the body's `user.id` and `user.login` otherwise.
   */
  function UserInfoFrom(reply: TokenInfoReply): (u: UserInfo)
    ensures reply.status != Ok ==> u == UserInfo(None, None) && !Identified(u)
    ensures Identified(u) <==> reply.status == Ok && !Falsy(reply.id) && !Falsy(reply.login)
    ensures Identified(u) ==> u.id == reply.id && u.login == reply.login
  {
    if reply.status != Ok then UserInfo(None, None) else UserInfo(reply.id, reply.login)
  }

  /**
   * `lookup_bearer_token` as written (line 146): a `Boto3Error` gives None,
   * an item gives its `bearer_token`, and a user with no item makes
   * `response['Item']` raise `KeyError`, which nothing catches.
   */
  datatype LookupOutcome = Found(bearerToken: Option<string>) | KeyErrorRaised

  function LookupAsWritten(reply: GetItemReply): (r: LookupOutcome)
    ensures r.KeyErrorRaised? <==> reply.NoItem?
    ensures reply.StoreError? ==> r == Found(None)
    ensures reply.Item? ==> r == Found(Some(reply.bearerToken))
  {
    match reply
    case StoreError => Found(None)
    case NoItem => KeyErrorRaised
    case Item(t) => Found(Some(t))
  }

  /**
   * A refresh for a user the table has never seen: as written, the lookup
   * raises instead of answering 401 "Could not find bearer token in
   * datastore"; the corrected lookup answers None, which leads to that 401.
   */
  lemma UnknownUserRaisesKeyError(items: map<string, string>, userId: string)
    requires userId !in items
    ensures LookupAsWritten(ItemReply(items, false, userId)) == KeyErrorRaised
    ensures BearerTokenIn(ItemReply(items, false, userId)) == None
  {
  }

  /**
   * `lookup_bearer_token` as intended, and as the pipeline uses it: the
   * stored bearer token, or None when the table fails or has no item for
   * the user.
   */
  function BearerTokenIn(reply: GetItemReply): (r: Option<string>)
    ensures r.Some? <==> reply.Item?
    ensures r.Some? ==> r.value == reply.bearerToken
  {
    if reply.Item? then Some(reply.bearerToken) else None
  }

  /** The string claim `name` of a decoded token, as `decoded_token.get(name)`. */
  function Claim(claims: ClaimMap, name: string): Option<string>
  {
    if name in claims then Some(claims[name]) else None
  }

  /**
   * `format_jwt`: a 200 answer whose token is the signature of the claims
   * minted now for the user, the login and the bearer token.
   */
  function FormatJwt(codec: Codec, secret: string, now: int, userid: string, login: string, bearerToken: string): (r: Outcome<Body>)
    ensures r.Returned? && r.response.httpStatus == Ok
    ensures r.response.data == TokenBody(codec.encode(MintClaims(now, userid, login, bearerToken), secret))
  {
    FormatResponse(Ok, TokenBody(codec.encode(MintClaims(now, userid, login, bearerToken), secret)))
  }

  // ---------------------------------------------------------------------
  // Issue: the steps of dispense_new_jwt

  /** The temporary code, `payload.get("password")`. */
  function Code(s: Settings): Option<string>
  {
    Get(s.payload, PasswordField)
  }

  predicate HasCode(s: Settings)
  {
    !Falsy(Code(s))
  }

  /** The bearer token GitHub grants for the code, if the exchange and the scope gate pass. */
  function Grant(s: Settings, gh: GitHubReplies): Option<string>
    requires HasCode(s)
  {
    BearerTokenFrom(gh.accessToken(s.client, Code(s).value), s.expectedOauthScopes)
  }

  predicate Granted(s: Settings, gh: GitHubReplies)
  {
    HasCode(s) && !Falsy(Grant(s, gh))
  }

  /** Who GitHub says the granted bearer token belongs to. */
  function GrantOwner(s: Settings, gh: GitHubReplies): UserInfo
    requires Granted(s, gh)
  {
    UserInfoFrom(gh.tokenInfo(s.client, Grant(s, gh).value))
  }

  predicate OwnerKnown(s: Settings, gh: GitHubReplies)
  {
    Granted(s, gh) && Identified(GrantOwner(s, gh))
  }

  /**
   * `dispense_new_jwt`: which outcome, which GitHub requests and which store
   * write for which inputs. Each failing check ends the run with its own
   * status and message, and nothing after it is sent or written; the store
   * is written exactly when the run succeeds.
   */
  function Issue(s: Settings, gh: GitHubReplies, storeFailing: bool, now: int): (t: Trace)
    ensures !HasCode(s) ==> t == Failure(BadRequest, PasswordNotFound(s.payload), [])
    ensures HasCode(s) && !Granted(s, gh) ==>
      t == Failure(Unauthorized, NotAuthorized, [ExchangeCode(s.client, Code(s).value)])
    ensures Granted(s, gh) && !OwnerKnown(s, gh) ==>
      t == Failure(Unauthorized, NoGitHubUser,
                   [ExchangeCode(s.client, Code(s).value), CheckToken(s.client, Grant(s, gh).value)])
    ensures OwnerKnown(s, gh) && storeFailing ==>
      t == Failure(InternalError, PersistFailed,
                   [ExchangeCode(s.client, Code(s).value), CheckToken(s.client, Grant(s, gh).value)])
    ensures OwnerKnown(s, gh) && !storeFailing ==>
      t.requests == [ExchangeCode(s.client, Code(s).value), CheckToken(s.client, Grant(s, gh).value)] &&
      t.stored == Some((GrantOwner(s, gh).id.value, Grant(s, gh).value)) &&
      t.outcome == FormatJwt(s.codec, s.jwtSigningSecret, now,
                             GrantOwner(s, gh).id.value, GrantOwner(s, gh).login.value, Grant(s, gh).value)
    ensures t.outcome.Returned? <==> t.stored.Some?
    ensures t.outcome.Returned? <==> OwnerKnown(s, gh) && !storeFailing
    ensures t.outcome.response.httpStatus in {Ok, BadRequest, Unauthorized, InternalError}
    ensures forall r | r in t.requests :: r.client == s.client
  {
    if !HasCode(s) then
      Failure(BadRequest, PasswordNotFound(s.payload), [])
    else
      var exchange := [ExchangeCode(s.client, Code(s).value)];
      if !Granted(s, gh) then
        Failure(Unauthorized, NotAuthorized, exchange)
      else
        var bearerToken := Grant(s, gh).value;
        var calls := exchange + [CheckToken(s.client, bearerToken)];
        if !OwnerKnown(s, gh) then
          Failure(Unauthorized, NoGitHubUser, calls)
        else
          var owner := GrantOwner(s, gh);
          if storeFailing then
            Failure(InternalError, PersistFailed, calls)
          else
            Trace(FormatJwt(s.codec, s.jwtSigningSecret, now, owner.id.value, owner.login.value, bearerToken),
                  calls, Some((owner.id.value, bearerToken)))
  }

  /**
   * An exchange GitHub refuses and an exchange whose scopes fall short end
   * the same way: the caller cannot tell which of the two happened.
   */
  lemma ExchangeFailuresIndistinguishable(s: Settings, refused: GitHubReplies, shortOfScope: GitHubReplies, storeFailing: bool, now: int)
    requires HasCode(s)
    requires refused.accessToken(s.client, Code(s).value).status != Ok
    requires shortOfScope.accessToken(s.client, Code(s).value).status == Ok
    requires !AreScopesSufficient(s.expectedOauthScopes, shortOfScope.accessToken(s.client, Code(s).value).scope)
    ensures Issue(s, refused, storeFailing, now) == Issue(s, shortOfScope, storeFailing, now)
    ensures Issue(s, refused, storeFailing, now) == Failure(Unauthorized, NotAuthorized, [ExchangeCode(s.client, Code(s).value)])
  {
  }

  // ---------------------------------------------------------------------
  // Refresh: the steps of refresh_jwt

  /**
   * The claims of the presented token, `jwt.decode(payload.get("token"), secret)`:
   * None where PyJWT raises `InvalidTokenError`, which it also does for a
   * missing token.
   */
  function Decoded(s: Settings, now: int): Option<ClaimMap>
  {
    var token := Get(s.payload, TokenField);
    if token.None? then None else s.codec.decode(token.value, s.jwtSigningSecret, now)
  }

  /** The old token's subject, `decoded_token.get('sub')`. */
  function Subject(s: Settings, now: int): Option<string>
    requires Decoded(s, now).Some?
  {
    Claim(Decoded(s, now).value, "sub")
  }

  predicate HasSubject(s: Settings, now: int)
  {
    Decoded(s, now).Some? && !Falsy(Subject(s, now))
  }

  /** The bearer token stored for the subject. */
  function StoredGrant(s: Settings, items: map<string, string>, storeFailing: bool, now: int): Option<string>
    requires HasSubject(s, now)
  {
    BearerTokenIn(ItemReply(items, storeFailing, Subject(s, now).value))
  }

  predicate GrantStored(s: Settings, items: map<string, string>, storeFailing: bool, now: int)
  {
    HasSubject(s, now) && !Falsy(StoredGrant(s, items, storeFailing, now))
  }

  /** Who GitHub now says the stored bearer token belongs to. */
  function StoredGrantOwner(s: Settings, gh: GitHubReplies, items: map<string, string>, storeFailing: bool, now: int): UserInfo
    requires GrantStored(s, items, storeFailing, now)
  {
    UserInfoFrom(gh.tokenInfo(s.client, StoredGrant(s, items, storeFailing, now).value))
  }

  predicate Revalidated(s: Settings, gh: GitHubReplies, items: map<string, string>, storeFailing: bool, now: int)
  {
    GrantStored(s, items, storeFailing, now) && Identified(StoredGrantOwner(s, gh, items, storeFailing, now))
  }

  /**
   * `refresh_jwt`: which outcome and which GitHub requests for which inputs.
   * The token, its subject and the store are checked before GitHub is asked
   * anything; the store is never written; the new token's subject is the id
   * GitHub reports now, not the old token's subject.
   */
  function Refresh(s: Settings, gh: GitHubReplies, items: map<string, string>, storeFailing: bool, now: int): (t: Trace)
    ensures Decoded(s, now).None? ==> t == Failure(Unauthorized, InvalidJwt, [])
    ensures Decoded(s, now).Some? && !HasSubject(s, now) ==> t == Failure(Unauthorized, NoSubject, [])
    ensures HasSubject(s, now) && !GrantStored(s, items, storeFailing, now) ==>
      t == Failure(Unauthorized, NoStoredToken, [])
    ensures GrantStored(s, items, storeFailing, now) && !Revalidated(s, gh, items, storeFailing, now) ==>
      t == Failure(Unauthorized, NotValidated, [CheckToken(s.client, StoredGrant(s, items, storeFailing, now).value)])
    ensures Revalidated(s, gh, items, storeFailing, now) ==>
      var bearerToken := StoredGrant(s, items, storeFailing, now).value;
      var owner := StoredGrantOwner(s, gh, items, storeFailing, now);
      t.requests == [CheckToken(s.client, bearerToken)] &&
      t.outcome == FormatJwt(s.codec, s.jwtSigningSecret, now, owner.id.value, owner.login.value, bearerToken)
    ensures t.stored == None
    ensures t.outcome.Returned? <==> Revalidated(s, gh, items, storeFailing, now)
    ensures t.outcome.response.httpStatus in {Ok, Unauthorized}
    ensures forall r | r in t.requests :: r.CheckToken? && r.client == s.client
  {
    if Decoded(s, now).None? then
      Failure(Unauthorized, InvalidJwt, [])
    else if !HasSubject(s, now) then
      Failure(Unauthorized, NoSubject, [])
    else if !GrantStored(s, items, storeFailing, now) then
      Failure(Unauthorized, NoStoredToken, [])
    else
      var bearerToken := StoredGrant(s, items, storeFailing, now).value;
      var calls := [CheckToken(s.client, bearerToken)];
      if !Revalidated(s, gh, items, storeFailing, now) then
        Failure(Unauthorized, NotValidated, calls)
      else
        var owner := StoredGrantOwner(s, gh, items, storeFailing, now);
        Trace(FormatJwt(s.codec, s.jwtSigningSecret, now, owner.id.value, owner.login.value, bearerToken), calls, None)
  }

  // ---------------------------------------------------------------------
  // The two operations together

  /**
   * A token just issued can be refreshed before it expires: with a codec
   * that round-trips, the same secret, the store as the issue left it (read
   * back with its latest write) and GitHub still recognising the bearer
   * token, the refresh succeeds, asks
   * GitHub once, and re-issues the token for the same user.
   */
  lemma IssuedTokenRefreshes(s: Settings, gh: GitHubReplies, items: map<string, string>, issuedAt: int, now: int)
    requires RoundTrips(s.codec)
    requires Issue(s, gh, false, issuedAt).outcome.Returned?
    requires issuedAt <= now < issuedAt + TokenLifetime
    ensures
      var issued := Issue(s, gh, false, issuedAt);
      var s' := s.(payload := [(TokenField, issued.outcome.response.data.token)]);
      var refreshed := Refresh(s', gh, AfterWrite(items, issued.stored), false, now);
      var owner := GrantOwner(s, gh);
      refreshed.requests == [CheckToken(s.client, Grant(s, gh).value)] &&
      refreshed.outcome == FormatJwt(s.codec, s.jwtSigningSecret, now, owner.id.value, owner.login.value, Grant(s, gh).value)
  {
    var issued := Issue(s, gh, false, issuedAt);
    var owner := GrantOwner(s, gh);
    var bearerToken := Grant(s, gh).value;
    var claims := MintClaims(issuedAt, owner.id.value, owner.login.value, bearerToken);
    var token := s.codec.encode(claims, s.jwtSigningSecret);
    assert issued.outcome.response.data.token == token;
    var s' := s.(payload := [(TokenField, token)]);
    assert Get(s'.payload, TokenField) == Some(token);
    assert Decoded(s', now) == Some(StringClaims(claims));
    assert Subject(s', now) == Some(owner.id.value);
    var items' := AfterWrite(items, issued.stored);
    assert items' == Upsert(items, owner.id.value, bearerToken);
    assert StoredGrant(s', items', false, now) == Some(bearerToken);
    assert StoredGrantOwner(s', gh, items', false, now) == owner;
  }

  // ---------------------------------------------------------------------
  // The class

  /** The Lambda event's entries that the constructor copies onto the instance. */
  datatype LambdaEvent = LambdaEvent(
    payload: Payload,
    jwtSigningSecret: string,
    oauthClientId: string,
    oauthClientSecret: string)

  class JwtAuthentication {
    var payload: Payload
    var jwtSigningSecret: string
    var oauthClientId: string
    var oauthClientSecret: string
    var expectedOauthScopes: seq<string>
    /** PyJWT, GitHub and the DynamoDB table the instance talks to. */
    const codec: Codec
    const github: GitHub
    const datastore: Datastore

    /** Copies the event's entries; the expected scopes are `['user']`. */
    constructor (event: LambdaEvent, codec: Codec, github: GitHub, datastore: Datastore)
      ensures payload == event.payload && jwtSigningSecret == event.jwtSigningSecret
      ensures oauthClientId == event.oauthClientId && oauthClientSecret == event.oauthClientSecret
      ensures expectedOauthScopes == ["user"]
      ensures this.codec == codec && this.github == github && this.datastore == datastore
    {
      payload := event.payload;
      jwtSigningSecret := event.jwtSigningSecret;
      oauthClientId := event.oauthClientId;
      oauthClientSecret := event.oauthClientSecret;
      expectedOauthScopes := ["user"];
      this.codec := codec;
      this.github := github;
      this.datastore := datastore;
    }

    function Current(): Settings
      reads this
    {
      Settings(payload, jwtSigningSecret, Client(oauthClientId, oauthClientSecret), expectedOauthScopes, codec)
    }

    /** `dispense_new_jwt`, run at time `now`. */
    method DispenseNewJwt(now: int) returns (r: Outcome<Body>)
      modifies github, datastore
      ensures var t := Issue(Current(), github.replies, datastore.failing, now);
        r == t.outcome &&
        github.requests == old(github.requests) + t.requests &&
        datastore.items == AfterWrite(old(datastore.items), t.stored)
    {
      var tempAccessCode := Get(payload, PasswordField);
      if Falsy(tempAccessCode) {
        r := FormatResponse(BadRequest, ErrorBody(PasswordNotFound(payload)));
        return;
      }

      var bearerToken := RetrieveBearerToken(tempAccessCode.value);
      if Falsy(bearerToken) {
        r := FormatResponse(Unauthorized, ErrorBody(NotAuthorized));
        return;
      }

      var user := RetrieveGhUserInfo(bearerToken.value);
      if !Identified(user) {
        r := FormatResponse(Unauthorized, ErrorBody(NoGitHubUser));
        return;
      }

      var stored := StoreBearerToken(user.id.value, bearerToken.value);
      if !stored {
        r := FormatResponse(InternalError, ErrorBody(PersistFailed));
        return;
      }

      r := FormatJwt(codec, jwtSigningSecret, now, user.id.value, user.login.value, bearerToken.value);
    }

    /** `refresh_jwt`, run at time `now`; it reads the table and never writes it. */
    method RefreshJwt(now: int) returns (r: Outcome<Body>)
      modifies github
      ensures var t := Refresh(Current(), github.replies, datastore.items, datastore.failing, now);
        r == t.outcome &&
        github.requests == old(github.requests) + t.requests
      ensures unchanged(datastore)
    {
      var currentJwt := Get(payload, TokenField);
      var decodedToken := if currentJwt.None? then None else codec.decode(currentJwt.value, jwtSigningSecret, now);
      if decodedToken.None? {
        r := FormatResponse(Unauthorized, ErrorBody(InvalidJwt));
        return;
      }

      var userid := Claim(decodedToken.value, "sub");
      if Falsy(userid) {
        r := FormatResponse(Unauthorized, ErrorBody(NoSubject));
        return;
      }

      var bearerToken := LookupBearerToken(userid.value);
      if Falsy(bearerToken) {
        r := FormatResponse(Unauthorized, ErrorBody(NoStoredToken));
        return;
      }

      var user := RetrieveGhUserInfo(bearerToken.value);
      if !Identified(user) {
        r := FormatResponse(Unauthorized, ErrorBody(NotValidated));
        return;
      }

      r := FormatJwt(codec, jwtSigningSecret, now, user.id.value, user.login.value, bearerToken.value);
    }

    /** `retrieve_bearer_token`: one exchange request, then the scope gate. */
    method RetrieveBearerToken(accessCode: string) returns (bearerToken: Option<string>)
      modifies github`requests
      ensures bearerToken == BearerTokenFrom(github.replies.accessToken(Current().client, accessCode), expectedOauthScopes)
      ensures github.requests == old(github.requests) + [ExchangeCode(Current().client, accessCode)]
    {
      var reply := github.PostAccessToken(Client(oauthClientId, oauthClientSecret), accessCode);
      if reply.status != Ok {
        return None;
      }
      if !AreScopesSufficient(expectedOauthScopes, reply.scope) {
        return None;
      }
      return Some(reply.accessToken);
    }

    /** `retrieve_gh_user_info`: one token-check request. */
    method RetrieveGhUserInfo(bearerToken: string) returns (user: UserInfo)
      modifies github`requests
      ensures user == UserInfoFrom(github.replies.tokenInfo(Current().client, bearerToken))
      ensures github.requests == old(github.requests) + [CheckToken(Current().client, bearerToken)]
    {
      var reply := github.GetTokenInfo(Client(oauthClientId, oauthClientSecret), bearerToken);
      if reply.status != Ok {
        return UserInfo(None, None);
      }
      return UserInfo(reply.id, reply.login);
    }

    /** `lookup_bearer_token`, with a missing item read as None (see `LookupAsWritten`). */
    method LookupBearerToken(userId: string) returns (bearerToken: Option<string>)
      ensures bearerToken == BearerTokenIn(ItemReply(datastore.items, datastore.failing, userId))
    {
      var reply := datastore.GetItem(userId);
      if reply.Item? {
        return Some(reply.bearerToken);
      }
      return None;
    }

    /** `store_bearer_token`: one `put_item`; false when the table raises. */
    method StoreBearerToken(userId: string, bearerToken: string) returns (ok: bool)
      modifies datastore`items
      ensures ok == !datastore.failing
      ensures datastore.items == if ok then Upsert(old(datastore.items), userId, bearerToken) else old(datastore.items)
    {
      ok := datastore.PutItem(userId, bearerToken);
    }
  }
}
