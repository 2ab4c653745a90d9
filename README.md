# auth-backend credential pipeline, in Dafny

This project models the core of a GitHub-backed JSON Web Token service. Class
`JWTAuthentication` has two operations:

- **Issue** (`dispense_new_jwt`) exchanges a temporary OAuth code for a GitHub
  bearer token. It checks the granted scopes, asks GitHub whose token it is,
  stores the token under the user's id in a DynamoDB table, and answers with a
  signed token. The token lives ten minutes.
- **Refresh** (`refresh_jwt`) decodes such a token and looks up the stored bearer
  token for its subject. It checks that token with GitHub again and answers with a
  new signed token.

Every answer goes through `format_response`, which returns the
`{http_status, data}` record for status 200 and raises it for any other status.

Layout, one module per component:

- `wrappers.dfy`: `Option`.
- `http.dfy` (`Http`): `format_response`.
- `scopes.dfy` (`Scopes`): Python's `str.split(',')`, its inverse `join`, and
  `are_scopes_sufficient`.
- `event.dfy` (`Event`): the request payload, `dict.get`, Python truthiness of
  strings, and a rendering of the payload for the 400 message.
- `tokens.dfy` (`Tokens`): the claim set and the JWT codec. The codec is a pair of
  encode/decode functions that the caller supplies.
- `services.dfy` (`Services`): stand-ins for GitHub and the DynamoDB table.
  - `GitHub` answers each request by a fixed function and logs every request sent.
  - `Datastore` holds the table as a map, plus a flag saying whether the table fails.
- `jwt_authentication.dfy` (`JwtAuth`): two kinds of member.
  - The specification functions `Issue` and `Refresh`. Each says which outcome, which
    GitHub requests and which store write follow from which inputs.
  - Class `JwtAuthentication`. Its methods follow the source call by call and are
    proved to meet `Issue` and `Refresh`.

## Model

| member | source | states |
|---|---|---|
| `Http.FormatResponse` | auth_backend/http.py:4-11 | The record holds exactly the given status and payload. It is returned when the status is 200 and raised for every other status, including 400, 401 and 500. |
| `Scopes.Split` | auth_backend/jwt_authentication.py:108 | `str.split(',')` yields at least one piece and at most one more piece than the string has characters. |
| `Scopes.SplitPiecesHaveNoSeparator` | auth_backend/jwt_authentication.py:108 | No piece of the split contains a comma. |
| `Scopes.JoinSplit` | auth_backend/jwt_authentication.py:108 | Joining the pieces with the separator gives back the scope string. |
| `Scopes.SplitJoin` | auth_backend/jwt_authentication.py:108 | Splitting joined comma-free pieces gives back the pieces, so split and join are inverses. |
| `Scopes.SplitWithoutSeparator` | auth_backend/jwt_authentication.py:108 | A string without a comma splits into itself alone. |
| `Scopes.SplitConcat` | auth_backend/jwt_authentication.py:108 | Splitting `a + "," + b` gives the pieces of `a` followed by the pieces of `b`. |
| `Scopes.AreScopesSufficient` | auth_backend/jwt_authentication.py:107-109 | True exactly when every expected scope equals one of the comma-separated granted scopes. |
| `Scopes.MoreScopesStaySufficient` | auth_backend/jwt_authentication.py:107-109 | Granting extra scopes, before or after the others, never turns a sufficient grant into an insufficient one. |
| `Scopes.UserScopeAccepted` | auth_backend/jwt_authentication.py:22 | With the default expected scopes `['user']`, both "user" and "repo,user" pass the gate. |
| `Scopes.SplitKeepsPadding` | auth_backend/jwt_authentication.py:108 | "repo, user" splits into "repo" and " user", with the space kept. |
| `Scopes.UserScopeMatchedExactly` | auth_backend/jwt_authentication.py:107-109 | Matching is exact: "repo, user", "User" and "" all fail the `['user']` gate. |
| `Event.Get` | auth_backend/jwt_authentication.py:25 | `payload.get(key)` is None exactly when no field has that key; otherwise it is the value of a field with that key. |
| `Tokens.MintClaims` | auth_backend/jwt_authentication.py:127-134 | The claims are `iat = now` and `exp = iat + 10 minutes`, with `sub`, `github_login` and `github_token` set to the user id, the login and the bearer token. |
| `Services.Upsert` | auth_backend/jwt_authentication.py:158-162 | `put_item` is an upsert: the key now maps to the new bearer token, and every other key keeps its value. |
| `Services.ReadAfterWrite` | auth_backend/jwt_authentication.py:145-162 | On the model's table, a `get_item` right after a successful `put_item` of the same key returns the written token. The source's default read need not (see Left out). |
| `Services.GitHub.PostAccessToken` | auth_backend/jwt_authentication.py:87-89 | The code exchange sends exactly one request, recorded in the request log, and returns GitHub's answer to it. |
| `Services.GitHub.GetTokenInfo` | auth_backend/jwt_authentication.py:112-115 | The token check sends exactly one request, recorded in the request log, and returns GitHub's answer to it. |
| `Services.Datastore.PutItem` | auth_backend/jwt_authentication.py:157-165 | A failing table leaves the items unchanged and reports failure. Otherwise the item is upserted. |
| `Services.Datastore.GetItem` | auth_backend/jwt_authentication.py:144-148 | The reply is an error if the table fails, the stored token if the user has one, and "no item" otherwise. |
| `JwtAuth.PasswordNotFound` | auth_backend/jwt_authentication.py:28 | The 400 message starts with `'password' field not found: `, followed by the payload. |
| `JwtAuth.BearerTokenFrom` | auth_backend/jwt_authentication.py:90-105 | A bearer token results exactly when GitHub answers 200 and the granted scopes are sufficient, and it is the answer's `access_token`. |
| `JwtAuth.UserInfoFrom` | auth_backend/jwt_authentication.py:116-125 | A non-200 answer gives (None, None). The user counts as identified exactly when the status is 200 and both `id` and `login` are non-empty. |
| `JwtAuth.LookupAsWritten` | auth_backend/jwt_authentication.py:138-149 | As written, a user with no item raises `KeyError`, and only in that case. A table error yields None and a stored item yields its token. |
| `JwtAuth.UnknownUserRaisesKeyError` | auth_backend/jwt_authentication.py:145-146 | For a user absent from a working table, the as-written lookup raises, while the corrected lookup answers None. |
| `JwtAuth.BearerTokenIn` | auth_backend/jwt_authentication.py:138-149 | Corrected lookup: the stored token exactly when the table has an item for the user. Otherwise None. |
| `JwtAuth.FormatJwt` | auth_backend/jwt_authentication.py:127-136 | It always returns status 200. The token is the signature, with the configured secret, of the claims minted now for the user. |
| `JwtAuth.Issue` | auth_backend/jwt_authentication.py:24-49 | 400 with no request when `password` is falsy. Then, in order: 401 "Not Authorized" after only the exchange; 401 "Could not find GitHub user information" after exchange and check; 500 "Unable to persist bearer token". Otherwise 200 with the minted token. The store is written exactly on success, with user id → bearer token. Statuses are within {200, 400, 401, 500}, and every request uses the configured client. |
| `JwtAuth.ExchangeFailuresIndistinguishable` | auth_backend/jwt_authentication.py:32-36 | A code GitHub refuses and a grant whose scopes fall short give the same result: 401 "Not Authorized" after one request. |
| `JwtAuth.Refresh` | auth_backend/jwt_authentication.py:51-79 | Each failure is 401 and they are checked in this order: "Invalid JSON Web Token", "sub field not present in JWT" and "Could not find bearer token in datastore" (no GitHub request in any of these), then "Could not validate bearer token" after one token check. On success the answer is 200 with a token whose `sub` is the id GitHub just reported. The store is never written, and no code exchange is ever sent. |
| `JwtAuth.IssuedTokenRefreshes` | auth_backend/jwt_authentication.py:24-79 | A token just issued can be refreshed before it expires. The hypotheses are a codec that round-trips, the same secret, the store as Issue left it (the model's table returns its latest write), and GitHub still recognising the bearer token. The refresh then sends one token check and re-issues the token for the same user, login and bearer token. |
| `JwtAuth.JwtAuthentication.constructor` | auth_backend/jwt_authentication.py:14-22 | Copies the payload, the signing secret and the OAuth client credentials from the event. The expected scopes are `['user']`. |
| `JwtAuth.JwtAuthentication.DispenseNewJwt` | auth_backend/jwt_authentication.py:24-49 | Returns `Issue`'s outcome. It appends exactly `Issue`'s requests to GitHub's log and applies exactly `Issue`'s write to the table. |
| `JwtAuth.JwtAuthentication.RefreshJwt` | auth_backend/jwt_authentication.py:51-79 | Returns `Refresh`'s outcome and appends exactly `Refresh`'s requests to GitHub's log. The table is unchanged. |
| `JwtAuth.JwtAuthentication.RetrieveBearerToken` | auth_backend/jwt_authentication.py:81-105 | Sends one exchange request with the configured client, then applies `BearerTokenFrom` to the answer. |
| `JwtAuth.JwtAuthentication.RetrieveGhUserInfo` | auth_backend/jwt_authentication.py:111-125 | Sends one token-check request with the configured client, then applies `UserInfoFrom` to the answer. |
| `JwtAuth.JwtAuthentication.LookupBearerToken` | auth_backend/jwt_authentication.py:138-149 | Reads the table without changing it and answers with the corrected lookup `BearerTokenIn`. |
| `JwtAuth.JwtAuthentication.StoreBearerToken` | auth_backend/jwt_authentication.py:151-166 | Answers false exactly when the table fails. On success the user id maps to the bearer token and no other key changes. |

## Findings

| source | as written | input that shows it | evidently intended | confidence | as-written member | corrected member |
|---|---|---|---|---|---|---|
| auth_backend/jwt_authentication.py:145-146 | `response['Item']` is subscripted unchecked. Only `Boto3Error` is caught. | A refresh whose token's `sub` has no item in a working table: `get_item` returns a response without `Item`, so `KeyError` escapes `refresh_jwt`. | None, giving 401 "Could not find bearer token in datastore", as the refresh test expects with a mocked lookup. | medium, not executed (relies on boto3 leaving out `Item` for a missing key) | `JwtAuth.LookupAsWritten` | `JwtAuth.BearerTokenIn` |

`JwtAuth.UnknownUserRaisesKeyError` exhibits the discrepancy. The pipeline
(`Refresh`, `RefreshJwt`) uses the corrected lookup.

## Left out

- Network and store I/O are left out. The `requests` calls to GitHub and the `boto3`
  table access are replaced by the stand-ins in `services.dfy`.
  - GitHub answers each request by a fixed function of client and argument.
  - The table fails on every call or on none.
  - `auth_dynamodb_endpoint_url` and `dynamodb_table_name` only pick the table, so they
    are not fields of the model.
- The JWT codec is not modelled: PyJWT's HS256 signing, base64 and expiry checking.
  - Encode and decode are supplied as functions.
  - Decode answers None wherever PyJWT raises `InvalidTokenError`. That includes a
    missing `token` field, which PyJWT rejects as a malformed token.
  - No round-trip is claimed of the codec. `IssuedTokenRefreshes` takes one as a
    hypothesis.
- Malformed GitHub JSON is not modelled: a missing `scope`, `access_token` or `user` key
  raises in the source (lines 100, 105 and 124). The model assumes GitHub's answers carry
  these keys.
- Only string values are modelled. Payload values, claim values and GitHub's `id` and
  `login` are strings, and Python truthiness is modelled for strings only (None or "").
  An integer GitHub id of 0 would also be falsy in the source.
- The payload's rendering in the 400 message is not Python 2's `repr`. The source runs
  under Python 2 (`BaseHTTPServer`), where `json.loads` gives unicode strings, so line 28
  prints `{u'password': u''}` where the model prints `{'password': ''}`. Python 2 dicts
  also have no insertion order, so with several keys the source's key order is hash order,
  not the model's field order. Escaping of quotes and backslashes is not modelled either.
  Only the message's prefix `'password' field not found: ` is exact.
- The model's table always returns its latest write. The source's `get_item` (line 145)
  does not ask for `ConsistentRead`, so DynamoDB may answer from a replica that has not
  yet seen a `put_item` made just before. `ReadAfterWrite` and `IssuedTokenRefreshes`
  hold for the model's table, not for that eventually consistent read.
- Only one clock reading is modelled: `now`, in whole seconds. The source reads
  `utcnow()` twice (lines 129-130), so its `exp - iat` is ten minutes only up to the gap
  between the two reads, and it keeps microseconds.
- Logging is not modelled. It is a diagnostic side channel.
- The constructor does not model missing event entries. The source's `setattr` loop
  stores None for a missing key; the model's `LambdaEvent` always has all four entries.
- Errors the source does not catch are not modelled, apart from the `KeyError` under
  Findings. For example, `botocore` client errors are not `Boto3Error`, so a table error
  in `put_item` or `get_item` escapes the source's handlers. The model treats every table
  failure as the handled case.
- The JSON text of the raised `TypeError` is not modelled. `Outcome.Raised` carries the
  record itself.
