/**
 * The two external services the pipeline calls, as in-memory stand-ins:
 * GitHub's OAuth endpoints (`requests.post` / `requests.get` in
 * auth_backend/jwt_authentication.py) and the DynamoDB table of bearer tokens
 * (`boto3`). GitHub's answers are fixed functions of the request; every
 * request sent is recorded in a request log (not the source's `logger`), so
 * that which calls the pipeline makes, and in which order, can be stated.
 */
module Services {
  import opened Wrappers

  /** The OAuth application's credentials, `oauth_client_id` and `oauth_client_secret`. */
  datatype Client = Client(id: string, secret: string)

  /** A request sent to GitHub, as recorded in the request log. */
  datatype Request =
    | ExchangeCode(client: Client, code: string)          // POST https://github.com/login/oauth/access_token
    | CheckToken(client: Client, bearerToken: string)      // GET https://api.github.com/applications/{id}/tokens/{token}

  /** GitHub's answer to the code exchange: the HTTP status and, in the JSON body, `scope` and `access_token`. */
  datatype AccessTokenReply = AccessTokenReply(status: int, scope: string, accessToken: string)

  /** GitHub's answer to the token check: the HTTP status and the body's `user.id` and `user.login`. */
  datatype TokenInfoReply = TokenInfoReply(status: int, id: Option<string>, login: Option<string>)

  /** How GitHub answers each request. */
  datatype GitHubReplies = GitHubReplies(
    accessToken: (Client, string) -> AccessTokenReply,
    tokenInfo: (Client, string) -> TokenInfoReply)

  class GitHub {
    const replies: GitHubReplies
    /** Every request sent so far, oldest first. */
    var requests: seq<Request>

    constructor (replies: GitHubReplies)
      ensures this.replies == replies && requests == []
    {
      this.replies := replies;
      requests := [];
    }

    /** Exchanges a temporary OAuth code for a bearer token. */
    method PostAccessToken(client: Client, code: string) returns (reply: AccessTokenReply)
      modifies this`requests
      ensures reply == replies.accessToken(client, code)
      ensures requests == old(requests) + [ExchangeCode(client, code)]
    {
      requests := requests + [ExchangeCode(client, code)];
      reply := replies.accessToken(client, code);
    }

    /** Asks which user a bearer token belongs to. */
    method GetTokenInfo(client: Client, bearerToken: string) returns (reply: TokenInfoReply)
      modifies this`requests
      ensures reply == replies.tokenInfo(client, bearerToken)
      ensures requests == old(requests) + [CheckToken(client, bearerToken)]
    {
      requests := requests + [CheckToken(client, bearerToken)];
      reply := replies.tokenInfo(client, bearerToken);
    }
  }

  /** What `table.get_item` yields: a `Boto3Error`, a response without `Item`, or the stored item. */
  datatype GetItemReply = StoreError | NoItem | Item(bearerToken: string)

  /** `put_item` is an upsert: the key now maps to the new value and every other key is as it was. */
  function Upsert(items: map<string, string>, userId: string, bearerToken: string): (r: map<string, string>)
    ensures r.Keys == items.Keys + {userId}
    ensures r[userId] == bearerToken
    ensures forall k | k in items && k != userId :: r[k] == items[k]
  {
    items[userId := bearerToken]
  }

  /** The reply of `get_item` on a table holding `items`, or an error when the table is failing. */
  function ItemReply(items: map<string, string>, failing: bool, userId: string): GetItemReply
  {
    if failing then StoreError
    else if userId in items then Item(items[userId])
    else NoItem
  }

  /**
   * Read after write on the model's table: a `get_item` right after a
   * successful `put_item` of the same key sees the written value. (The
   * source's `get_item` is an eventually consistent read and need not.)
   */
  lemma ReadAfterWrite(items: map<string, string>, userId: string, bearerToken: string)
    ensures ItemReply(Upsert(items, userId, bearerToken), false, userId) == Item(bearerToken)
  {
  }

  /** The DynamoDB table mapping `user_id` to `bearer_token`. */
  class Datastore {
    var items: map<string, string>
    /** Whether every call to the table raises `Boto3Error`. */
    const failing: bool

    constructor (items: map<string, string>, failing: bool)
      ensures this.items == items && this.failing == failing
    {
      this.items := items;
      this.failing := failing;
    }

    method PutItem(userId: string, bearerToken: string) returns (ok: bool)
      modifies this`items
      ensures ok == !failing
      ensures items == if failing then old(items) else Upsert(old(items), userId, bearerToken)
    {
      ok := !failing;
      if ok {
        items := items[userId := bearerToken];
      }
    }

    method GetItem(userId: string) returns (reply: GetItemReply)
      ensures reply == ItemReply(items, failing, userId)
    {
      if failing {
        reply := StoreError;
      } else if userId in items {
        reply := Item(items[userId]);
      } else {
        reply := NoItem;
      }
    }
  }
}
