/**
 * The request payload handed to `JWTAuthentication` (the `payload` entry of
 * the Lambda event): a JSON object whose fields the pipeline reads with
 * `payload.get(key)` and whose Python `repr` appears in one error message.
 */
module Event {
  import opened Wrappers

  /**
   * The payload's fields with their string values, in the order the model
   * renders them (the source's dict has no fixed key order).
   */
  type Payload = seq<(string, string)>

  /**
   * `payload.get(key)`: the value of the first field named `key`, or None
   * when no field has that name. (A dict has distinct keys, so "first" is "the".)
   */
  function Get(payload: Payload, key: string): (r: Option<string>)
    ensures r.None? <==> forall i | 0 <= i < |payload| :: payload[i].0 != key
    ensures r.Some? ==> exists i | 0 <= i < |payload| :: payload[i] == (key, r.value)
  {
    if |payload| == 0 then None
    else if payload[0].0 == key then Some(payload[0].1)
    else
      var r := Get(payload[1..], key);
      assert r.Some? ==> exists i | 0 <= i < |payload[1..]| :: payload[1..][i] == (key, r.value);
      assert forall i | 1 <= i < |payload| :: payload[i] == payload[1..][i - 1];
      r
  }

  /** Python truthiness of an optional string: None and "" are false, every other string is true. */
  predicate Falsy(v: Option<string>)
  {
    v.None? || v.value == ""
  }

  /** A string rendered in single quotes, without the `u` prefix or escapes that Python 2's `repr` adds. */
  function Quote(s: string): string
  {
    "'" + s + "'"
  }

  /** The payload rendered in the shape `%s` gives a dict, `{'k1': 'v1', 'k2': 'v2'}`, in the model's field order. */
  function Repr(payload: Payload): string
  {
    "{" + Entries(payload) + "}"
  }

  function Entries(payload: Payload): string
  {
    if |payload| == 0 then ""
    else
      var entry := Quote(payload[0].0) + ": " + Quote(payload[0].1);
      if |payload| == 1 then entry else entry + ", " + Entries(payload[1..])
  }

  /** The payload's fields other than the configuration: `password` for an issue, `token` for a refresh. */
  const PasswordField: string := "password"
  const TokenField: string := "token"
}
