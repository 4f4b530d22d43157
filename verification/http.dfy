/** What the screens see of an HTTP exchange with the remote API. Paths
    are relative to the configured API base URL. */
module Http {
  import opened Wrappers

  datatype Method = POST | PATCH

  /** The outcome of `fetch(...)` followed by `response.json()`:
      either `fetch` itself rejected (no connection), or a response arrived
      with its `ok` flag and a body whose JSON parse succeeded or threw. */
  datatype Response<B> = Unreachable(message: string) | Received(ok: bool, body: Result<B>)

  /** The `Authorization` header value `Bearer ${token}`; a `null` token is
      interpolated as the text "null". */
  function Authorization(token: Option<string>): (h: string)
    ensures |h| >= 7 && h[..7] == "Bearer "
    ensures token.Some? ==> h[7..] == token.value
    ensures token.None? ==> h[7..] == "null"
  {
    "Bearer " + token.GetOr("null")
  }
}
