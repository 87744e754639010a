/** Values shared by the middleware and every handler: the outcome of a
    fallible call, the JSON reply a handler writes, the values a gin
    context carries between the permission middleware and the handlers,
    and the query string and uploaded-file inputs of a request. */
module Common {

  datatype Option<+T> = None | Some(value: T)

  /** An error value as a handler sees it. `NoRows` stands for Go's
      `sql.ErrNoRows`, the one error a handler tests for by identity;
      every other error is known only by its text. */
  datatype Error = NoRows | Failure(text: string) {
    /** The text `err.Error()` returns. */
    function Text(): (t: string) {
      match this
      case NoRows => "sql: no rows in result set"
      case Failure(t) => t
    }
  }

  /** The outcome of a fallible call: a bind, an upload, a gRPC call,
      a token operation. */
  datatype Result<+T> = Ok(value: T) | Err(error: Error)

  /** The JSON object a handler writes. `ErrorJson(m)` is `{"error": m}`;
      `Keyed(k, v)` is `gin.H{k: v}`; `Plain(v)` writes `v` itself. */
  datatype Body<+T> = ErrorJson(error: string) | Keyed(key: string, value: T) | Plain(value: T)

  /** What a handler ends with: a status and a body, or a run-time panic
      (a failed `MustGet` or type assertion). */
  datatype Reply<+T> = Reply(status: int, body: Body<T>) | Panic(reason: string)

  const StatusOK: int := 200
  const StatusCreated: int := 201
  const StatusBadRequest: int := 400
  const StatusUnauthorized: int := 401
  const StatusNotFound: int := 404
  const StatusInternalServerError: int := 500

  /** The failed-call reply: status `code`, body `{"error": err.Error()}`. */
  function Fail<T>(code: int, e: Error): (r: Reply<T>)
    ensures r.Reply? && r.status == code && r.body == ErrorJson(e.Text())
  {
    Reply(code, ErrorJson(e.Text()))
  }

  /** How a handler answers a backend call: on an error, `errorStatus` with
      the error's text; otherwise `okStatus` with the answer, written as is or
      wrapped under `key`. */
  function Answer<T>(result: Result<T>, errorStatus: int, okStatus: int, key: Option<string>): (r: Reply<T>)
    ensures result.Err? ==> r == Fail(errorStatus, result.error)
    ensures result.Ok? && key.None? ==> r == Reply(okStatus, Plain(result.value))
    ensures result.Ok? && key.Some? ==> r == Reply(okStatus, Keyed(key.value, result.value))
  {
    match result
    case Err(e) => Fail(errorStatus, e)
    case Ok(v) => if key.Some? then Reply(okStatus, Keyed(key.value, v)) else Reply(okStatus, Plain(v))
  }

  /** A token claim value: a string, or anything else (number, object,
      null), which a `.(string)` assertion rejects. */
  datatype ClaimValue = Str(s: string) | NonString

  /** The claim set `ExtractClaims` returns (a `jwt.MapClaims`). */
  type Claims = map<string, ClaimValue>

  /** A value stored with `ctx.Set`: Go's `nil` (a missing claim read
      from a Go map), one claim, or the whole claim set. */
  datatype CtxValue = Nil | Claim(claim: ClaimValue) | ClaimSet(claims: Claims)

  /** The value `ctx.Set("user_id", claims["user_id"])` stores: a missing
      claim is Go's zero value `nil`. */
  function UserIdClaim(claims: Claims): (v: CtxValue)
    ensures "user_id" in claims <==> v.Claim?
    ensures v.Claim? ==> v.claim == claims["user_id"]
    ensures "user_id" !in claims ==> v == Nil
  {
    if "user_id" in claims then Claim(claims["user_id"]) else Nil
  }

  /** `ctx.MustGet("user_id").(string)`: `Some(id)` exactly when the key is
      present and holds a string; otherwise that expression panics. */
  function UserIdOf(keys: map<string, CtxValue>): (id: Option<string>)
    ensures id.Some? <==> "user_id" in keys && keys["user_id"].Claim? && keys["user_id"].claim.Str?
    ensures id.Some? ==> keys["user_id"] == Claim(Str(id.value))
  {
    if "user_id" in keys && keys["user_id"].Claim? && keys["user_id"].claim.Str?
    then Some(keys["user_id"].claim.s)
    else None
  }

  /** The panic a failed `MustGet("user_id").(string)` raises. */
  const UserIdPanic: string := "user_id missing from context or not a string"

  /** Query parameters of a request; `c.Query(k)` is `""` for an absent key. */
  type Query = map<string, string>

  function QueryValue(q: Query, key: string): (v: string)
    ensures key !in q ==> v == ""
    ensures key in q ==> v == q[key]
  {
    if key in q then q[key] else ""
  }

  /** An uploaded multipart file, as `c.FormFile("file")` returns it. The
      handlers only pass it on to an upload function. */
  datatype File = File(filename: string)
}
