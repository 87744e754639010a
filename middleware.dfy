/** The request gate every route passes through: role lookup, policy
    decision, token re-validation and claim injection
    (`PermissionMiddleware`), and the CORS preflight answer
    (`CORSMiddleware`). The token package and the casbin enforcer are
    oracles; the gin context is a class whose fields the gate updates. */
module Middleware {
  import opened Common

  /** What `enforcer.Enforce(subject, object, action)` returns: allow,
      deny, or an evaluation error. */
  datatype Decision = Allow | Deny | EnforceError(text: string)

  /** The triple the enforcer is asked about. */
  datatype PolicyQuery = PolicyQuery(subject: string, path: string, action: string)

  /** The two results of `token.ValidateToken`. */
  datatype Validation = Validation(valid: bool, err: Option<string>)

  /** The token package as the middleware uses it. */
  datatype TokenCodec = TokenCodec(
    extractClaims: string -> Result<Claims>,
    validateToken: string -> Validation)

  const TokenEmpty: string := "token is empty"
  const RoleEmpty: string := "role is empty"
  const NoPermission: string := "You dont have permission"
  /** The error `CheckPermission` returns when `GetRole` has already aborted:
      "error while getting a role: " followed by the subject "Unauthorized". */
  const RoleLookupFailed: string := "error while getting a role: " + Unauthorized
  /** The subject `GetRole` returns with a rejection. */
  const Unauthorized: string := "Unauthorized"

  /** `fmt.Sprintf("%s", err)`: a nil error prints as `%!s(<nil>)`. */
  function ErrText(err: Option<string>): (s: string) {
    match err
    case None => "%!s(<nil>)"
    case Some(t) => t
  }

  /** The ways `GetRole` can end. */
  datatype RoleLookup = NoToken | ClaimsFailed(error: Error) | NoRole | RoleFound(role: string, claims: Claims)

  /** `GetRole`'s decision for an `Authorization` header. */
  function LookupRole(header: string, codec: TokenCodec): (r: RoleLookup)
    ensures r.NoToken? <==> header == ""
    ensures r.ClaimsFailed? <==> header != "" && codec.extractClaims(header).Err?
    ensures r.ClaimsFailed? ==> r.error == codec.extractClaims(header).error
    ensures r.RoleFound? ==> codec.extractClaims(header) == Ok(r.claims) && "role" in r.claims && r.claims["role"] == Str(r.role)
    ensures r.NoRole? <==> header != "" && codec.extractClaims(header).Ok?
                             && !("role" in codec.extractClaims(header).value && codec.extractClaims(header).value["role"].Str?)
  {
    if header == "" then NoToken
    else match codec.extractClaims(header)
      case Err(e) => ClaimsFailed(e)
      case Ok(claims) =>
        if "role" in claims && claims["role"].Str? then RoleFound(claims["role"].s, claims) else NoRole
  }

  /** The `error` text `GetRole` writes when it rejects the request. */
  function RejectionText(r: RoleLookup): (s: string)
    requires !r.RoleFound?
  {
    match r
    case NoToken => TokenEmpty
    case ClaimsFailed(e) => e.Text()
    case NoRole => RoleEmpty
  }

  /** Everything one pass through the permission middleware does to a request:
      the status it ends with, the `error` field of the JSON body it writes,
      the error it attaches with `AbortWithError`, what it stores under
      "user_id" and under "claims", the policy question it asks, and
      whether the handler chain continues. */
  datatype Verdict = Verdict(
    status: int,
    errorBody: Option<string>,
    abortError: Option<string>,
    userId: Option<CtxValue>,
    claims: Option<Claims>,
    asked: Option<PolicyQuery>,
    proceed: bool)

  /** The decision chain of `PermissionMiddleware` for one request. */
  function Gate(header: string, httpMethod: string, fullPath: string, codec: TokenCodec,
                enforce: PolicyQuery -> Decision): (v: Verdict)
    // GetRole's three rejections: 401 with a body, then an attached error whose
    // 500 cannot override the status already written; the enforcer is not asked.
    ensures header == "" ==>
              v.status == StatusUnauthorized && v.errorBody == Some(TokenEmpty) && v.asked.None? && !v.proceed
    ensures LookupRole(header, codec).ClaimsFailed? ==>
              v.status == StatusUnauthorized && v.errorBody == Some(codec.extractClaims(header).error.Text())
    ensures LookupRole(header, codec).NoRole? ==>
              v.status == StatusUnauthorized && v.errorBody == Some(RoleEmpty)
    ensures v.asked.None? <==> !LookupRole(header, codec).RoleFound?
    ensures v.asked.None? ==> v.abortError == Some(RoleLookupFailed) && v.userId.None? && !v.proceed
    // once a role is found, user_id is recorded whatever the policy says, and the
    // enforcer is asked exactly (role, route path, method)
    ensures var r := LookupRole(header, codec);
            r.RoleFound? ==> v.asked == Some(PolicyQuery(r.role, fullPath, httpMethod))
                             && v.userId == Some(UserIdClaim(r.claims))
    ensures v.asked.Some? && enforce(v.asked.value).EnforceError? ==>
              v.status == StatusInternalServerError && v.errorBody.None?
              && v.abortError == Some(enforce(v.asked.value).text) && !v.proceed
    ensures v.asked.Some? && enforce(v.asked.value) == Deny ==>
              v.status == StatusUnauthorized && v.errorBody == Some(NoPermission) && v.abortError.None? && !v.proceed
    // the empty-header 400 of the second header check is never the outcome
    ensures !(v.status == StatusBadRequest && v.errorBody == Some(NoPermission))
    ensures v.asked.Some? && enforce(v.asked.value) == Allow
            && (codec.validateToken(header).err.Some? || !codec.validateToken(header).valid) ==>
              v.status == StatusBadRequest
              && v.errorBody == Some("Token invalid: " + ErrText(codec.validateToken(header).err))
              && v.abortError.None?
    // the handler runs exactly when every check passed, with the full claim set stored
    ensures v.proceed <==> LookupRole(header, codec).RoleFound? && enforce(v.asked.value) == Allow
                           && codec.validateToken(header) == Validation(true, None)
    ensures v.proceed ==> v.claims == Some(codec.extractClaims(header).value)
                          && v.errorBody.None? && v.abortError.None?
    ensures !v.proceed ==> v.claims.None? && (v.errorBody.Some? || v.abortError.Some?)
    // an error is attached only by GetRole's rejections and by a failed enforcer
    ensures v.abortError.Some? <==> v.asked.None? || enforce(v.asked.value).EnforceError?
  {
    var r := LookupRole(header, codec);
    if !r.RoleFound? then
      Verdict(StatusUnauthorized, Some(RejectionText(r)), Some(RoleLookupFailed), None, None, None, false)
    else
      var q := PolicyQuery(r.role, fullPath, httpMethod);
      var uid := Some(UserIdClaim(r.claims));
      match enforce(q)
      case EnforceError(t) => Verdict(StatusInternalServerError, None, Some(t), uid, None, Some(q), false)
      case Deny => Verdict(StatusUnauthorized, Some(NoPermission), None, uid, None, Some(q), false)
      case Allow =>
        if header == "" then
          // GetRole has already turned an empty header away
          assert false; Verdict(StatusBadRequest, Some(NoPermission), None, uid, None, Some(q), false)
        else
          var validation := codec.validateToken(header);
          if validation.err.Some? || !validation.valid then
            var message := "Token invalid: " + ErrText(validation.err);
            assert message[0] != NoPermission[0];
            Verdict(StatusBadRequest, Some(message), None, uid, None, Some(q), false)
          else
            match codec.extractClaims(header)
            case Err(e) =>
              // the same token was decoded by GetRole a moment ago
              assert false; Verdict(StatusBadRequest, Some("Token invalid claims: " + e.Text()), None, uid, None, Some(q), false)
            case Ok(all) => Verdict(StatusOK, None, None, uid, Some(all), Some(q), true)
  }

  function OptSeq<T>(o: Option<T>): (s: seq<T>)
    ensures o.None? ==> s == []
    ensures o.Some? ==> s == [o.value]
  {
    match o
    case None => []
    case Some(x) => [x]
  }

  function Stored(keys: map<string, CtxValue>, key: string, value: Option<CtxValue>): (m: map<string, CtxValue>) {
    match value
    case None => keys
    case Some(x) => keys[key := x]
  }

  /** The parts of a `gin.Context` the middleware reads and writes. The
      request line and the `Authorization` header are fixed; the key store,
      the response status, the JSON bodies written (their `error` field),
      the errors attached, and the abort and continue flags change. */
  class Context {
    const httpMethod: string
    const fullPath: string
    const authorization: string
    var keys: map<string, CtxValue>
    var status: int
    var written: bool
    var bodies: seq<string>
    var errors: seq<string>
    var aborted: bool
    var nextCalled: bool
    var headers: map<string, string>

    /** A fresh request: gin's writer starts with status 200 and nothing written. */
    constructor (httpMethod: string, fullPath: string, authorization: string)
      ensures this.httpMethod == httpMethod && this.fullPath == fullPath && this.authorization == authorization
      ensures keys == map[] && status == StatusOK && !written && bodies == [] && errors == []
      ensures !aborted && !nextCalled && headers == map[]
    {
      this.httpMethod := httpMethod;
      this.fullPath := fullPath;
      this.authorization := authorization;
      keys := map[];
      status := StatusOK;
      written := false;
      bodies := [];
      errors := [];
      aborted := false;
      nextCalled := false;
      headers := map[];
    }

    /** `c.Status(code)`: the writer ignores a new status once the header is out. */
    method WriteHeader(code: int)
      modifies this`status
      ensures status == if written then old(status) else code
    {
      if !written {
        status := code;
      }
    }

    /** `c.AbortWithStatusJSON(code, gin.H{"error": error})`. */
    method AbortWithStatusJSON(code: int, error: string)
      modifies this`status, this`written, this`bodies, this`aborted
      ensures status == if old(written) then old(status) else code
      ensures written && aborted && bodies == old(bodies) + [error]
    {
      aborted := true;
      WriteHeader(code);
      bodies := bodies + [error];
      written := true;
    }

    /** `c.AbortWithStatus(code)`: set the status, write the header now, abort. */
    method AbortWithStatus(code: int)
      modifies this`status, this`written, this`aborted
      ensures status == if old(written) then old(status) else code
      ensures written && aborted
    {
      WriteHeader(code);
      written := true;
      aborted := true;
    }

    /** `c.AbortWithError(code, err)`: `AbortWithStatus(code)`, then attach `err`. */
    method AbortWithError(code: int, err: string)
      modifies this`status, this`written, this`aborted, this`errors
      ensures status == if old(written) then old(status) else code
      ensures written && aborted && errors == old(errors) + [err]
    {
      AbortWithStatus(code);
      errors := errors + [err];
    }

    method Set(key: string, value: CtxValue)
      modifies this`keys
      ensures keys == old(keys)[key := value]
    {
      keys := keys[key := value];
    }

    /** `c.Next()`: hand the request to the rest of the chain. */
    method Next()
      modifies this`nextCalled
      ensures nextCalled
    {
      nextCalled := true;
    }

    /** `c.Writer.Header().Set(name, value)`. */
    method SetHeader(name: string, value: string)
      modifies this`headers
      ensures headers == old(headers)[name := value]
    {
      headers := headers[name := value];
    }
  }

  /** The casbin-backed permission checker; `asked` records every question
      put to the enforcer. */
  class CasbinPermission {
    const enforcer: PolicyQuery -> Decision
    ghost var asked: seq<PolicyQuery>

    constructor (enforcer: PolicyQuery -> Decision)
      ensures this.enforcer == enforcer && asked == []
    {
      this.enforcer := enforcer;
      asked := [];
    }

    method Enforce(q: PolicyQuery) returns (d: Decision)
      modifies this`asked
      ensures d == enforcer(q) && asked == old(asked) + [q]
    {
      d := enforcer(q);
      asked := asked + [q];
    }

    /** Read the role from the bearer token; on success record the claims'
        `user_id` and return status 200, otherwise abort with 401. */
    method GetRole(ctx: Context, codec: TokenCodec) returns (subject: string, status: int)
      modifies ctx`status, ctx`written, ctx`bodies, ctx`aborted, ctx`keys
      ensures var r := LookupRole(ctx.authorization, codec);
              r.RoleFound? ==>
                && subject == r.role && status == StatusOK
                && ctx.keys == old(ctx.keys)["user_id" := UserIdClaim(r.claims)]
                && ctx.status == old(ctx.status) && ctx.written == old(ctx.written)
                && ctx.bodies == old(ctx.bodies) && ctx.aborted == old(ctx.aborted)
      ensures var r := LookupRole(ctx.authorization, codec);
              !r.RoleFound? ==>
                && subject == Unauthorized && status == StatusUnauthorized
                && ctx.keys == old(ctx.keys)
                && ctx.status == (if old(ctx.written) then old(ctx.status) else StatusUnauthorized)
                && ctx.written && ctx.aborted && ctx.bodies == old(ctx.bodies) + [RejectionText(r)]
    {
      var token := ctx.authorization;
      if token == "" {
        ctx.AbortWithStatusJSON(StatusUnauthorized, TokenEmpty);
        return Unauthorized, StatusUnauthorized;
      }
      var claims := codec.extractClaims(token);
      if claims.Err? {
        ctx.AbortWithStatusJSON(StatusUnauthorized, claims.error.Text());
        return Unauthorized, StatusUnauthorized;
      }
      var c := claims.value;
      if !("role" in c && c["role"].Str?) {
        ctx.AbortWithStatusJSON(StatusUnauthorized, RoleEmpty);
        return Unauthorized, StatusUnauthorized;
      }
      ctx.Set("user_id", UserIdClaim(c));
      return c["role"].s, StatusOK;
    }

    /** `GetRole`, then the enforcer's answer for (role, route path, method). */
    method CheckPermission(ctx: Context, codec: TokenCodec) returns (allow: bool, err: Option<string>)
      modifies ctx`status, ctx`written, ctx`bodies, ctx`aborted, ctx`keys, this`asked
      ensures var r := LookupRole(ctx.authorization, codec);
              !r.RoleFound? ==>
                && !allow && err == Some(RoleLookupFailed) && asked == old(asked)
                && ctx.keys == old(ctx.keys)
                && ctx.status == (if old(ctx.written) then old(ctx.status) else StatusUnauthorized)
                && ctx.written && ctx.aborted && ctx.bodies == old(ctx.bodies) + [RejectionText(r)]
      ensures var r := LookupRole(ctx.authorization, codec);
              r.RoleFound? ==>
                var q := PolicyQuery(r.role, ctx.fullPath, ctx.httpMethod);
                && asked == old(asked) + [q]
                && allow == (enforcer(q) == Allow)
                && err == (if enforcer(q).EnforceError? then Some(enforcer(q).text) else None)
                && ctx.keys == old(ctx.keys)["user_id" := UserIdClaim(r.claims)]
                && ctx.status == old(ctx.status) && ctx.written == old(ctx.written)
                && ctx.bodies == old(ctx.bodies) && ctx.aborted == old(ctx.aborted)
    {
      var subject, status := GetRole(ctx, codec);
      if status != StatusOK {
        return false, Some("error while getting a role: " + subject);
      }
      var action := ctx.httpMethod;
      var obj := ctx.fullPath;
      var d := Enforce(PolicyQuery(subject, obj, action));
      match d
      case EnforceError(t) => return false, Some(t);
      case Allow => return true, None;
      case Deny => return false, None;
    }

    /** The permission middleware for one request; its whole effect is the
        one `Gate` describes. */
    method PermissionMiddleware(ctx: Context, codec: TokenCodec)
      modifies ctx`keys, ctx`status, ctx`written, ctx`bodies, ctx`errors, ctx`aborted, ctx`nextCalled, this`asked
      ensures var v := Gate(ctx.authorization, ctx.httpMethod, ctx.fullPath, codec, enforcer);
              && ctx.nextCalled == (old(ctx.nextCalled) || v.proceed)
              && ctx.aborted == (old(ctx.aborted) || !v.proceed)
              && ctx.written == (old(ctx.written) || !v.proceed)
              && ctx.status == (if old(ctx.written) || v.proceed then old(ctx.status) else v.status)
              && ctx.bodies == old(ctx.bodies) + OptSeq(v.errorBody)
              && ctx.errors == old(ctx.errors) + OptSeq(v.abortError)
              && ctx.keys == Stored(Stored(old(ctx.keys), "user_id", v.userId), "claims",
                                    if v.claims.Some? then Some(ClaimSet(v.claims.value)) else None)
              && asked == old(asked) + OptSeq(v.asked)
    {
      var res, err := CheckPermission(ctx, codec);
      if err.Some? {
        ctx.AbortWithError(StatusInternalServerError, err.value);
        return;
      }
      if !res {
        ctx.AbortWithStatusJSON(StatusUnauthorized, NoPermission);
        return;
      }
      var auth := ctx.authorization;
      if auth == "" {
        // the second empty-header check (400) cannot fire: GetRole rejected "" already
        assert false;
      }
      var validation := codec.validateToken(auth);
      if validation.err.Some? || !validation.valid {
        ctx.AbortWithStatusJSON(StatusBadRequest, "Token invalid: " + ErrText(validation.err));
        return;
      }
      var claims := codec.extractClaims(auth);
      if claims.Err? {
        // GetRole decoded this very token, so the second decoding cannot fail
        assert false;
      }
      ctx.Set("claims", ClaimSet(claims.value));
      ctx.Next();
    }
  }

  /** The six headers `CORSMiddleware` sets on every response. */
  const CorsHeaders: map<string, string> := map[
    "Content-Type" := "application/json",
    "Access-Control-Allow-Origin" := "*",
    "Access-Control-Max-Age" := "86400",
    "Access-Control-Allow-Methods" := "POST, GET, OPTIONS, PUT, DELETE, UPDATE",
    "Access-Control-Allow-Headers" := "Content-Type, Content-Length, Accept-Encoding, X-CSRF-Token, Authorization, X-Max",
    "Access-Control-Allow-Credentials" := "true"]

  /** Setting the six headers one after another leaves the same header map
      as overlaying `CorsHeaders` on the previous one. */
  lemma CorsHeadersInOrder(h: map<string, string>)
    ensures h["Content-Type" := "application/json"]["Access-Control-Allow-Origin" := "*"]
             ["Access-Control-Max-Age" := "86400"]
             ["Access-Control-Allow-Methods" := "POST, GET, OPTIONS, PUT, DELETE, UPDATE"]
             ["Access-Control-Allow-Headers" := "Content-Type, Content-Length, Accept-Encoding, X-CSRF-Token, Authorization, X-Max"]
             ["Access-Control-Allow-Credentials" := "true"]
            == h + CorsHeaders
  {
  }

  /** Set the CORS headers; answer a preflight `OPTIONS` with 200 and stop,
      pass every other request on. */
  method CORSMiddleware(ctx: Context)
    modifies ctx`headers, ctx`status, ctx`written, ctx`aborted, ctx`nextCalled
    ensures ctx.headers == old(ctx.headers) + CorsHeaders
    ensures ctx.httpMethod == "OPTIONS" ==>
              && ctx.aborted && ctx.written && ctx.nextCalled == old(ctx.nextCalled)
              && ctx.status == (if old(ctx.written) then old(ctx.status) else StatusOK)
    ensures ctx.httpMethod != "OPTIONS" ==>
              && ctx.nextCalled && ctx.aborted == old(ctx.aborted)
              && ctx.written == old(ctx.written) && ctx.status == old(ctx.status)
  {
    ghost var h0 := ctx.headers;
    ctx.SetHeader("Content-Type", "application/json");
    ctx.SetHeader("Access-Control-Allow-Origin", "*");
    ctx.SetHeader("Access-Control-Max-Age", "86400");
    ctx.SetHeader("Access-Control-Allow-Methods", "POST, GET, OPTIONS, PUT, DELETE, UPDATE");
    ctx.SetHeader("Access-Control-Allow-Headers", "Content-Type, Content-Length, Accept-Encoding, X-CSRF-Token, Authorization, X-Max");
    ctx.SetHeader("Access-Control-Allow-Credentials", "true");
    CorsHeadersInOrder(h0);
    if ctx.httpMethod == "OPTIONS" {
      ctx.AbortWithStatus(StatusOK);
    } else {
      ctx.Next();
    }
  }
}
