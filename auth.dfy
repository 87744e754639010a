/** The sign-up and password-reset workflows of the auth handler. Two
    email-keyed stores sit behind them: the pending registrations (each
    with the code mailed out) and the password-reset codes. Email sending,
    the email-format check, token minting and the user service are
    oracles; every call the handler makes to a mailer or to the user
    service is appended to a log, so "no call was made" can be stated. */
module Auth {
  import opened Common

  /** The sign-up form. */
  datatype RegisterRequest = RegisterRequest(
    firstName: string, lastName: string, email: string, phone: string,
    username: string, country: string, bio: string, password: string)

  /** A cached registration: the form and the code mailed for it. */
  datatype PendingRegistration = PendingRegistration(form: RegisterRequest, code: string)

  datatype AcceptCode = AcceptCode(email: string, code: string)

  datatype ResetPassReq = ResetPassReq(email: string, password: string, code: string)

  datatype UpdatePasswordReq = UpdatePasswordReq(id: string, password: string)

  /** The user service's answer to `Register`, as the handler returns it. */
  datatype RegisterResponse = RegisterResponse(
    id: string, email: string, flag: string, accessToken: string, refreshToken: string)

  /** The claims the access and refresh tokens are minted from. */
  datatype LoginClaims = LoginClaims(
    id: string, email: string, username: string, password: string, role: string, country: string)

  /** An outgoing call: a code mailed to an address, or a user-service call. */
  datatype Call =
    | SendCode(address: string)
    | RegisterRpc(form: RegisterRequest)
    | GetUserByEmail(address: string)
    | UpdatePasswordRpc(request: UpdatePasswordReq)

  /** The token minted for every self-registered account. */
  const UserRole: string := "user"

  /** The error text of a cache lookup on a missing key. */
  const MissText: string := "redis: nil"

  /** The tokens' claims after a matching code: id and email from the
      service's answer, username and country from the cached form, the
      fixed role, and no password. */
  function TokenClaims(response: RegisterResponse, form: RegisterRequest): (c: LoginClaims)
    ensures c.id == response.id && c.email == response.email
    ensures c.username == form.username && c.country == form.country
    ensures c.role == UserRole && c.password == ""
  {
    LoginClaims(response.id, response.email, form.username, "", UserRole, form.country)
  }

  class AuthHandler {
    /** Pending registrations, keyed by email. */
    var registrations: map<string, PendingRegistration>
    /** Reset codes, keyed by email. */
    var resetCodes: map<string, string>
    /** Every mailer and user-service call made so far. */
    var calls: seq<Call>

    constructor ()
      ensures registrations == map[] && resetCodes == map[] && calls == []
    {
      registrations := map[];
      resetCodes := map[];
      calls := [];
    }

    /** `email.Email(address)`: mail a fresh code; `sent` is its outcome. */
    method MailCode(address: string, sent: Result<string>) returns (code: Result<string>)
      modifies this`calls
      ensures code == sent && calls == old(calls) + [SendCode(address)]
    {
      calls := calls + [SendCode(address)];
      code := sent;
    }

    /** `Register`: check the address format, mail a code, cache the form
        with that code under the address. `validFormat` is the format check,
        `sent` what mailing returned, `storeError` what the cache write returned. */
    method Register(bound: Result<RegisterRequest>, validFormat: string -> bool,
                    sent: Result<string>, storeError: Option<Error>) returns (reply: Reply<string>)
      modifies this`registrations, this`calls
      // before a code was mailed, nothing happens at all
      ensures bound.Err? ==>
                reply == Fail(StatusBadRequest, bound.error)
                && registrations == old(registrations) && calls == old(calls)
      ensures bound.Ok? && !validFormat(bound.value.email) ==>
                reply == Reply(StatusBadRequest, ErrorJson("Invalid email provided"))
                && registrations == old(registrations) && calls == old(calls)
      // a passing address gets exactly one code mailed
      ensures bound.Ok? && validFormat(bound.value.email) ==>
                calls == old(calls) + [SendCode(bound.value.email)]
      ensures bound.Ok? && validFormat(bound.value.email) && sent.Err? ==>
                reply == Reply(StatusBadRequest, ErrorJson("Invalid email provided: " + sent.error.Text()))
                && registrations == old(registrations)
      ensures bound.Ok? && validFormat(bound.value.email) && sent.Ok? && storeError.Some? ==>
                reply == Reply(StatusInternalServerError, ErrorJson("Failed to register user"))
                && registrations == old(registrations)
      // success: the eight submitted fields and the mailed code, replacing any earlier entry
      ensures bound.Ok? && validFormat(bound.value.email) && sent.Ok? && storeError.None? ==>
                reply == Reply(StatusOK, Keyed("info", "code sent to this email " + bound.value.email))
                && registrations == old(registrations)[bound.value.email := PendingRegistration(bound.value, sent.value)]
      ensures reply.Reply? && reply.status == StatusOK <==>
                bound.Ok? && validFormat(bound.value.email) && sent.Ok? && storeError.None?
    {
      if bound.Err? {
        return Fail(StatusBadRequest, bound.error);
      }
      var form := bound.value;
      if !validFormat(form.email) {
        return Reply(StatusBadRequest, ErrorJson("Invalid email provided"));
      }
      var code := MailCode(form.email, sent);
      if code.Err? {
        return Reply(StatusBadRequest, ErrorJson("Invalid email provided: " + code.error.Text()));
      }
      var pending := PendingRegistration(form, code.value);
      if storeError.Some? {
        return Reply(StatusInternalServerError, ErrorJson("Failed to register user"));
      }
      registrations := registrations[form.email := pending];
      return Reply(StatusOK, Keyed("info", "code sent to this email " + form.email));
    }

    /** `AcceptCodeToRegister`: look the address up, compare codes, create
        the account from the cached form, mint both tokens. */
    method AcceptCodeToRegister(bound: Result<AcceptCode>,
                                registerRpc: RegisterRequest -> Result<RegisterResponse>,
                                mintAccess: LoginClaims -> Result<string>,
                                mintRefresh: LoginClaims -> Result<string>)
      returns (reply: Reply<RegisterResponse>)
      modifies this`calls
      ensures bound.Err? ==> reply == Fail(StatusBadRequest, bound.error) && calls == old(calls)
      ensures bound.Ok? && bound.value.email !in registrations ==>
                reply == Reply(StatusInternalServerError, ErrorJson("Failed to get register from redis; " + MissText))
                && calls == old(calls)
      // a wrong code creates no account
      ensures bound.Ok? && bound.value.email in registrations
              && registrations[bound.value.email].code != bound.value.code ==>
                reply == Reply(StatusBadRequest, ErrorJson("Invalid code")) && calls == old(calls)
      // a matching code: one account-creation call with the cached form
      ensures bound.Ok? && bound.value.email in registrations
              && registrations[bound.value.email].code == bound.value.code ==>
                var form := registrations[bound.value.email].form;
                && calls == old(calls) + [RegisterRpc(form)]
                && (registerRpc(form).Err? ==>
                      reply == Reply(StatusInternalServerError,
                                     ErrorJson("Failed to register student; " + registerRpc(form).error.Text())))
                && (registerRpc(form).Ok? ==>
                      var claims := TokenClaims(registerRpc(form).value, form);
                      && (mintAccess(claims).Err? ==>
                            reply == Reply(StatusInternalServerError,
                                           ErrorJson("Failed to generate access token; " + mintAccess(claims).error.Text())))
                      && (mintAccess(claims).Ok? && mintRefresh(claims).Err? ==>
                            reply == Reply(StatusInternalServerError,
                                           ErrorJson("Failed to generate refresh token; " + mintRefresh(claims).error.Text())))
                      && (mintAccess(claims).Ok? && mintRefresh(claims).Ok? ==>
                            reply == Reply(StatusOK, Plain(registerRpc(form).value.(
                                             accessToken := mintAccess(claims).value,
                                             refreshToken := mintRefresh(claims).value)))))
    {
      if bound.Err? {
        return Fail(StatusBadRequest, bound.error);
      }
      var req := bound.value;
      if req.email !in registrations {
        return Reply(StatusInternalServerError, ErrorJson("Failed to get register from redis; " + MissText));
      }
      var register := registrations[req.email];
      if register.code != req.code {
        return Reply(StatusBadRequest, ErrorJson("Invalid code"));
      }
      var form := register.form;
      calls := calls + [RegisterRpc(form)];
      var response := registerRpc(form);
      if response.Err? {
        return Reply(StatusInternalServerError, ErrorJson("Failed to register student; " + response.error.Text()));
      }
      var claims := LoginClaims(response.value.id, response.value.email, form.username, "", UserRole, form.country);
      var accessToken := mintAccess(claims);
      if accessToken.Err? {
        return Reply(StatusInternalServerError, ErrorJson("Failed to generate access token; " + accessToken.error.Text()));
      }
      var refreshToken := mintRefresh(claims);
      if refreshToken.Err? {
        return Reply(StatusInternalServerError, ErrorJson("Failed to generate refresh token; " + refreshToken.error.Text()));
      }
      var answer := response.value.(accessToken := accessToken.value, refreshToken := refreshToken.value);
      return Reply(StatusOK, Plain(answer));
    }

    /** `ForgotPassword`: the address must belong to a user; mail a code and
        store it under the address. */
    method ForgotPassword(bound: Result<string>, getUserByEmail: string -> Result<string>,
                          sent: Result<string>, storeError: Option<Error>) returns (reply: Reply<string>)
      modifies this`resetCodes, this`calls
      ensures bound.Err? ==>
                reply == Fail(StatusBadRequest, bound.error)
                && resetCodes == old(resetCodes) && calls == old(calls)
      ensures bound.Ok? && getUserByEmail(bound.value).Err? ==>
                reply == Reply(StatusInternalServerError, ErrorJson("User not registered"))
                && resetCodes == old(resetCodes) && calls == old(calls) + [GetUserByEmail(bound.value)]
      ensures bound.Ok? && getUserByEmail(bound.value).Ok? ==>
                calls == old(calls) + [GetUserByEmail(bound.value), SendCode(bound.value)]
      ensures bound.Ok? && getUserByEmail(bound.value).Ok? && sent.Err? ==>
                reply == Reply(StatusInternalServerError, ErrorJson("Error sending email " + sent.error.Text()))
                && resetCodes == old(resetCodes)
      ensures bound.Ok? && getUserByEmail(bound.value).Ok? && sent.Ok? && storeError.Some? ==>
                reply == Reply(StatusInternalServerError,
                               ErrorJson("Error storing codes in Redis " + storeError.value.Text()))
                && resetCodes == old(resetCodes)
      ensures bound.Ok? && getUserByEmail(bound.value).Ok? && sent.Ok? && storeError.None? ==>
                reply == Reply(StatusOK, Keyed("message", "Password reset code sent to your email"))
                && resetCodes == old(resetCodes)[bound.value := sent.value]
    {
      if bound.Err? {
        return Fail(StatusBadRequest, bound.error);
      }
      var address := bound.value;
      calls := calls + [GetUserByEmail(address)];
      var user := getUserByEmail(address);
      if user.Err? {
        return Reply(StatusInternalServerError, ErrorJson("User not registered"));
      }
      var code := MailCode(address, sent);
      if code.Err? {
        return Reply(StatusInternalServerError, ErrorJson("Error sending email " + code.error.Text()));
      }
      if storeError.Some? {
        return Reply(StatusInternalServerError, ErrorJson("Error storing codes in Redis " + storeError.value.Text()));
      }
      resetCodes := resetCodes[address := code.value];
      return Reply(StatusOK, Keyed("message", "Password reset code sent to your email"));
    }

    /** `ResetPassword`: compare the submitted code with the stored one, look
        the user up, set the new password. The stored code is left in place. */
    method ResetPassword(bound: Result<ResetPassReq>, getUserByEmail: string -> Result<string>,
                         updatePassword: UpdatePasswordReq -> Option<Error>) returns (reply: Reply<string>)
      modifies this`calls
      ensures bound.Err? ==> reply == Fail(StatusBadRequest, bound.error) && calls == old(calls)
      ensures bound.Ok? && bound.value.email !in resetCodes ==>
                reply == Reply(StatusNotFound, ErrorJson("Invalid or expired code " + MissText))
                && calls == old(calls)
      ensures bound.Ok? && bound.value.email in resetCodes && resetCodes[bound.value.email] != bound.value.code ==>
                reply == Reply(StatusUnauthorized, ErrorJson("Invalid code ")) && calls == old(calls)
      ensures bound.Ok? && bound.value.email in resetCodes && resetCodes[bound.value.email] == bound.value.code ==>
                var r := bound.value;
                && (getUserByEmail(r.email).Err? ==>
                      reply == Reply(StatusInternalServerError,
                                     ErrorJson("Error getting user" + getUserByEmail(r.email).error.Text()))
                      && calls == old(calls) + [GetUserByEmail(r.email)])
                && (getUserByEmail(r.email).Ok? ==>
                      var update := UpdatePasswordReq(getUserByEmail(r.email).value, r.password);
                      && calls == old(calls) + [GetUserByEmail(r.email), UpdatePasswordRpc(update)]
                      && reply == if updatePassword(update).Some?
                                  then Reply(StatusInternalServerError, ErrorJson("Error updating password"))
                                  else Reply(StatusOK, Keyed("message", "Password reset successfully")))
    {
      if bound.Err? {
        return Fail(StatusBadRequest, bound.error);
      }
      var req := bound.value;
      if req.email !in resetCodes {
        return Reply(StatusNotFound, ErrorJson("Invalid or expired code " + MissText));
      }
      var code := resetCodes[req.email];
      if code != req.code {
        return Reply(StatusUnauthorized, ErrorJson("Invalid code "));
      }
      calls := calls + [GetUserByEmail(req.email)];
      var user := getUserByEmail(req.email);
      if user.Err? {
        return Reply(StatusInternalServerError, ErrorJson("Error getting user" + user.error.Text()));
      }
      var update := UpdatePasswordReq(user.value, req.password);
      calls := calls + [UpdatePasswordRpc(update)];
      var err := updatePassword(update);
      if err.Some? {
        return Reply(StatusInternalServerError, ErrorJson("Error updating password"));
      }
      return Reply(StatusOK, Keyed("message", "Password reset successfully"));
    }
  }

  /** Two sign-ups for one address followed by an attempt with the first
      code: the second sign-up replaced the first, so the first code is
      refused and no account is created. */
  method FirstCodeRefusedAfterSecondSignUp(first: RegisterRequest, second: RegisterRequest,
                                           validFormat: string -> bool, code1: string, code2: string,
                                           registerRpc: RegisterRequest -> Result<RegisterResponse>,
                                           mintAccess: LoginClaims -> Result<string>,
                                           mintRefresh: LoginClaims -> Result<string>)
    returns (reply: Reply<RegisterResponse>, callsMade: nat)
    requires first.email == second.email && validFormat(first.email)
    requires code1 != code2
    ensures reply == Reply(StatusBadRequest, ErrorJson("Invalid code"))
    // not even the registration call is made
    ensures callsMade == 0
  {
    var h := new AuthHandler();
    var r1 := h.Register(Ok(first), validFormat, Ok(code1), None);
    var r2 := h.Register(Ok(second), validFormat, Ok(code2), None);
    var before := |h.calls|;
    reply := h.AcceptCodeToRegister(Ok(AcceptCode(first.email, code1)), registerRpc, mintAccess, mintRefresh);
    callsMade := |h.calls| - before;
  }

  /** The same two sign-ups followed by the second code: the account is
      created from the second form. */
  method LatestCodeRegistersLatestForm(first: RegisterRequest, second: RegisterRequest,
                                       validFormat: string -> bool, code1: string, code2: string,
                                       registerRpc: RegisterRequest -> Result<RegisterResponse>,
                                       mintAccess: LoginClaims -> Result<string>,
                                       mintRefresh: LoginClaims -> Result<string>)
    returns (reply: Reply<RegisterResponse>, created: seq<RegisterRequest>)
    requires first.email == second.email && validFormat(first.email)
    ensures created == [second]
    ensures registerRpc(second).Err? ==> reply.Reply? && reply.status == StatusInternalServerError
  {
    var h := new AuthHandler();
    var r1 := h.Register(Ok(first), validFormat, Ok(code1), None);
    var r2 := h.Register(Ok(second), validFormat, Ok(code2), None);
    var before := h.calls;
    reply := h.AcceptCodeToRegister(Ok(AcceptCode(second.email, code2)), registerRpc, mintAccess, mintRefresh);
    created := if |h.calls| == |before| + 1 && h.calls[|before|].RegisterRpc? then [h.calls[|before|].form] else [];
  }
}
