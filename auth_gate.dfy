/** `authenticate` of `src/middleware/auth.ts`: the bearer-token gate. The identity
    provider's `auth.getUser(token)` is an oracle `verify`; the gate only parses the header,
    decides on the oracle's answer and, on success, writes `req.user`. */
module AuthGate {
  import opened Wrappers
  import opened Strings
  import opened Errors
  import opened Http

  const BearerPrefix := "Bearer "
  const NoTokenMessage := "No valid authorization token provided"
  const BadTokenMessage := "Invalid or expired token"

  /** The provider's user as far as the gate copies it. */
  datatype ProviderUser = ProviderUser(id: string, email: Option<string>, role: Option<string>)

  /** What `getUser(token)` does: resolve with `{data: {user}, error}`, or throw. */
  datatype Verification = Answer(user: Option<ProviderUser>, error: Option<string>) | Threw(thrown: Thrown)

  /** The gate's decision: attach this principal and go on, or pass this error to `next`. */
  datatype GateResult = Admit(principal: Principal) | Reject(error: Thrown)

  /** The header carries a bearer token. */
  predicate HasBearer(authorization: Option<string>) {
    authorization.Some? && StartsWith(authorization.value, BearerPrefix)
  }

  /** The gate as a value: what `next` receives and which principal gets attached. */
  function Check(authorization: Option<string>, verify: string -> Verification): (g: GateResult)
    ensures !HasBearer(authorization) ==> g == Reject(App(NewAuthenticationError(Some(NoTokenMessage))))
    ensures HasBearer(authorization) ==>
              var answer := verify(authorization.value[|BearerPrefix|..]);
              match answer
              case Threw(t) => g == Reject(t)
              case Answer(u, err) =>
                if err.Some? || u.None? then g == Reject(App(NewAuthenticationError(Some(BadTokenMessage))))
                else g == Admit(Principal(u.value.id, u.value.email, u.value.role))
  {
    if authorization.None? || authorization.value == "" || !StartsWith(authorization.value, BearerPrefix) then
      Reject(App(NewAuthenticationError(Some(NoTokenMessage))))
    else
      match verify(Drop(authorization.value, 7))
      case Threw(t) => Reject(t)
      case Answer(u, err) =>
        if err.Some? || u.None? then Reject(App(NewAuthenticationError(Some(BadTokenMessage))))
        else Admit(Principal(u.value.id, u.value.email, u.value.role))
  }

  /** Without a bearer header the provider is not consulted: the outcome is the same
      whatever the oracle would have said. */
  lemma NoOracleWithoutBearer(authorization: Option<string>, v1: string -> Verification, v2: string -> Verification)
    requires !HasBearer(authorization)
    ensures Check(authorization, v1) == Check(authorization, v2)
    ensures Check(authorization, v1).error == App(NewAuthenticationError(Some(NoTokenMessage)))
  {
  }

  /** The prefix is case-sensitive. */
  lemma LowerCaseBearerRefused(token: string, verify: string -> Verification)
    ensures Check(Some("bearer " + token), verify) == Reject(App(NewAuthenticationError(Some(NoTokenMessage))))
  {
    assert ("bearer " + token)[0] != BearerPrefix[0];
  }

  /** The oracle sees exactly the header minus its first seven characters. */
  lemma TokenIsHeaderRemainder(token: string, verify: string -> Verification)
    requires verify(token).Answer? && verify(token).error.None? && verify(token).user.Some?
    ensures Check(Some(BearerPrefix + token), verify) == Admit(Principal(verify(token).user.value.id,
                                                              verify(token).user.value.email,
                                                              verify(token).user.value.role))
  {
    assert (BearerPrefix + token)[..|BearerPrefix|] == BearerPrefix;
    assert (BearerPrefix + token)[|BearerPrefix|..] == token;
  }

  /** A provider rejection never leaks: whatever error text the provider gave, the caller sees
      the same 401 message. */
  lemma ProviderTextNotLeaked(authorization: Option<string>, verify: string -> Verification, providerText: string)
    requires HasBearer(authorization)
    requires verify(authorization.value[|BearerPrefix|..]) == Answer(None, Some(providerText))
    ensures Check(authorization, verify) == Reject(App(NewAuthenticationError(Some(BadTokenMessage))))
    ensures Check(authorization, verify).error.error.statusCode == 401
  {
  }

  /** The request as the gate mutates it: `req.user` is written only on success. */
  class AuthRequest {
    const headers: Headers
    var user: Option<Principal>

    constructor (headers: Headers)
      ensures this.headers == headers && user == None
    {
      this.headers := headers;
      user := None;
    }

    /** `authenticate(req, res, next)`: returns what `next` was called with. */
    method Authenticate(verify: string -> Verification) returns (flow: Flow)
      modifies this
      ensures Check(headers.authorization, verify).Admit? ==>
                flow == Proceed && user == Some(Check(headers.authorization, verify).principal)
      ensures Check(headers.authorization, verify).Reject? ==>
                flow == Fail(Check(headers.authorization, verify).error) && user == old(user)
    {
      var authHeader := headers.authorization;
      if authHeader.None? || authHeader.value == "" || !StartsWith(authHeader.value, BearerPrefix) {
        flow := Fail(App(NewAuthenticationError(Some(NoTokenMessage))));
        return;
      }
      var token := Drop(authHeader.value, 7);
      var answer := verify(token);
      if answer.Threw? {
        flow := Fail(answer.thrown);
        return;
      }
      if answer.error.Some? || answer.user.None? {
        flow := Fail(App(NewAuthenticationError(Some(BadTokenMessage))));
        return;
      }
      user := Some(Principal(answer.user.value.id, answer.user.value.email, answer.user.value.role));
      flow := Proceed;
    }
  }
}
