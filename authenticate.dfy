/**
 * The `authenticate` middleware: it always adds `Vary: Authorization` to the
 * response headers, then wants an `Authorization` header of the form
 * "Bearer <token>", a token that passes ValidateToken, and a user the token
 * belongs to. ValidateToken and GetForToken belong to a part of the data
 * layer that is not part of this model; they are the parameters
 * `tokenValid` and `getForToken`.
 */
module Authenticate {
  import opened Basics
  import opened DataErrors
  import Strings
  import opened UserStore

  /** Response headers: each name with its values, as `http.Header`. */
  type Headers = map<string, seq<string>>

  /** `h.Add(key, value)`: the value is appended to the key's values; other keys are kept. */
  function AddHeader(h: Headers, key: string, value: string): (r: Headers)
    ensures r.Keys == h.Keys + {key}
    ensures forall k :: k in h && k != key ==> r[k] == h[k]
    ensures key !in h ==> r[key] == [value]
    ensures key in h ==> |r[key]| == |h[key]| + 1 && r[key][..|h[key]|] == h[key] && r[key][|h[key]|] == value
  {
    h[key := (if key in h then h[key] else []) + [value]]
  }

  /** How the middleware ends: one of three refusals, or the next handler with the user set. */
  datatype Outcome =
    | InvalidCredentials        // invalidCredentialsResponse
    | InvalidToken              // invalidAuthenticationTokenResponse
    | ServerError(cause: Error) // serverErrorResponse
    | Proceed(user: User)       // contextSetUser, then next.ServeHTTP

  datatype Authenticated = Authenticated(headers: Headers, outcome: Outcome)

  const BearerPrefix := "Bearer "

  /** "Bearer", one space, and a token with no further space (possibly empty). */
  predicate IsBearer(authorization: string) {
    |authorization| >= |BearerPrefix| && authorization[..|BearerPrefix|] == BearerPrefix &&
    ' ' !in authorization[|BearerPrefix|..]
  }

  /** The header-splitting test of the middleware is exactly IsBearer, and the second part is the token after the prefix. */
  lemma BearerSplit(authorization: string)
    ensures (|Strings.Split(authorization, ' ')| == 2 && Strings.Split(authorization, ' ')[0] == "Bearer")
            <==> IsBearer(authorization)
    ensures IsBearer(authorization) ==> Strings.Split(authorization, ' ')[1] == authorization[|BearerPrefix|..]
  {
    var parts := Strings.Split(authorization, ' ');
    if |parts| == 2 && parts[0] == "Bearer" {
      Strings.JoinSplit(authorization, ' ');
      assert Strings.Join(parts, ' ') == parts[0] + [' '] + parts[1];
      assert authorization == "Bearer" + [' '] + parts[1];
      assert authorization[..|BearerPrefix|] == BearerPrefix;
      assert authorization[|BearerPrefix|..] == parts[1];
    }
    if IsBearer(authorization) {
      var token := authorization[|BearerPrefix|..];
      assert authorization == "Bearer" + [' '] + token;
      Strings.SplitAfterPart("Bearer", ' ', token);
      Strings.SplitNoSeparator(token, ' ');
    }
  }

  function Authenticate(headers: Headers, authorization: string, tokenValid: string -> bool,
                        getForToken: string -> Result<User, Error>): (r: Authenticated)
    ensures r.headers == AddHeader(headers, "Vary", "Authorization")
    ensures !IsBearer(authorization) ==> r.outcome == InvalidCredentials
    ensures IsBearer(authorization) ==>
      var token := authorization[|BearerPrefix|..];
      && (!tokenValid(token) ==> r.outcome == InvalidToken)
      && (tokenValid(token) && getForToken(token).Success? ==> r.outcome == Proceed(getForToken(token).value))
      && (tokenValid(token) && getForToken(token) == Failure(RecordNotFound) ==> r.outcome == InvalidToken)
      && (tokenValid(token) && getForToken(token).Failure? && getForToken(token).error != RecordNotFound ==>
            r.outcome == ServerError(getForToken(token).error))
  {
    var headers := AddHeader(headers, "Vary", "Authorization");
    if authorization == "" then Authenticated(headers, InvalidCredentials)
    else
      var headerParts := Strings.Split(authorization, ' ');
      BearerSplit(authorization);
      if |headerParts| != 2 || headerParts[0] != "Bearer" then Authenticated(headers, InvalidCredentials)
      else
        var token := headerParts[1];
        if !tokenValid(token) then Authenticated(headers, InvalidToken)
        else match getForToken(token)
          case Success(user) => Authenticated(headers, Proceed(user))
          case Failure(err) =>
            if err == RecordNotFound then Authenticated(headers, InvalidToken)
            else Authenticated(headers, ServerError(err))
  }

  /** The next handler runs only when every check passed, and it gets the token's user. */
  lemma ProceedOnlyWhenAllPass(headers: Headers, authorization: string, tokenValid: string -> bool,
                               getForToken: string -> Result<User, Error>)
    ensures Authenticate(headers, authorization, tokenValid, getForToken).outcome.Proceed? <==>
      && IsBearer(authorization)
      && tokenValid(authorization[|BearerPrefix|..])
      && getForToken(authorization[|BearerPrefix|..]).Success?
  {
  }

  /** Headers the middleware refuses before looking at the token. */
  lemma MalformedHeaders(headers: Headers, tokenValid: string -> bool, getForToken: string -> Result<User, Error>)
    ensures Authenticate(headers, "", tokenValid, getForToken).outcome == InvalidCredentials
    ensures Authenticate(headers, "Bearer", tokenValid, getForToken).outcome == InvalidCredentials
    ensures Authenticate(headers, "Bearer a b", tokenValid, getForToken).outcome == InvalidCredentials
    ensures Authenticate(headers, "bearer x", tokenValid, getForToken).outcome == InvalidCredentials
    ensures Authenticate(headers, "Bearer  x", tokenValid, getForToken).outcome == InvalidCredentials
  {
  }
}
