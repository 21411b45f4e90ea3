/**
 * The two API-key gates in front of the routes. Each reads the `X-API-KEY`
 * request header; the configured keys (`X_API_KEY_ADMIN`, `X_API_KEY`, read
 * from the environment) are parameters. A request either goes on to the next
 * handler or is aborted with 401.
 */
module Middleware {

  const StatusUnauthorized := 401

  /** The gate's verdict: exactly one of these per request. */
  datatype Verdict = Next | Abort(status: int)

  /** The methods that change data and need the admin key. */
  predicate IsWriteMethod(httpMethod: string) {
    httpMethod == "POST" || httpMethod == "PATCH" || httpMethod == "DELETE"
  }

  /**
   * RequireApiKey: a non-empty key, and then the admin or normal key for
   * GET, the admin key for POST, PATCH and DELETE; anything else is refused.
   */
  function RequireApiKey(apiKey: string, httpMethod: string, adminKey: string, normalKey: string): (r: Verdict)
    ensures r.Abort? ==> r.status == StatusUnauthorized
    ensures r == Next <==>
      && apiKey != ""
      && ((httpMethod == "GET" && (apiKey == adminKey || apiKey == normalKey)) ||
          (IsWriteMethod(httpMethod) && apiKey == adminKey))
  {
    if apiKey == "" then Abort(StatusUnauthorized)
    else if httpMethod == "GET" then
      if apiKey == adminKey || apiKey == normalKey then Next else Abort(StatusUnauthorized)
    else if IsWriteMethod(httpMethod) then
      if apiKey == adminKey then Next else Abort(StatusUnauthorized)
    else Abort(StatusUnauthorized)
  }

  /** The roles a key holds, as the gate grants them. */
  predicate MayRead(apiKey: string, adminKey: string, normalKey: string) {
    apiKey != "" && (apiKey == adminKey || apiKey == normalKey)
  }

  predicate MayWrite(apiKey: string, adminKey: string) {
    apiKey != "" && apiKey == adminKey
  }

  /**
   * The gate stated by role: GET needs read rights, a write method needs write
   * rights, any other method is refused; an empty header is refused whatever
   * the configuration, so an empty configured key never lets a request in,
   * and with no admin key configured nothing can write.
   */
  lemma RequireApiKeyByRole(apiKey: string, httpMethod: string, adminKey: string, normalKey: string)
    ensures RequireApiKey("", httpMethod, adminKey, normalKey) == Abort(StatusUnauthorized)
    ensures httpMethod == "GET" ==> (RequireApiKey(apiKey, httpMethod, adminKey, normalKey) == Next <==> MayRead(apiKey, adminKey, normalKey))
    ensures IsWriteMethod(httpMethod) ==> (RequireApiKey(apiKey, httpMethod, adminKey, normalKey) == Next <==> MayWrite(apiKey, adminKey))
    ensures httpMethod != "GET" && !IsWriteMethod(httpMethod) ==> RequireApiKey(apiKey, httpMethod, adminKey, normalKey) == Abort(StatusUnauthorized)
    ensures adminKey == "" && RequireApiKey(apiKey, httpMethod, adminKey, normalKey) == Next ==>
      httpMethod == "GET" && apiKey == normalKey
    ensures MayWrite(apiKey, adminKey) ==> MayRead(apiKey, adminKey, normalKey)
  {
  }

  /** The normal key (when it differs from the admin key) may read but not write. */
  lemma NormalKeyReadsOnly(adminKey: string, normalKey: string)
    requires normalKey != "" && normalKey != adminKey
    ensures RequireApiKey(normalKey, "GET", adminKey, normalKey) == Next
    ensures RequireApiKey(normalKey, "POST", adminKey, normalKey) == Abort(StatusUnauthorized)
    ensures RequireApiKey(normalKey, "PATCH", adminKey, normalKey) == Abort(StatusUnauthorized)
    ensures RequireApiKey(normalKey, "DELETE", adminKey, normalKey) == Abort(StatusUnauthorized)
    ensures RequireApiKey(normalKey, "PUT", adminKey, normalKey) == Abort(StatusUnauthorized)
  {
  }

  /** RequireAuth: a non-empty key equal to the configured `X_API_KEY`, for every method. */
  function RequireAuth(apiKey: string, normalKey: string): (r: Verdict)
    ensures r.Abort? ==> r.status == StatusUnauthorized
    ensures r == Next <==> apiKey != "" && apiKey == normalKey
  {
    if apiKey == "" || apiKey != normalKey then Abort(StatusUnauthorized) else Next
  }

  /** An empty or unset `X_API_KEY` refuses everyone, and whatever RequireAuth lets in may GET under RequireApiKey. */
  lemma RequireAuthComparedToApiKey(apiKey: string, adminKey: string, normalKey: string)
    ensures RequireAuth(apiKey, "") == Abort(StatusUnauthorized)
    ensures RequireAuth(apiKey, normalKey) == Next ==> RequireApiKey(apiKey, "GET", adminKey, normalKey) == Next
  {
  }
}
