/**
 * `sendTripData`: the trip is posted to `/predict` with its body unchanged,
 * carrying a bearer credential only when the token is truthy.
 */
module TripService {
  import opened Wrappers

  type Headers = map<string, string>

  const AuthorizationKey: string := "Authorization"
  const BearerPrefix: string := "Bearer "

  /** The request handed to the HTTP client. */
  datatype Request<B> = Request(verb: string, path: string, body: B, headers: Headers)

  /** JavaScript truthiness of the token: neither null, omitted, nor the empty string. */
  predicate Truthy(token: Option<string>) {
    token.Some? && token.value != ""
  }

  function AuthHeaders(token: Option<string>): (h: Headers)
    ensures AuthorizationKey in h <==> Truthy(token)
    ensures h.Keys <= {AuthorizationKey}
  {
    if Truthy(token) then map[AuthorizationKey := BearerPrefix + token.value] else map[]
  }

  /** Reads a bearer credential back out of request headers. */
  function BearerToken(h: Headers): (t: Option<string>)
    ensures t.Some? ==> AuthorizationKey in h && h[AuthorizationKey] == BearerPrefix + t.value
  {
    if AuthorizationKey in h && |BearerPrefix| <= |h[AuthorizationKey]|
       && h[AuthorizationKey][..|BearerPrefix|] == BearerPrefix
    then Some(h[AuthorizationKey][|BearerPrefix|..])
    else None
  }

  /** The header carries exactly the truthy token, and no header is sent otherwise. */
  lemma HeaderRoundTrip(token: Option<string>)
    ensures BearerToken(AuthHeaders(token)) == (if Truthy(token) then token else None)
    ensures !Truthy(token) ==> AuthHeaders(token) == map[]
  {
  }

  function SendTripData<B>(tripData: B, token: Option<string>): (req: Request<B>)
    ensures req.verb == "POST" && req.path == "/predict"
    ensures req.body == tripData
    ensures req.headers == AuthHeaders(token)
    ensures BearerToken(req.headers) == (if Truthy(token) then token else None)
    ensures !Truthy(token) ==> req.headers == map[]
  {
    HeaderRoundTrip(token);
    Request("POST", "/predict", tripData, AuthHeaders(token))
  }
}
