/** The authentication step that HaloClient and AduibAIClient share, as a transition on the part
  * of the client it touches: the `_authenticated` flag and the default headers. */
module BearerAuth {
  import opened BaseHttp

  datatype AuthView = AuthView(authenticated: bool, headers: Headers)

  /** `authenticate()`: a non-empty configured token is installed as "Bearer <token>" and sets the
    * flag; an empty one changes nothing and raises nothing. */
  function Authenticate(v: AuthView, token: string): AuthView {
    if token != "" then AuthView(true, v.headers["Authorization" := BearerValue(token)]) else v
  }

  /** `ensure_authenticated()`: authenticates only while the flag is false. */
  function EnsureAuthenticated(v: AuthView, token: string): AuthView {
    if !v.authenticated then Authenticate(v, token) else v
  }

  /** What authenticating does, case by case, and that no header but Authorization changes. */
  lemma AuthenticateEffect(v: AuthView, token: string)
    ensures token != "" ==>
      Authenticate(v, token).authenticated
      && Authenticate(v, token).headers == v.headers["Authorization" := "Bearer " + token]
    ensures token == "" ==> Authenticate(v, token) == v
    ensures forall k :: k != "Authorization" ==>
      (k in Authenticate(v, token).headers <==> k in v.headers)
      && (k in v.headers ==> Authenticate(v, token).headers[k] == v.headers[k])
  {
  }

  /** Calling `ensure_authenticated` again changes nothing. */
  lemma EnsureAuthenticatedIdempotent(v: AuthView, token: string)
    ensures EnsureAuthenticated(EnsureAuthenticated(v, token), token) == EnsureAuthenticated(v, token)
  {
  }

  /** After `ensure_authenticated` the flag is set exactly when it was already set or a token is
    * configured, and a set flag never clears. */
  lemma EnsureAuthenticatedFlag(v: AuthView, token: string)
    ensures EnsureAuthenticated(v, token).authenticated <==> v.authenticated || token != ""
  {
  }
}
