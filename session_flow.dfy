/** How the pieces compose: the token the client stores is the token the
    server's gate validates, and the store is re-read on every call. */
module SessionFlow {
  import opened Base
  import opened Connect
  import opened Auth
  import opened AuthInterceptor
  import opened ApiClient
  import opened AuthContext

  /** The header the client interceptor sets for a truthy token brings
      exactly that token to ValidateJWT on a protected procedure. */
  lemma BearerTokenReachesValidator(i: Interceptor, validateJWT: string -> Option<JwtClaims>, ctx: Context,
                                    procedure: string, header: map<string, string>, token: string)
    requires token != "" && !IsPublic(i, procedure)
    ensures var req := Request(procedure, header[AuthorizationHeader := "Bearer " + token]);
      WrapUnary(i, validateJWT, ctx, req) ==
        match validateJWT(token)
        case None => Reject(Unauthenticated, ErrInvalidToken)
        case Some(claims) => CallNext(WithUserID(ctx, claims.userId))
  {
    var auth := "Bearer " + token;
    assert StartsWith(auth, BearerPrefix) && auth[|BearerPrefix|..] == token;
  }

  /** A call sent without a token is refused by the gate before any
      handler runs, unless its procedure is public. */
  lemma NoTokenNoAccess(i: Interceptor, validateJWT: string -> Option<JwtClaims>, ctx: Context,
                        procedure: string, header: map<string, string>)
    requires AuthorizationHeader !in header && !IsPublic(i, procedure)
    ensures WrapUnary(i, validateJWT, ctx, Request(procedure, header)) == Reject(Unauthenticated, ErrMissingToken)
  {
  }

  /** After a successful login the next call carries the issued token. */
  method LoginThenCall(p: AuthProvider, reply: Reply<LoginResponse>, req: OutgoingRequest)
    returns (thrown: Option<LoginError>)
    modifies p, p.client.storage, req
    ensures thrown.None? ==>
      && reply.Replied?
      && req.header == old(req.header)[AuthorizationHeader := "Bearer " + reply.response.jwt]
  {
    thrown := p.LoginWithGoogle(reply);
    var forwarded := p.client.Intercept(req);
  }

  /** After logout, whatever the backend answered, the next call carries no
      bearer header. */
  method LogoutThenCall(p: AuthProvider, reply: Reply<AuthContext.LogoutResponse>, req: OutgoingRequest)
    modifies p, p.client.storage, req
    ensures req.header == old(req.header)
    ensures p.user == None
  {
    p.Logout(reply);
    var forwarded := p.client.Intercept(req);
  }

  /** The startup quirk: a token that getCurrentUser accepts without
      returning a user stays in the store while `user` stays null, so a
      stored token does not imply a signed-in user. */
  method StartupKeepsTokenWithoutUser(p: AuthProvider, token: string)
    requires p.user == None && token != ""
    modifies p, p.client.storage
    ensures p.user == None && !p.IsAuthenticated() && !p.isLoading
    ensures p.client.GetToken() == Some(token)
  {
    p.client.SetToken(token);
    var called := p.CheckAuth(Replied(CurrentUserResponse(None)));
  }
}
