/** The server's authentication gate, internal/auth/interceptor.go: a set of
    public procedures and the chain of checks every other call must pass. */
module AuthInterceptor {
  import opened Base
  import opened Connect
  import opened Auth

  /** The part of a request context the model tracks: the value stored under
      UserIDContextKey, if any. */
  datatype Context = Context(userId: Option<int>)

  /** context.WithValue(ctx, UserIDContextKey, id). */
  function WithUserID(ctx: Context, id: int): (c: Context)
    ensures GetUserIDFromContext(c) == (id, true)
  {
    ctx.(userId := Some(id))
  }

  /** GetUserIDFromContext: the stored id and true, or 0 and false. */
  function GetUserIDFromContext(ctx: Context): (r: (int, bool))
    ensures r.1 <==> ctx.userId.Some?
    ensures r.1 ==> r.0 == ctx.userId.value
    ensures !r.1 ==> r.0 == 0
  {
    match ctx.userId
    case Some(id) => (id, true)
    case None => (0, false)
  }

  /** An incoming call: its procedure name and its headers. */
  datatype Request = Request(procedure: string, header: map<string, string>)

  /** Header().Get: the value, or "" when the header is absent. */
  function HeaderGet(h: map<string, string>, k: string): string
  {
    if k in h then h[k] else ""
  }

  datatype GateError = ErrMissingToken | ErrInvalidToken

  /** What the wrapped handler does with a call: pass it on to `next` with the
      given context, or answer with an error and never call `next`. */
  datatype Decision = CallNext(ctx: Context) | Reject(code: Code, err: GateError)

  datatype Interceptor = Interceptor(publicMethods: map<string, bool>)

  const BearerPrefix: string := "Bearer "

  /** NewInterceptor: every listed procedure becomes a key mapped to true. */
  method NewInterceptor(publicMethods: seq<string>) returns (i: Interceptor)
    ensures forall p :: p in i.publicMethods <==> p in publicMethods
    ensures forall p :: p in i.publicMethods ==> i.publicMethods[p]
    ensures forall p :: IsPublic(i, p) <==> p in publicMethods
  {
    var publicMap: map<string, bool> := map[];
    for k := 0 to |publicMethods|
      invariant forall p :: p in publicMap <==> p in publicMethods[..k]
      invariant forall p :: p in publicMap ==> publicMap[p]
    {
      publicMap := publicMap[publicMethods[k] := true];
    }
    i := Interceptor(publicMap);
  }

  /** `i.publicMethods[procedure]`: a missing key reads as false. */
  predicate IsPublic(i: Interceptor, procedure: string)
  {
    procedure in i.publicMethods && i.publicMethods[procedure]
  }

  /** The handler WrapUnary builds, applied to one call. `validateJWT` stands
      for the service's ValidateJWT; it answers None when the token does not
      parse or verify. */
  function WrapUnary(i: Interceptor, validateJWT: string -> Option<JwtClaims>, ctx: Context, req: Request): (d: Decision)
    ensures IsPublic(i, req.procedure) ==> d == CallNext(ctx)
    ensures !IsPublic(i, req.procedure) ==>
      var auth := HeaderGet(req.header, "Authorization");
      && (auth == "" ==> d == Reject(Unauthenticated, ErrMissingToken))
      && (auth != "" && !StartsWith(auth, BearerPrefix) ==> d == Reject(Unauthenticated, ErrInvalidToken))
      && (StartsWith(auth, BearerPrefix) ==>
            var claims := validateJWT(auth[|BearerPrefix|..]);
            d == if claims.None? then Reject(Unauthenticated, ErrInvalidToken)
                 else CallNext(WithUserID(ctx, claims.value.userId)))
    ensures d.Reject? ==> d.code == Unauthenticated
  {
    if IsPublic(i, req.procedure) then CallNext(ctx)
    else
      var auth := HeaderGet(req.header, "Authorization");
      if auth == "" then Reject(Unauthenticated, ErrMissingToken)
      else
        var token := TrimPrefix(auth, BearerPrefix);
        if token == auth then Reject(Unauthenticated, ErrInvalidToken)
        else
          match validateJWT(token)
          case None => Reject(Unauthenticated, ErrInvalidToken)
          case Some(claims) => CallNext(WithUserID(ctx, claims.userId))
  }

  /** A call that reaches `next` is public, or carries the id of claims the
      validator accepted for the header's token. */
  lemma PassedCallsAreAuthenticated(i: Interceptor, validateJWT: string -> Option<JwtClaims>, ctx: Context, req: Request)
    requires WrapUnary(i, validateJWT, ctx, req).CallNext?
    requires !IsPublic(i, req.procedure)
    ensures var auth := HeaderGet(req.header, "Authorization");
      && StartsWith(auth, BearerPrefix)
      && validateJWT(auth[|BearerPrefix|..]).Some?
      && GetUserIDFromContext(WrapUnary(i, validateJWT, ctx, req).ctx)
         == (validateJWT(auth[|BearerPrefix|..]).value.userId, true)
  {
  }
}
