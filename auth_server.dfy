/** The AuthService handlers of internal/auth/server.go over a users table.
    The table is a map from id to row; `nextId` is the id the database hands
    to the next inserted row. */
module AuthServer {
  import opened Base
  import opened Connect
  import opened Auth
  import opened AuthInterceptor

  /** A row of the users table; google_id is a nullable column. */
  datatype UserRow = UserRow(id: int, email: string, googleId: Option<string>, name: string)

  /** The v1.User message. */
  datatype UserMsg = UserMsg(id: int, email: string, googleId: string, name: string)

  /** The message for a row; a null google_id is sent as its String, "". */
  function ToMessage(u: UserRow): (m: UserMsg)
    ensures m.id == u.id && m.email == u.email && m.name == u.name
    ensures u.googleId.Some? ==> m.googleId == u.googleId.value
    ensures u.googleId.None? ==> m.googleId == ""
  {
    UserMsg(u.id, u.email, match u.googleId case Some(g) => g case None => "", u.name)
  }

  datatype LoginResponse = LoginResponse(jwt: string, user: UserMsg)

  datatype LogoutResponse = LogoutResponse(success: bool)

  /** Which of Login's queries fail, with an error other than "no rows". */
  datatype DbFaults = DbFaults(find: bool, create: bool, update: bool, get: bool)

  class Server {
    const authService: Service
    var users: map<int, UserRow>
    var nextId: int

    /** Rows are stored under their own id, ids below `nextId`, and no two
        rows share a Google id. */
    ghost predicate Valid()
      reads this
    {
      && (forall id :: id in users ==> users[id].id == id && id < nextId)
      && (forall a, b :: a in users && b in users && users[a].googleId.Some? && users[a].googleId == users[b].googleId ==> a == b)
    }

    constructor (authService: Service)
      ensures Valid()
      ensures this.authService == authService && users == map[] && nextId == 1
    {
      this.authService := authService;
      users := map[];
      nextId := 1;
    }

    /** FindUserByGoogleID finds a row. */
    predicate HasGoogleUser(gid: string)
      reads this
    {
      exists id :: id in users && users[id].googleId == Some(gid)
    }

    /** The id of the row FindUserByGoogleID finds. */
    ghost function GoogleUser(gid: string): (id: int)
      requires Valid() && HasGoogleUser(gid)
      reads this
      ensures id in users && users[id].googleId == Some(gid)
    {
      var id :| id in users && users[id].googleId == Some(gid); id
    }

    /** The end of a successful Login: GenerateJWT for the row, then the
        response. `sign` is the HS256 signer; None is a signing error. */
    function IssueToken(u: UserRow, now: int, sign: JwtClaims -> Option<string>): (r: Result<LoginResponse, Code>)
      ensures sign(GenerateJWTClaims(authService, u.id, u.email, now)).None? ==> r == Err(Internal)
      ensures r.Ok? ==>
        && r.value.user == ToMessage(u)
        && Some(r.value.jwt) == sign(GenerateJWTClaims(authService, u.id, u.email, now))
    {
      match sign(GenerateJWTClaims(authService, u.id, u.email, now))
      case None => Err(Internal)
      case Some(jwt) => Ok(LoginResponse(jwt, ToMessage(u)))
    }

    /** Login: `idTokenPayload` is idtoken.Validate's verdict on the request's
        Google ID token; `now` is the clock. */
    method Login(idTokenPayload: Option<Payload>, faults: DbFaults, now: int, sign: JwtClaims -> Option<string>)
      returns (r: Result<LoginResponse, Code>)
      requires Valid()
      modifies this
      ensures Valid()
      ensures var v := ValidateGoogleIDToken(authService, idTokenPayload);
        (v.Err? || !v.value.verified || faults.find) ==>
          && users == old(users) && nextId == old(nextId)
          && r == Err(if v.Err? then Unauthenticated else if !v.value.verified then PermissionDenied else Internal)
      ensures var v := ValidateGoogleIDToken(authService, idTokenPayload);
        v.Ok? && v.value.verified && !faults.find && !old(HasGoogleUser(v.value.googleId)) ==>
          if faults.create then
            r == Err(Internal) && users == old(users) && nextId == old(nextId)
          else
            var created := UserRow(old(nextId), v.value.email, Some(v.value.googleId), v.value.name);
            && users == old(users)[old(nextId) := created]
            && nextId == old(nextId) + 1
            && r == IssueToken(created, now, sign)
      ensures var v := ValidateGoogleIDToken(authService, idTokenPayload);
        v.Ok? && v.value.verified && !faults.find && old(HasGoogleUser(v.value.googleId)) ==>
          var id := old(GoogleUser(v.value.googleId));
          && nextId == old(nextId)
          && users == (if faults.update then old(users) else old(users)[id := old(users)[id].(name := v.value.name)])
          && r == (if faults.get then Err(Internal) else IssueToken(users[id], now, sign))
      ensures r.Ok? ==> exists id :: id in users && r.value.user == ToMessage(users[id])
    {
      var v := ValidateGoogleIDToken(authService, idTokenPayload);
      if v.Err? {
        return Err(Unauthenticated);
      }
      var info := v.value;
      if !info.verified {
        return Err(PermissionDenied);
      }
      if faults.find {
        return Err(Internal);
      }
      var user: UserRow;
      if !HasGoogleUser(info.googleId) {
        if faults.create {
          return Err(Internal);
        }
        user := UserRow(nextId, info.email, Some(info.googleId), info.name);
        users := users[nextId := user];
        nextId := nextId + 1;
      } else {
        var id :| id in users && users[id].googleId == Some(info.googleId);
        assert id == GoogleUser(info.googleId);
        if !faults.update {
          users := users[id := users[id].(name := info.name)];
        }
        if faults.get {
          return Err(Internal);
        }
        user := users[id];
      }
      assert user.id in users && users[user.id] == user;
      r := IssueToken(user, now, sign);
    }

    /** GetCurrentUser: the authenticated caller's row. `getFails` is a query
        failure other than "no rows". */
    function GetCurrentUser(ctx: Context, getFails: bool): (r: Result<UserMsg, Code>)
      reads this
      ensures !GetUserIDFromContext(ctx).1 ==> r == Err(Unauthenticated)
      ensures ctx.userId.Some? && getFails ==> r == Err(Internal)
      ensures ctx.userId.Some? && !getFails && ctx.userId.value !in users ==> r == Err(NotFound)
      ensures r.Ok? <==> ctx.userId.Some? && !getFails && ctx.userId.value in users
      ensures r.Ok? ==> r.value == ToMessage(users[ctx.userId.value])
    {
      var (userId, ok) := GetUserIDFromContext(ctx);
      if !ok then Err(Unauthenticated)
      else if getFails then Err(Internal)
      else if userId !in users then Err(NotFound)
      else Ok(ToMessage(users[userId]))
    }

    /** Logout keeps no server state; it reports success for every caller. */
    function Logout(ctx: Context): (r: LogoutResponse)
      ensures r.success
    {
      LogoutResponse(true)
    }
  }
}
