/** The client's session lifecycle, frontend/src/contexts/AuthContext.tsx:
    the in-memory `user` and `isLoading` state over the shared store, with
    its three operations. Each operation is one sequential step; the
    backend's answer (or rejection) is an input. */
module AuthContext {
  import opened Base
  import opened Connect
  import opened Decimal
  import opened ApiClient

  const UserKey: string := "auth_user"

  /** The v1.User message as the client receives it (a bigint id). */
  datatype ApiUser = ApiUser(id: int, email: string, googleId: string, name: string)

  /** The provider's own User record (a string id). */
  datatype User = User(id: string, email: string, googleId: string, name: string)

  /** convertApiUser: the id is rendered in decimal; the other fields are
      copied. */
  function ConvertApiUser(apiUser: ApiUser): (u: User)
    ensures u.email == apiUser.email && u.googleId == apiUser.googleId && u.name == apiUser.name
    ensures u.id == DecimalString(apiUser.id) && ParseDecimal(u.id) == apiUser.id
  {
    DecimalRoundTrip(apiUser.id);
    User(DecimalString(apiUser.id), apiUser.email, apiUser.googleId, apiUser.name)
  }

  /** Nothing is lost in the conversion: different API users give different
      users. */
  lemma ConvertApiUserInjective(a: ApiUser, b: ApiUser)
    requires ConvertApiUser(a) == ConvertApiUser(b)
    ensures a == b
  {
    DecimalInjective(a.id, b.id);
  }

  /** A backend call as the awaiting code sees it: a response, or a thrown
      transport error with its code. */
  datatype Reply<T> = Replied(response: T) | Failed(code: Code)

  /** A protobuf message field may be unset. */
  datatype CurrentUserResponse = CurrentUserResponse(user: Option<ApiUser>)

  /** An unset string field reads as "". */
  datatype LoginResponse = LoginResponse(jwt: string, user: Option<ApiUser>)

  datatype LogoutResponse = LogoutResponse(success: bool)

  /** What loginWithGoogle throws. */
  datatype LoginError = InvalidLoginResponse | BackendError(code: Code)

  class AuthProvider {
    const client: Client
    /** JSON.stringify of a User. */
    const stringify: User -> string
    var user: Option<User>
    var isLoading: bool

    constructor (client: Client, stringify: User -> string)
      ensures this.client == client && this.stringify == stringify
      ensures user == None && isLoading
    {
      this.client := client;
      this.stringify := stringify;
      user := None;
      isLoading := true;
    }

    /** `isAuthenticated: !!user`. */
    function IsAuthenticated(): (b: bool)
      reads this
      ensures b <==> user != None
    {
      user.Some?
    }

    /** A signed-in user is backed by a truthy token in the store, and the
        cached auth_user is that user's serialisation. */
    ghost predicate Consistent()
      reads this, client.storage
    {
      user.Some? ==>
        && Truthy(client.GetToken())
        && client.storage.GetItem(UserKey) == Some(stringify(user.value))
    }

    /** checkAuth, run once on mount. `reply` is what getCurrentUser would
        answer; `called` says whether it was called at all. */
    method CheckAuth(reply: Reply<CurrentUserResponse>) returns (called: bool)
      modifies this, client.storage
      ensures !isLoading
      ensures called <==> Truthy(old(client.GetToken()))
      ensures !called ==> user == old(user) && client.storage.items == old(client.storage.items)
      ensures called && reply.Replied? && reply.response.user.Some? ==>
        var u := ConvertApiUser(reply.response.user.value);
        && user == Some(u)
        && client.storage.items == old(client.storage.items)[UserKey := stringify(u)]
      ensures called && reply.Replied? && reply.response.user.None? ==>
        user == old(user) && client.storage.items == old(client.storage.items)
      ensures called && reply.Failed? ==>
        user == old(user) && client.storage.items == old(client.storage.items) - {TokenKey, UserKey}
      ensures old(user) == None ==> Consistent()
    {
      var token := client.GetToken();
      if !Truthy(token) {
        isLoading := false;
        return false;
      }
      called := true;
      match reply {
        case Replied(response) =>
          if response.user.Some? {
            var userData := ConvertApiUser(response.user.value);
            user := Some(userData);
            client.storage.SetItem(UserKey, stringify(userData));
          }
        case Failed(_) =>
          client.ClearToken();
          client.storage.RemoveItem(UserKey);
          assert client.storage.items == old(client.storage.items) - {TokenKey, UserKey};
      }
      isLoading := false;
    }

    /** loginWithGoogle; `reply` is the backend's answer to login. Returns
        the error it throws, or None when it resolves. */
    method LoginWithGoogle(reply: Reply<LoginResponse>) returns (thrown: Option<LoginError>)
      modifies this, client.storage
      ensures isLoading == old(isLoading)
      ensures reply.Failed? ==> thrown == Some(BackendError(reply.code))
      ensures reply.Replied? && (reply.response.user.None? || reply.response.jwt == "") ==>
        thrown == Some(InvalidLoginResponse)
      ensures thrown.Some? ==> user == old(user) && client.storage.items == old(client.storage.items)
      ensures thrown.None? <==> reply.Replied? && reply.response.user.Some? && reply.response.jwt != ""
      ensures thrown.None? ==>
        var u := ConvertApiUser(reply.response.user.value);
        && user == Some(u)
        && client.storage.items == old(client.storage.items)[TokenKey := reply.response.jwt][UserKey := stringify(u)]
        && client.GetToken() == Some(reply.response.jwt)
      ensures thrown.None? || old(Consistent()) ==> Consistent()
    {
      match reply {
        case Failed(code) =>
          return Some(BackendError(code));
        case Replied(response) =>
          if response.user.None? || response.jwt == "" {
            return Some(InvalidLoginResponse);
          }
          client.SetToken(response.jwt);
          var userData := ConvertApiUser(response.user.value);
          user := Some(userData);
          client.storage.SetItem(UserKey, stringify(userData));
          thrown := None;
      }
    }

    /** logout: the backend call is best effort; whatever it answers, the
        local session is torn down and nothing is thrown. */
    method Logout(reply: Reply<LogoutResponse>)
      modifies this, client.storage
      ensures user == None && isLoading == old(isLoading)
      ensures client.storage.items == old(client.storage.items) - {TokenKey, UserKey}
      ensures client.GetToken() == None
      ensures Consistent()
    {
      // A failed reply is only logged: the teardown below runs in `finally`.
      user := None;
      client.ClearToken();
      client.storage.RemoveItem(UserKey);
      assert client.storage.items == old(client.storage.items) - {TokenKey, UserKey};
    }
  }
}
