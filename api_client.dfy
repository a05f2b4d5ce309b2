/** The browser side of the session store and the authenticated transport,
    frontend/src/lib/apiClient.ts. */
module ApiClient {
  import opened Base

  const TokenKey: string := "auth_token"

  const AuthorizationHeader: string := "Authorization"

  /** window.localStorage: one string value per key, shared by every part of
      the page. */
  class LocalStorage {
    var items: map<string, string>

    constructor (items: map<string, string>)
      ensures this.items == items
    {
      this.items := items;
    }

    /** getItem: the value, or null when the key is absent. */
    function GetItem(key: string): (v: Option<string>)
      reads this
      ensures v.Some? <==> key in items
      ensures v.Some? ==> v.value == items[key]
    {
      if key in items then Some(items[key]) else None
    }

    method SetItem(key: string, value: string)
      modifies this
      ensures items == old(items)[key := value]
    {
      items := items[key := value];
    }

    method RemoveItem(key: string)
      modifies this
      ensures items == old(items) - {key}
    {
      items := items - {key};
    }
  }

  /** JavaScript truthiness of `string | null`: neither null nor "". */
  predicate Truthy(t: Option<string>)
  {
    t.Some? && t.value != ""
  }

  /** An outgoing RPC as the transport's interceptor sees it; the
      interceptor changes its headers in place. */
  class OutgoingRequest {
    const procedure: string
    var header: map<string, string>

    constructor (procedure: string, header: map<string, string>)
      ensures this.procedure == procedure && this.header == header
    {
      this.procedure := procedure;
      this.header := header;
    }
  }

  /** ApiClient: keeps no token of its own; every read goes to the store. */
  class Client {
    const storage: LocalStorage

    constructor (storage: LocalStorage)
      ensures this.storage == storage
    {
      this.storage := storage;
    }

    /** getToken: whatever the store holds under auth_token right now. */
    function GetToken(): (t: Option<string>)
      reads storage
      ensures t.Some? <==> TokenKey in storage.items
      ensures t.Some? ==> t.value == storage.items[TokenKey]
    {
      storage.GetItem(TokenKey)
    }

    /** setToken: writes auth_token and nothing else. */
    method SetToken(token: string)
      modifies storage
      ensures storage.items == old(storage.items)[TokenKey := token]
      ensures GetToken() == Some(token)
      ensures forall k :: k != TokenKey ==> storage.GetItem(k) == old(storage.GetItem(k))
    {
      storage.SetItem(TokenKey, token);
    }

    /** clearToken: removes auth_token and nothing else. */
    method ClearToken()
      modifies storage
      ensures storage.items == old(storage.items) - {TokenKey}
      ensures GetToken() == None
      ensures forall k :: k != TokenKey ==> storage.GetItem(k) == old(storage.GetItem(k))
    {
      storage.RemoveItem(TokenKey);
    }

    /** The transport's interceptor: re-reads the token, sets the bearer
        header when the token is truthy, and hands the same request to
        `next` (the returned object). The store is only read. */
    method Intercept(req: OutgoingRequest) returns (forwarded: OutgoingRequest)
      modifies req
      ensures forwarded == req
      ensures Truthy(GetToken()) ==>
        req.header == old(req.header)[AuthorizationHeader := "Bearer " + GetToken().value]
      ensures !Truthy(GetToken()) ==> req.header == old(req.header)
    {
      var token := GetToken();
      if Truthy(token) {
        req.header := req.header[AuthorizationHeader := "Bearer " + token.value];
      }
      forwarded := req;
    }
  }
}
