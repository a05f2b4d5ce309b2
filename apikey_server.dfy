/** The APIKeyService handlers of internal/apikey/server.go over the api_keys
    table. The table is a sequence of rows; its order stands for the order in
    which the listing query returns them. */
module ApiKeyServer {
  import opened Base
  import opened Connect
  import opened ApiKey
  import opened AuthInterceptor

  /** A row of api_keys; last_used_at is a nullable timestamp. */
  datatype KeyRow = KeyRow(id: string, userId: int, name: string, keyHash: string,
                           keyPrefix: string, keySuffix: string, createdAt: int, lastUsedAt: Option<int>)

  /** The v1.APIKey message: the key itself is only shown masked. */
  datatype ApiKeyMsg = ApiKeyMsg(id: string, name: string, keyMasked: string, createdAt: int, lastUsedAt: Option<int>)

  datatype CreateResponse = CreateResponse(id: string, name: string, key: string, createdAt: int)

  datatype DeleteResponse = DeleteResponse(success: bool)

  /** A Connect error: its code and its message. */
  datatype Status = Status(code: Code, message: string)

  const Unauthorized: Status := Status(Unauthenticated, "user not authenticated")

  const MaskMiddle: string := "****...****"

  /** fmt.Sprintf("%s****...****%s", prefix, suffix). */
  function MaskedKey(prefix: string, suffix: string): (m: string)
    ensures |m| == |prefix| + |MaskMiddle| + |suffix|
    ensures m[..|prefix|] == prefix && m[|m| - |suffix|..] == suffix
    ensures m[|prefix|..|prefix| + |MaskMiddle|] == MaskMiddle
  {
    prefix + MaskMiddle + suffix
  }

  /** The message for a row: masked key, and LastUsedAt exactly when the
      column is not null. */
  function ToApiKeyMsg(row: KeyRow): (m: ApiKeyMsg)
    ensures m.id == row.id && m.name == row.name && m.createdAt == row.createdAt
    ensures m.keyMasked == MaskedKey(row.keyPrefix, row.keySuffix)
    ensures m.lastUsedAt.Some? <==> row.lastUsedAt.Some?
    ensures m.lastUsedAt.Some? ==> m.lastUsedAt.value == row.lastUsedAt.value
  {
    var maskedKey := MaskedKey(row.keyPrefix, row.keySuffix);
    var lastUsedAt := match row.lastUsedAt case Some(t) => Some(t) case None => None;
    ApiKeyMsg(row.id, row.name, maskedKey, row.createdAt, lastUsedAt)
  }

  /** ListAPIKeysByUserID: the caller's rows, in table order. */
  function RowsOf(rows: seq<KeyRow>, userId: int): (mine: seq<KeyRow>)
    ensures |mine| <= |rows|
    ensures forall r :: r in mine <==> r in rows && r.userId == userId
  {
    if rows == [] then []
    else if rows[0].userId == userId then [rows[0]] + RowsOf(rows[1..], userId)
    else RowsOf(rows[1..], userId)
  }

  /** Filtering distributes over concatenation, so the listing keeps the
      table's order. */
  lemma {:induction false} RowsOfConcat(a: seq<KeyRow>, b: seq<KeyRow>, userId: int)
    ensures RowsOf(a + b, userId) == RowsOf(a, userId) + RowsOf(b, userId)
  {
    if a != [] {
      assert (a + b)[1..] == a[1..] + b;
      RowsOfConcat(a[1..], b, userId);
    } else {
      assert a + b == b;
    }
  }

  /** A key that CreateAPIKey appends shows up last in its owner's listing,
      after the keys that were listed before. */
  lemma CreatedKeyListedLast(rows: seq<KeyRow>, row: KeyRow)
    ensures RowsOf(rows + [row], row.userId) == RowsOf(rows, row.userId) + [row]
  {
    RowsOfConcat(rows, [row], row.userId);
    assert [row][1..] == [];
  }

  /** What the masked key of a generated key shows: because ExtractParts
      keeps no prefix, it is the mask followed by the key's last four
      characters, and never begins with "gsk_". */
  lemma {:induction false} MaskOfGeneratedKey(encoded: string)
    requires |encoded| == RawUrlEncodedLen(KeyLength)
    ensures var (p, s) := ExtractParts(MakeKey(encoded));
      && MaskedKey(p, s) == MaskMiddle + encoded[|encoded| - 4..]
      && !StartsWith(MaskedKey(p, s), Prefix)
  {
    GeneratedKeyValidates(encoded);
    var key := MakeKey(encoded);
    assert key[|key| - 4..] == encoded[|encoded| - 4..];
    var m := MaskedKey("", key[|key| - 4..]);
    assert m[..4] == "****";
  }

  /** id is the table's primary key. */
  ghost predicate UniqueIds(rows: seq<KeyRow>)
  {
    forall i, j :: 0 <= i < j < |rows| ==> rows[i].id != rows[j].id
  }

  /** Removing the row at k of a table keyed by id removes exactly the rows
      with its id, and keeps the key unique. */
  lemma RemoveRow(rows: seq<KeyRow>, k: nat)
    requires UniqueIds(rows) && k < |rows|
    ensures var after := rows[..k] + rows[k + 1..];
      && UniqueIds(after)
      && |after| == |rows| - 1
      && forall row :: row in after <==> row in rows && row.id != rows[k].id
  {
    var after := rows[..k] + rows[k + 1..];
    assert forall i :: 0 <= i < |after| ==> after[i] == if i < k then rows[i] else rows[i + 1];
    forall row | row in rows && row.id != rows[k].id
      ensures row in after
    {
      var j :| 0 <= j < |rows| && rows[j] == row;
      if j < k { assert after[j] == row; } else { assert after[j - 1] == row; }
    }
  }

  class KeyServer {
    var rows: seq<KeyRow>

    /** The table's invariant. */
    ghost predicate Valid()
      reads this
    {
      UniqueIds(rows)
    }

    constructor ()
      ensures Valid() && rows == []
    {
      rows := [];
    }

    /** Some row has this id and belongs to this user. */
    predicate Owns(id: string, userId: int)
      reads this
    {
      exists k :: 0 <= k < |rows| && rows[k].id == id && rows[k].userId == userId
    }

    predicate HasId(id: string)
      reads this
    {
      exists k :: 0 <= k < |rows| && rows[k].id == id
    }

    /** CreateAPIKey. `generated` is generateKey's outcome: the UUID and the
        encoded random bytes, or None when the random source failed; `hash`
        is the stored digest; `dbFails` is an insert failure. */
    method CreateAPIKey(ctx: Context, name: string, generated: Option<(string, string)>,
                        hash: string -> string, now: int, dbFails: bool)
      returns (r: Result<CreateResponse, Status>)
      requires Valid()
      modifies this
      ensures Valid()
      ensures r.Err? ==> rows == old(rows)
      ensures ctx.userId.None? ==> r == Err(Unauthorized)
      ensures ctx.userId.Some? && name == "" ==> r == Err(Status(InvalidArgument, "name is required"))
      ensures ctx.userId.Some? && name != "" && generated.None? ==>
        r == Err(Status(Internal, "failed to generate API key"))
      ensures ctx.userId.Some? && name != "" && generated.Some? && (dbFails || old(HasId(generated.value.0))) ==>
        r == Err(Status(Internal, "failed to create API key"))
      ensures r.Ok? ==>
        && ctx.userId.Some? && name != "" && generated.Some?
        && var (id, encoded) := generated.value;
           var key := MakeKey(encoded);
           var (p, s) := ExtractParts(key);
           && rows == old(rows) + [KeyRow(id, ctx.userId.value, name, hash(key), p, s, now, None)]
           && r.value == CreateResponse(id, name, key, now)
      ensures ctx.userId.Some? && name != "" && generated.Some? && !dbFails && !old(HasId(generated.value.0)) ==> r.Ok?
    {
      var (userId, ok) := GetUserIDFromContext(ctx);
      if !ok {
        return Err(Unauthorized);
      }
      if name == "" {
        return Err(Status(InvalidArgument, "name is required"));
      }
      if generated.None? {
        return Err(Status(Internal, "failed to generate API key"));
      }
      var (id, encoded) := generated.value;
      var key := MakeKey(encoded);
      var keyHash := hash(key);
      var (prefix, suffix) := ExtractParts(key);
      if dbFails || HasId(id) {
        return Err(Status(Internal, "failed to create API key"));
      }
      var dbKey := KeyRow(id, userId, name, keyHash, prefix, suffix, now, None);
      rows := rows + [dbKey];
      r := Ok(CreateResponse(dbKey.id, dbKey.name, key, dbKey.createdAt));
    }

    /** ListAPIKeys: one message per row of the caller, in row order. */
    method ListAPIKeys(ctx: Context, dbFails: bool) returns (r: Result<seq<ApiKeyMsg>, Status>)
      ensures ctx.userId.None? ==> r == Err(Unauthorized)
      ensures ctx.userId.Some? && dbFails ==> r == Err(Status(Internal, "failed to list API keys"))
      ensures r.Ok? <==> ctx.userId.Some? && !dbFails
      ensures r.Ok? ==>
        var dbKeys := RowsOf(rows, ctx.userId.value);
        && |r.value| == |dbKeys|
        && forall i :: 0 <= i < |dbKeys| ==> r.value[i] == ToApiKeyMsg(dbKeys[i])
    {
      var (userId, ok) := GetUserIDFromContext(ctx);
      if !ok {
        return Err(Unauthorized);
      }
      if dbFails {
        return Err(Status(Internal, "failed to list API keys"));
      }
      var dbKeys := RowsOf(rows, userId);
      var apiKeys := new ApiKeyMsg[|dbKeys|];
      for i := 0 to |dbKeys|
        invariant forall j :: 0 <= j < i ==> apiKeys[j] == ToApiKeyMsg(dbKeys[j])
      {
        var dbKey := dbKeys[i];
        var maskedKey := MaskedKey(dbKey.keyPrefix, dbKey.keySuffix);
        var lastUsedAt: Option<int> := None;
        if dbKey.lastUsedAt.Some? {
          lastUsedAt := Some(dbKey.lastUsedAt.value);
        }
        apiKeys[i] := ApiKeyMsg(dbKey.id, dbKey.name, maskedKey, dbKey.createdAt, lastUsedAt);
      }
      r := Ok(apiKeys[..]);
    }

    /** DeleteAPIKey as written. The query is an exec: it deletes the row
        with this id and the caller's user id, if there is one, and reports
        no error when there is none, so the handler's "not found" branch is
        never taken. `dbFails` is any failure of the query. */
    method DeleteAPIKey(ctx: Context, id: string, dbFails: bool) returns (r: Result<DeleteResponse, Status>)
      requires Valid()
      modifies this
      ensures Valid()
      ensures r.Err? ==> rows == old(rows)
      ensures ctx.userId.None? ==> r == Err(Unauthorized)
      ensures ctx.userId.Some? && id == "" ==> r == Err(Status(InvalidArgument, "id is required"))
      ensures ctx.userId.Some? && id != "" && dbFails ==> r == Err(Status(Internal, "failed to delete API key"))
      ensures r.Ok? <==> ctx.userId.Some? && id != "" && !dbFails
      ensures r.Ok? ==> r.value.success
      ensures r.Ok? && !old(Owns(id, ctx.userId.value)) ==> rows == old(rows)
      ensures r.Ok? && old(Owns(id, ctx.userId.value)) ==>
        exists k ::
          && 0 <= k < |old(rows)| && old(rows)[k].id == id && old(rows)[k].userId == ctx.userId.value
          && rows == old(rows)[..k] + old(rows)[k + 1..]
      ensures r.Ok? ==>
        forall row :: row in rows <==> row in old(rows) && !(row.id == id && row.userId == ctx.userId.value)
      ensures forall row :: row in old(rows) && (ctx.userId.None? || row.userId != ctx.userId.value) ==> row in rows
    {
      var (userId, ok) := GetUserIDFromContext(ctx);
      if !ok {
        return Err(Unauthorized);
      }
      if id == "" {
        return Err(Status(InvalidArgument, "id is required"));
      }
      if dbFails {
        return Err(Status(Internal, "failed to delete API key"));
      }
      if Owns(id, userId) {
        var k :| 0 <= k < |rows| && rows[k].id == id && rows[k].userId == userId;
        RemoveRow(rows, k);
        rows := rows[..k] + rows[k + 1..];
      }
      r := Ok(DeleteResponse(true));
    }

    /** DeleteAPIKey as its "not found" branch intends it: a caller who owns
        no key with this id is told so, and nothing is deleted. */
    method DeleteAPIKeyReportingMissing(ctx: Context, id: string, dbFails: bool) returns (r: Result<DeleteResponse, Status>)
      requires Valid()
      modifies this
      ensures Valid()
      ensures r.Err? ==> rows == old(rows)
      ensures ctx.userId.None? ==> r == Err(Unauthorized)
      ensures ctx.userId.Some? && id == "" ==> r == Err(Status(InvalidArgument, "id is required"))
      ensures ctx.userId.Some? && id != "" && dbFails ==> r == Err(Status(Internal, "failed to delete API key"))
      ensures ctx.userId.Some? && id != "" && !dbFails && !old(Owns(id, ctx.userId.value)) ==>
        r == Err(Status(NotFound, "API key not found"))
      ensures r.Ok? <==> ctx.userId.Some? && id != "" && !dbFails && old(Owns(id, ctx.userId.value))
      ensures r.Ok? ==>
        && r.value.success
        && exists k ::
          && 0 <= k < |old(rows)| && old(rows)[k].id == id && old(rows)[k].userId == ctx.userId.value
          && rows == old(rows)[..k] + old(rows)[k + 1..]
    {
      if ctx.userId.Some? && id != "" && !dbFails && !Owns(id, ctx.userId.value) {
        return Err(Status(NotFound, "API key not found"));
      }
      r := DeleteAPIKey(ctx, id, dbFails);
    }

    /** UpdateAPIKey: renames the caller's key with this id and returns it. */
    method UpdateAPIKey(ctx: Context, id: string, name: string, dbFails: bool) returns (r: Result<ApiKeyMsg, Status>)
      requires Valid()
      modifies this
      ensures Valid()
      ensures r.Err? ==> rows == old(rows)
      ensures ctx.userId.None? ==> r == Err(Unauthorized)
      ensures ctx.userId.Some? && id == "" ==> r == Err(Status(InvalidArgument, "id is required"))
      ensures ctx.userId.Some? && id != "" && name == "" ==> r == Err(Status(InvalidArgument, "name is required"))
      ensures ctx.userId.Some? && id != "" && name != "" && dbFails ==> r == Err(Status(Internal, "failed to update API key"))
      ensures ctx.userId.Some? && id != "" && name != "" && !dbFails && !old(Owns(id, ctx.userId.value)) ==>
        r == Err(Status(NotFound, "API key not found"))
      ensures r.Ok? <==> ctx.userId.Some? && id != "" && name != "" && !dbFails && old(Owns(id, ctx.userId.value))
      ensures r.Ok? ==>
        exists k ::
          && 0 <= k < |old(rows)| && old(rows)[k].id == id && old(rows)[k].userId == ctx.userId.value
          && rows == old(rows)[k := old(rows)[k].(name := name)]
          && r.value == ToApiKeyMsg(rows[k])
    {
      var (userId, ok) := GetUserIDFromContext(ctx);
      if !ok {
        return Err(Unauthorized);
      }
      if id == "" {
        return Err(Status(InvalidArgument, "id is required"));
      }
      if name == "" {
        return Err(Status(InvalidArgument, "name is required"));
      }
      if dbFails {
        return Err(Status(Internal, "failed to update API key"));
      }
      if !Owns(id, userId) {
        return Err(Status(NotFound, "API key not found"));
      }
      var k :| 0 <= k < |rows| && rows[k].id == id && rows[k].userId == userId;
      var dbKey := rows[k].(name := name);
      rows := rows[k := dbKey];
      r := Ok(ToApiKeyMsg(dbKey));
    }
  }

  /** The key a second user owns, in a table of its own. */
  function OthersKey(): KeyRow
  {
    KeyRow("key-1", 2, "ci", "h", "", "abcd", 0, None)
  }

  /** As written, deleting another user's key reports success and keeps
      the key. */
  method DeleteOfOthersKeySucceeds() returns (r: Result<DeleteResponse, Status>, kept: seq<KeyRow>)
    ensures r == Ok(DeleteResponse(true))
    ensures kept == [OthersKey()]
  {
    var server := new KeyServer();
    server.rows := [OthersKey()];
    assert !server.Owns("key-1", 1);
    r := server.DeleteAPIKey(Context(Some(1)), "key-1", false);
    kept := server.rows;
  }

  /** As intended, the same request is answered with NotFound. */
  method DeleteOfOthersKeyNotFound() returns (r: Result<DeleteResponse, Status>, kept: seq<KeyRow>)
    ensures r == Err(Status(NotFound, "API key not found"))
    ensures kept == [OthersKey()]
  {
    var server := new KeyServer();
    server.rows := [OthersKey()];
    assert !server.Owns("key-1", 1);
    r := server.DeleteAPIKeyReportingMissing(Context(Some(1)), "key-1", false);
    kept := server.rows;
  }
}
