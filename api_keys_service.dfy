/** The API-key service (src/lib/services/api-keys.service.ts) over an in-memory `api_keys`
    table. The database's own failures are `Option<DbError>` parameters; the column defaults the
    database fills in (row id, rate-limit tier, creation time) come in `RowDefaults`. */
module ApiKeysService {
  import opened Wrappers
  import opened Strings
  import opened Json
  import opened Sorting
  import opened ServiceTypes
  import opened ApiScopes
  import opened ApiKeys

  /** The requested scopes outside the five known names, in request order. */
  function InvalidScopes(scopes: seq<string>): (r: seq<string>)
    ensures forall s :: s in r <==> s in scopes && !IsKnownScope(s)
    ensures |r| <= |scopes|
    decreases |scopes|
  {
    if |scopes| == 0 then []
    else if IsKnownScope(scopes[0]) then InvalidScopes(scopes[1..])
    else [scopes[0]] + InvalidScopes(scopes[1..])
  }

  function ScopeNamesJson(names: seq<string>): (j: seq<Json>)
    ensures |j| == |names| && forall i :: 0 <= i < |names| ==> j[i] == JStr(names[i])
  {
    seq(|names|, i requires 0 <= i < |names| => JStr(names[i]))
  }

  /** The scope checks of `createApiKey`: unknown names first, then the empty list. */
  function ScopeError(scopes: seq<string>): (e: Option<ServiceError>)
    ensures |InvalidScopes(scopes)| > 0 ==>
              e == Some(ServiceError("INVALID_SCOPES", "Invalid scopes: " + Join(InvalidScopes(scopes), ", "),
                                     Some(JObj(map["valid_scopes" := JArr(ScopeNamesJson(ScopeNames()))]))))
    ensures |scopes| == 0 ==> e == Some(ServiceError("INVALID_SCOPES", "At least one scope is required", None))
    ensures e.None? <==> |scopes| > 0 && forall s :: s in scopes ==> IsKnownScope(s)
  {
    var invalid := InvalidScopes(scopes);
    if |invalid| > 0 then
      assert invalid[0] in invalid;
      Some(ServiceError("INVALID_SCOPES", "Invalid scopes: " + Join(invalid, ", "),
                        Some(JObj(map["valid_scopes" := JArr(ScopeNamesJson(ScopeNames()))]))))
    else if |scopes| == 0 then Some(ServiceError("INVALID_SCOPES", "At least one scope is required", None))
    else None
  }

  /** The rows of `userId`, in table order. */
  function OwnedBy(rows: seq<StoredKey>, userId: string): (r: seq<StoredKey>)
    ensures forall k :: k in r <==> k in rows && k.userId == userId
    ensures |r| <= |rows|
    decreases |rows|
  {
    if |rows| == 0 then []
    else if rows[0].userId == userId then [rows[0]] + OwnedBy(rows[1..], userId)
    else OwnedBy(rows[1..], userId)
  }

  /** `created_at`, the sort key of the listing. */
  function CreatedAt(k: StoredKey): string { k.createdAt }

  /** The rows that survive deleting `keyId` of `userId`. */
  function WithoutKey(rows: seq<StoredKey>, userId: string, keyId: string): (r: seq<StoredKey>)
    ensures forall k :: k in r <==> k in rows && !(k.id == keyId && k.userId == userId)
    ensures (forall i :: 0 <= i < |rows| ==> !(rows[i].id == keyId && rows[i].userId == userId)) ==> r == rows
    ensures |r| <= |rows|
    decreases |rows|
  {
    if |rows| == 0 then []
    else if rows[0].id == keyId && rows[0].userId == userId then WithoutKey(rows[1..], userId, keyId)
    else [rows[0]] + WithoutKey(rows[1..], userId, keyId)
  }

  /** A key deleted by its owner no longer authenticates. */
  lemma {:induction false} RevokedKeyRejected(rows: seq<StoredKey>, userId: string, keyId: string, plaintext: string,
                                              hashApiKey: string -> string, lookupFails: bool,
                                              toEpoch: string -> Option<int>, now: int)
    requires forall k :: k in rows && k.keyHash == hashApiKey(plaintext) ==> k.id == keyId && k.userId == userId
    ensures ValidateApiKey(Some(plaintext), hashApiKey, WithoutKey(rows, userId, keyId), lookupFails, toEpoch, now).Invalid?
  {
    var rest := WithoutKey(rows, userId, keyId);
    if HasKeyFormat(plaintext) {
      forall j | 0 <= j < |rest| ensures rest[j].keyHash != hashApiKey(plaintext) {
        assert rest[j] in rest;
      }
      NoMatch(rest, hashApiKey(plaintext));
    }
  }

  /** The values the database fills in for a new row. */
  datatype RowDefaults = RowDefaults(id: string, rateLimitTier: string, createdAt: string)

  /** What `createApiKey` returns: the stored row and, beside it, the plaintext. */
  datatype CreatedKey = CreatedKey(row: StoredKey, plaintextKey: string)

  class KeyTable {
    var rows: seq<StoredKey>

    constructor(initial: seq<StoredKey>)
      ensures rows == initial
    {
      rows := initial;
    }

    /** `listApiKeys`: the user's keys, newest first. */
    method ListApiKeys(userId: string, queryError: Option<DbError>) returns (r: ServiceResult<seq<StoredKey>>)
      ensures queryError.Some? ==> r == DbFailure("QUERY_FAILED", "Failed to list API keys", queryError.value)
      ensures queryError.None? ==> r.Success?
      ensures r.Success? ==>
                SortedBy(r.data, CreatedAt, true) &&
                multiset(r.data) == multiset(OwnedBy(rows, userId)) &&
                forall k :: k in r.data <==> k in rows && k.userId == userId
    {
      if queryError.Some? {
        return DbFailure("QUERY_FAILED", "Failed to list API keys", queryError.value);
      }
      var owned := OwnedBy(rows, userId);
      var sorted := SortBy(owned, CreatedAt, true);
      assert forall k :: k in sorted <==> k in multiset(sorted);
      assert forall k :: k in owned <==> k in multiset(owned);
      r := Success(sorted);
    }

    /** `createApiKey`: validates the scopes, then stores the hash and prefix of a fresh key
        (never the plaintext) and hands the plaintext back once. */
    method CreateApiKey(userId: string, name: string, scopes: seq<string>, expiresAt: Option<string>,
                        random: seq<Byte>, hashApiKey: string -> string, defaults: RowDefaults,
                        insertError: Option<DbError>) returns (r: ServiceResult<CreatedKey>)
      requires |random| == 32
      modifies this
      ensures ScopeError(scopes).Some? ==> r == Failure(ScopeError(scopes).value) && rows == old(rows)
      ensures ScopeError(scopes).None? && insertError.Some? ==>
                r == DbFailure("CREATE_FAILED", "Failed to create API key", insertError.value) && rows == old(rows)
      ensures r.Success? ==>
                ScopeError(scopes).None? && insertError.None? &&
                rows == old(rows) + [r.data.row] &&
                HasKeyFormat(r.data.plaintextKey) &&
                r.data.row == StoredKey(defaults.id, userId, name, r.data.plaintextKey[..12],
                                        hashApiKey(r.data.plaintextKey), Some(scopes), defaults.rateLimitTier,
                                        None, expiresAt, defaults.createdAt)
      ensures ScopeError(scopes).None? && insertError.None? ==> r.Success?
    {
      var scopeError := ScopeError(scopes);
      if scopeError.Some? {
        return Failure(scopeError.value);
      }
      var generated := GenerateApiKey(random, hashApiKey);
      if insertError.Some? {
        return DbFailure("CREATE_FAILED", "Failed to create API key", insertError.value);
      }
      var row := StoredKey(defaults.id, userId, name, generated.prefix, generated.hash, Some(scopes),
                           defaults.rateLimitTier, None, expiresAt, defaults.createdAt);
      rows := rows + [row];
      r := Success(CreatedKey(row, generated.plaintext));
    }

    /** `revokeApiKey`: deletes the row with that id owned by that user; when no row matched,
        NOT_FOUND and the table is as before. */
    method RevokeApiKey(userId: string, keyId: string, deleteError: Option<DbError>) returns (r: ServiceResult<bool>)
      modifies this
      ensures deleteError.Some? ==>
                r == DbFailure("DELETE_FAILED", "Failed to revoke API key", deleteError.value) && rows == old(rows)
      ensures deleteError.None? ==> rows == WithoutKey(old(rows), userId, keyId)
      ensures deleteError.None? ==>
                (r == Failure(ServiceError("NOT_FOUND", "API key not found", None))
                 <==> forall i :: 0 <= i < |old(rows)| ==> !(old(rows)[i].id == keyId && old(rows)[i].userId == userId))
      ensures deleteError.None? && (exists i :: 0 <= i < |old(rows)| && old(rows)[i].id == keyId && old(rows)[i].userId == userId) ==>
                r == Success(true)
      ensures r.Success? ==> r.data
    {
      if deleteError.Some? {
        return DbFailure("DELETE_FAILED", "Failed to revoke API key", deleteError.value);
      }
      var before := rows;
      rows := WithoutKey(rows, userId, keyId);
      var count := |before| - |rows|;
      if count == 0 {
        DeletedNone(before, userId, keyId);
        return Failure(ServiceError("NOT_FOUND", "API key not found", None));
      }
      r := Success(true);
    }
  }

  /** Deleting nothing means no row matched. */
  lemma {:induction false} DeletedNone(rows: seq<StoredKey>, userId: string, keyId: string)
    requires |WithoutKey(rows, userId, keyId)| == |rows|
    ensures forall i :: 0 <= i < |rows| ==> !(rows[i].id == keyId && rows[i].userId == userId)
    decreases |rows|
  {
    if |rows| > 0 {
      DeletedNone(rows[1..], userId, keyId);
      forall i | 0 <= i < |rows| ensures !(rows[i].id == keyId && rows[i].userId == userId) {
        if i > 0 { assert rows[i] == rows[1..][i - 1]; }
      }
    }
  }

  /** A key stored by `createApiKey` authenticates as its owner with the requested scopes,
      provided no other row shares its hash, it has no expiry and the lookup succeeds. */
  lemma CreatedKeyValidates(old_rows: seq<StoredKey>, c: CreatedKey, hashApiKey: string -> string,
                            toEpoch: string -> Option<int>, now: int)
    requires HasKeyFormat(c.plaintextKey) && c.row.keyHash == hashApiKey(c.plaintextKey) && c.row.expiresAt.None?
    requires c.row.scopes.Some?
    requires forall j :: 0 <= j < |old_rows| ==> old_rows[j].keyHash != c.row.keyHash
    requires forall i, j :: 0 <= i < j < |old_rows| ==> old_rows[i] != old_rows[j]
    ensures ValidateApiKey(Some(c.plaintextKey), hashApiKey, old_rows + [c.row], false, toEpoch, now)
            == Valid(c.row, c.row.userId, c.row.scopes.value)
  {
    var rows := old_rows + [c.row];
    forall i, j | 0 <= i < j < |rows| ensures rows[i] != rows[j] {
      if j == |old_rows| { assert rows[i].keyHash != c.row.keyHash; }
    }
    GeneratedKeyAccepted(c.plaintextKey, hashApiKey, rows, toEpoch, now, c.row);
  }
}
