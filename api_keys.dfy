/** API-key generation and the validation decision chain (src/lib/api-keys.ts). SHA-256 is the
    parameter `hashApiKey`, the random source is a byte sequence, the `api_keys` table is a
    sequence of rows, date parsing is `toEpoch` (None for an unparseable date) and the clock
    is `now`. */
module ApiKeys {
  import opened Wrappers
  import opened Strings

  newtype Byte = x: int | 0 <= x < 256

  predicate IsAlphanumeric(c: char) {
    'A' <= c <= 'Z' || 'a' <= c <= 'z' || '0' <= c <= '9'
  }

  /** The alphabet's i-th character: upper case, then lower case, then digits. */
  function AlphabetChar(i: nat): (c: char)
    requires i < 62
    ensures IsAlphanumeric(c)
  {
    if i < 26 then ('A' as int + i) as char
    else if i < 52 then ('a' as int + i - 26) as char
    else ('0' as int + i - 52) as char
  }

  /** The 62-character alphabet of `generateRandomString`: "A".."Z", "a".."z", "0".."9". */
  const Alphabet: string := seq(62, i requires 0 <= i < 62 => AlphabetChar(i))

  /** The alphabet's ranges start and end where the source text's do, and no character
      occurs twice. */
  lemma AlphabetLayout()
    ensures |Alphabet| == 62
    ensures Alphabet[0] == 'A' && Alphabet[25] == 'Z' && Alphabet[26] == 'a' && Alphabet[51] == 'z'
    ensures Alphabet[52] == '0' && Alphabet[61] == '9'
    ensures forall i, j :: 0 <= i < j < 62 ==> Alphabet[i] != Alphabet[j]
  {
  }

  /** `generateRandomString`: fills a byte buffer from the random source, then maps each byte
      `x` to `Alphabet[x % 62]`. */
  method GenerateRandomString(length: nat, random: seq<Byte>) returns (s: string)
    requires |random| == length
    ensures |s| == length
    ensures forall i :: 0 <= i < length ==> s[i] == Alphabet[random[i] as int % 62]
    ensures forall i :: 0 <= i < length ==> IsAlphanumeric(s[i])
  {
    var buffer := new Byte[length];
    var i := 0;
    while i < length
      invariant 0 <= i <= length
      invariant forall j :: 0 <= j < i ==> buffer[j] == random[j]
    {
      buffer[i] := random[i];
      i := i + 1;
    }
    s := "";
    i := 0;
    while i < length
      invariant 0 <= i <= length && |s| == i
      invariant forall j :: 0 <= j < i ==> s[j] == Alphabet[random[j] as int % 62]
    {
      s := s + [Alphabet[buffer[i] as int % 62]];
      i := i + 1;
    }
  }

  const LivePrefix: string := "ct_live_"

  /** The shape `validateApiKey` demands before any lookup. */
  predicate HasKeyFormat(key: string) {
    LivePrefix <= key && |key| == 40
  }

  datatype GeneratedKey = GeneratedKey(plaintext: string, hash: string, prefix: string)

  method GenerateApiKey(random: seq<Byte>, hashApiKey: string -> string) returns (k: GeneratedKey)
    requires |random| == 32
    ensures |k.plaintext| == 40 && k.plaintext[..8] == LivePrefix
    ensures forall i :: 8 <= i < 40 ==> k.plaintext[i] == Alphabet[random[i - 8] as int % 62]
    ensures forall i :: 8 <= i < 40 ==> IsAlphanumeric(k.plaintext[i])
    ensures k.prefix == k.plaintext[..12]
    ensures k.hash == hashApiKey(k.plaintext)
    ensures HasKeyFormat(k.plaintext)
  {
    var randomPart := GenerateRandomString(32, random);
    var plaintext := LivePrefix + randomPart;
    k := GeneratedKey(plaintext, hashApiKey(plaintext), Prefix(plaintext, 12));
  }

  /** A row of the `api_keys` table. */
  datatype StoredKey = StoredKey(
    id: string,
    userId: string,
    name: string,
    keyPrefix: string,
    keyHash: string,
    scopes: Option<seq<string>>,
    rateLimitTier: string,
    lastUsedAt: Option<string>,
    expiresAt: Option<string>,
    createdAt: string)

  datatype Validation = Valid(key: StoredKey, userId: string, scopes: seq<string>) | Invalid(error: string)

  /** The rows whose `key_hash` is `h`, in table order. */
  function KeysWithHash(rows: seq<StoredKey>, h: string): (r: seq<StoredKey>)
    ensures forall k :: k in r <==> k in rows && k.keyHash == h
    ensures |r| <= |rows|
    decreases |rows|
  {
    if |rows| == 0 then []
    else if rows[0].keyHash == h then [rows[0]] + KeysWithHash(rows[1..], h)
    else KeysWithHash(rows[1..], h)
  }

  /** `expires_at && new Date(expires_at) < new Date()`: a null or empty expiry, or one that is
      not a date, never expires. */
  predicate Expired(k: StoredKey, toEpoch: string -> Option<int>, now: int) {
    k.expiresAt.Some? && k.expiresAt.value != "" &&
    toEpoch(k.expiresAt.value).Some? && toEpoch(k.expiresAt.value).value < now
  }

  /** The decision chain: missing header, bad format, a lookup that fails or finds no single
      row with that hash, expired, and otherwise the key itself. A `.single()` lookup succeeds
      only on exactly one row; `lookupFails` is a datastore error of that lookup (a timeout, a
      lost connection), which the source answers like a missing row. */
  function ValidateApiKey(header: Option<string>, hashApiKey: string -> string, rows: seq<StoredKey>,
                          lookupFails: bool, toEpoch: string -> Option<int>, now: int): (r: Validation)
    ensures (header.None? || header == Some("")) ==> r == Invalid("Missing X-API-Key header")
    ensures header.Some? && header.value != "" && !HasKeyFormat(header.value) ==>
              r == Invalid("Invalid API key format")
    ensures header.Some? && HasKeyFormat(header.value) && lookupFails ==> r == Invalid("Invalid API key")
    ensures header.Some? && HasKeyFormat(header.value) && |KeysWithHash(rows, hashApiKey(header.value))| != 1 ==>
              r == Invalid("Invalid API key")
    ensures header.Some? && HasKeyFormat(header.value) && !lookupFails &&
            |KeysWithHash(rows, hashApiKey(header.value))| == 1 ==>
              var k := KeysWithHash(rows, hashApiKey(header.value))[0];
              r == if Expired(k, toEpoch, now) then Invalid("API key has expired")
                   else Valid(k, k.userId, k.scopes.GetOr([]))
    ensures r.Valid? ==> !lookupFails && r.key in rows && r.key.keyHash == hashApiKey(header.value) && r.userId == r.key.userId
  {
    if header.None? || header.value == "" then Invalid("Missing X-API-Key header")
    else if !HasKeyFormat(header.value) then Invalid("Invalid API key format")
    else
      var matches := KeysWithHash(rows, hashApiKey(header.value));
      if lookupFails || |matches| != 1 then Invalid("Invalid API key")
      else
        var k := matches[0];
        if Expired(k, toEpoch, now) then Invalid("API key has expired")
        else Valid(k, k.userId, k.scopes.GetOr([]))
  }

  /** A malformed header is refused before the hash or the table is consulted. */
  lemma MalformedRejectedBeforeLookup(header: string, h1: string -> string, rows1: seq<StoredKey>,
                                      fails1: bool, h2: string -> string, rows2: seq<StoredKey>,
                                      fails2: bool, toEpoch: string -> Option<int>, now: int)
    requires !HasKeyFormat(header)
    ensures ValidateApiKey(Some(header), h1, rows1, fails1, toEpoch, now) ==
            ValidateApiKey(Some(header), h2, rows2, fails2, toEpoch, now)
    ensures ValidateApiKey(Some(header), h1, rows1, fails1, toEpoch, now).Invalid?
  {
  }

  /** A freshly generated key, stored as its only row with that hash and without expiry, is
      accepted at any time with the stored owner and scopes when the lookup itself succeeds. */
  lemma GeneratedKeyAccepted(plaintext: string, hashApiKey: string -> string, rows: seq<StoredKey>,
                             toEpoch: string -> Option<int>, now: int, k: StoredKey)
    requires HasKeyFormat(plaintext)
    requires k in rows && k.keyHash == hashApiKey(plaintext) && k.expiresAt.None?
    requires forall j :: 0 <= j < |rows| && rows[j] != k ==> rows[j].keyHash != hashApiKey(plaintext)
    requires forall i, j :: 0 <= i < j < |rows| ==> rows[i] != rows[j]
    ensures ValidateApiKey(Some(plaintext), hashApiKey, rows, false, toEpoch, now) == Valid(k, k.userId, k.scopes.GetOr([]))
  {
    OnlyMatch(rows, hashApiKey(plaintext), k);
  }

  lemma {:induction false} OnlyMatch(rows: seq<StoredKey>, h: string, k: StoredKey)
    requires k in rows && k.keyHash == h
    requires forall j :: 0 <= j < |rows| && rows[j] != k ==> rows[j].keyHash != h
    requires forall i, j :: 0 <= i < j < |rows| ==> rows[i] != rows[j]
    ensures KeysWithHash(rows, h) == [k]
    decreases |rows|
  {
    if rows[0] == k {
      assert k !in rows[1..];
      NoMatch(rows[1..], h);
    } else {
      OnlyMatch(rows[1..], h, k);
    }
  }

  lemma NoMatch(rows: seq<StoredKey>, h: string)
    requires forall j :: 0 <= j < |rows| ==> rows[j].keyHash != h
    ensures KeysWithHash(rows, h) == []
  {
  }

  /** Once a key has expired it stays expired. */
  lemma ExpiryIsPermanent(k: StoredKey, toEpoch: string -> Option<int>, now: int, later: int)
    requires Expired(k, toEpoch, now) && now <= later
    ensures Expired(k, toEpoch, later)
  {
  }
}
