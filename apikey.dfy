/** API-key format helpers of internal/apikey/apikey.go. */
module ApiKey {
  import opened Base

  /** The package constant every generated key starts with. */
  const Prefix: string := "gsk_"

  /** Number of random bytes behind a key. */
  const KeyLength: nat := 32

  /** Length of the unpadded URL-safe base64 encoding of n bytes. */
  function RawUrlEncodedLen(n: nat): nat
  {
    n / 3 * 4 + (if n % 3 == 1 then 2 else if n % 3 == 2 then 3 else 0)
  }

  /** The key built from the encoded random bytes (generateKey). The random
      bytes and their encoding are foreign; the encoded text is an input. */
  function MakeKey(encoded: string): (key: string)
    ensures StartsWith(key, Prefix) && TrimPrefix(key, Prefix) == encoded
  {
    Prefix + encoded
  }

  /** ExtractParts as the source has it: the named result `prefix` shadows the
      package constant, so inside the function it is the empty string. The
      HasPrefix test therefore always passes, the first component is always
      empty, and the length test compares against 0 + 4. */
  function ExtractParts(key: string): (parts: (string, string))
    ensures parts.0 == ""
    ensures |key| < 4 ==> parts.1 == ""
    ensures |key| >= 4 ==> parts.1 == key[|key| - 4..]
  {
    var prefix := "";
    if !StartsWith(key, prefix) then ("", "")
    else if |key| < |prefix| + 4 then (prefix, "")
    else (prefix, key[|key| - 4..])
  }

  /** The suffix is 0 or 4 characters and always a suffix of the key. */
  lemma ExtractPartsSuffix(key: string)
    ensures var s := ExtractParts(key).1;
      (|s| == 0 || |s| == 4) && |s| <= |key| && key[|key| - |s|..] == s
  {
  }

  /** Validate(k) holds exactly when k starts with "gsk_" and has at least
      40 characters after it. */
  function Validate(key: string): (ok: bool)
    ensures ok <==> StartsWith(key, Prefix) && |key| >= |Prefix| + 40
    ensures !StartsWith(key, Prefix) ==> !ok
  {
    if !StartsWith(key, Prefix) then false
    else
      var withoutPrefix := TrimPrefix(key, Prefix);
      |withoutPrefix| >= 40
  }

  /** Every key generateKey can produce passes Validate: 32 random bytes
      encode to 43 characters. */
  lemma GeneratedKeyValidates(encoded: string)
    requires |encoded| == RawUrlEncodedLen(KeyLength)
    ensures |encoded| == 43
    ensures Validate(MakeKey(encoded))
  {
  }

  /** Because of the shadowing, the stored prefix of a well-formed key is
      never "gsk_": it is empty, and the suffix is the key's last four. */
  lemma ExtractPartsOfValidKey(key: string)
    requires Validate(key)
    ensures ExtractParts(key) == ("", key[|key| - 4..])
    ensures ExtractParts(key).0 != Prefix
  {
  }
}
