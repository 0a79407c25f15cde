/** Content keys: which key of a license response is used, and which key
    strings the decryption step accepts. */
module Keys {
  import opened Common
  import opened Text

  /** The usage types a Widevine license gives its keys. */
  datatype KeyType = Signing | Content | KeyControl | OperatorSession | Entitlement | OemContent

  /** One key of a parsed license: its type, key id and key bytes. */
  datatype LicenseKey = LicenseKey(kind: KeyType, kid: seq<byte>, key: seq<byte>)

  predicate IsContent(k: LicenseKey)
  {
    k.kind == Content
  }

  /** A content key whose key id, in hex, is the manifest's key id. */
  predicate MatchesKeyId(k: LicenseKey, keyId: string)
  {
    IsContent(k) && HexOf(k.kid) == keyId
  }

  /** The key bytes of the first content key whose key id matches. */
  function ExactKey(keys: seq<LicenseKey>, keyId: string): (r: Option<seq<byte>>)
    ensures r.None? <==> forall j :: 0 <= j < |keys| ==> !MatchesKeyId(keys[j], keyId)
  {
    if keys == [] then None
    else if MatchesKeyId(keys[0], keyId) then Some(keys[0].key)
    else ExactKey(keys[1..], keyId)
  }

  /** The key bytes of the first content key. */
  function FirstContentKey(keys: seq<LicenseKey>): (r: Option<seq<byte>>)
    ensures r.None? <==> forall j :: 0 <= j < |keys| ==> !IsContent(keys[j])
  {
    if keys == [] then None
    else if IsContent(keys[0]) then Some(keys[0].key)
    else FirstContentKey(keys[1..])
  }

  /** The key the license exchange hands back, as lower-case hex: the first
      content key whose key id matches, else the first content key (when its
      hex is not empty), else NoContentKey. */
  function SelectKey(keys: seq<LicenseKey>, keyId: string): (r: Result<string>)
    ensures r.Failure? ==> r.error == NoContentKey
    ensures (forall j :: 0 <= j < |keys| ==> !IsContent(keys[j])) ==> r.Failure?
  {
    match ExactKey(keys, keyId)
    case Some(k) => Success(HexOf(k))
    case None =>
      match FirstContentKey(keys)
      case Some(k) => if HexOf(k) != [] then Success(HexOf(k)) else Failure(NoContentKey)
      case None => Failure(NoContentKey)
  }

  /** Without a matching key, a first content key with empty bytes gives
      the empty hex, which is falsy: the licence yields no key at all. */
  lemma SelectKeyEmptyFallback(keys: seq<LicenseKey>, keyId: string, i: nat)
    requires forall j :: 0 <= j < |keys| ==> !MatchesKeyId(keys[j], keyId)
    requires i < |keys| && IsContent(keys[i]) && keys[i].key == []
    requires forall j :: 0 <= j < i ==> !IsContent(keys[j])
    ensures SelectKey(keys, keyId) == Failure(NoContentKey)
  {
    FirstContentKeyIsFirst(keys, i);
  }

  /** Scanning from the front, the first matching key found is the one used. */
  lemma {:induction false} ExactKeyIsFirstMatch(keys: seq<LicenseKey>, keyId: string, i: nat)
    requires i < |keys| && MatchesKeyId(keys[i], keyId)
    requires forall j :: 0 <= j < i ==> !MatchesKeyId(keys[j], keyId)
    ensures ExactKey(keys, keyId) == Some(keys[i].key)
  {
    if i > 0 {
      ExactKeyIsFirstMatch(keys[1..], keyId, i - 1);
    }
  }

  lemma {:induction false} FirstContentKeyIsFirst(keys: seq<LicenseKey>, i: nat)
    requires i < |keys| && IsContent(keys[i])
    requires forall j :: 0 <= j < i ==> !IsContent(keys[j])
    ensures FirstContentKey(keys) == Some(keys[i].key)
  {
    if i > 0 {
      FirstContentKeyIsFirst(keys[1..], i - 1);
    }
  }

  /** An exact key-id match wins, whatever content keys come before it. */
  lemma SelectKeyPrefersExactMatch(keys: seq<LicenseKey>, keyId: string, i: nat)
    requires i < |keys| && MatchesKeyId(keys[i], keyId)
    requires forall j :: 0 <= j < i ==> !MatchesKeyId(keys[j], keyId)
    ensures SelectKey(keys, keyId) == Success(HexOf(keys[i].key))
  {
    ExactKeyIsFirstMatch(keys, keyId, i);
  }

  /** Without an exact match the first content key is used, provided its hex
      is not empty. */
  lemma SelectKeyFallsBackToFirstContent(keys: seq<LicenseKey>, keyId: string, i: nat)
    requires forall j :: 0 <= j < |keys| ==> !MatchesKeyId(keys[j], keyId)
    requires i < |keys| && IsContent(keys[i]) && keys[i].key != []
    requires forall j :: 0 <= j < i ==> !IsContent(keys[j])
    ensures SelectKey(keys, keyId) == Success(HexOf(keys[i].key))
  {
    FirstContentKeyIsFirst(keys, i);
  }

  /** The content keys of a license, in order. */
  function ContentOnly(keys: seq<LicenseKey>): (r: seq<LicenseKey>)
    ensures forall j :: 0 <= j < |r| ==> IsContent(r[j])
  {
    if keys == [] then []
    else if IsContent(keys[0]) then [keys[0]] + ContentOnly(keys[1..])
    else ContentOnly(keys[1..])
  }

  /** Signing and other non-content keys play no part in the choice. */
  lemma {:induction false} SelectKeyIgnoresNonContent(keys: seq<LicenseKey>, keyId: string)
    ensures SelectKey(ContentOnly(keys), keyId) == SelectKey(keys, keyId)
  {
    ExactKeyIgnoresNonContent(keys, keyId);
    FirstContentKeyIgnoresNonContent(keys);
  }

  lemma {:induction false} ExactKeyIgnoresNonContent(keys: seq<LicenseKey>, keyId: string)
    ensures ExactKey(ContentOnly(keys), keyId) == ExactKey(keys, keyId)
  {
    if keys != [] {
      ExactKeyIgnoresNonContent(keys[1..], keyId);
      if IsContent(keys[0]) {
        assert ([keys[0]] + ContentOnly(keys[1..]))[1..] == ContentOnly(keys[1..]);
      }
    }
  }

  lemma {:induction false} FirstContentKeyIgnoresNonContent(keys: seq<LicenseKey>)
    ensures FirstContentKey(ContentOnly(keys)) == FirstContentKey(keys)
  {
    if keys != [] {
      FirstContentKeyIgnoresNonContent(keys[1..]);
    }
  }

  /** 32 characters of "0123456789abcdef": the form ffmpeg is given. */
  predicate IsKeyHex(k: string)
  {
    |k| == 32 && forall i :: 0 <= i < 32 ==> IsLowerHexDigit(k[i])
  }

  /** The check made on a key before ffmpeg is run: strip, lower-case, then
      exactly 32 characters of "0123456789abcdef". */
  function ValidateKey(keyHex: string): (r: Result<string>)
    ensures r.Success? <==> var s := Strip(keyHex); |s| == 32 && forall i :: 0 <= i < |s| ==> IsHexDigit(s[i])
    ensures r.Success? ==> IsKeyHex(r.value)
    ensures r.Success? ==> r.value == Lower(Strip(keyHex))
    ensures r.Failure? ==> r.error == InvalidKeyFormat
  {
    var k := Lower(Strip(keyHex));
    if |k| == 32 && forall i :: 0 <= i < |k| ==> IsLowerHexDigit(k[i]) then Success(k)
    else Failure(InvalidKeyFormat)
  }

  /** An accepted key is accepted again unchanged. */
  lemma ValidateKeyIdempotent(keyHex: string)
    requires ValidateKey(keyHex).Success?
    ensures ValidateKey(ValidateKey(keyHex).value) == ValidateKey(keyHex)
  {
    var k := ValidateKey(keyHex).value;
    LowerHexUnchanged(k);
  }

  /** Stripping and lower-casing leave a lower-case hex string alone. */
  lemma LowerHexUnchanged(k: string)
    requires forall i :: 0 <= i < |k| ==> IsLowerHexDigit(k[i])
    ensures Lower(Strip(k)) == k
  {
    assert k != [] ==> !IsSpace(k[0]) && !IsSpace(k[|k| - 1]);
    assert Strip(k) == k;
  }

  /** A 16-byte key negotiated from a license passes the check unchanged. */
  lemma NegotiatedKeyIsAccepted(key: seq<byte>)
    requires |key| == 16
    ensures ValidateKey(HexOf(key)) == Success(HexOf(key))
  {
    LowerHexUnchanged(HexOf(key));
  }
}
