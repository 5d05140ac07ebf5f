/** The cipher wrapper of composables/useCrypto.ts. AES-GCM, PBKDF2, UTF-8
    text coding and base64 belong to the platform and stay abstract (a
    Platform value and its LawfulPlatform predicate); the record shape, the master
    key lifecycle, the byte/character-code loops and the result wrappers
    are modelled. */
module Crypto {
  import opened Wrappers
  import opened Json
  import opened Storage
  import Text

  newtype byte = x: int | 0 <= x < 256

  const MasterKeyName: string := "__crypto_master_key"
  const SaltLength: nat := 16
  const IvLength: nat := 12
  const MasterKeyLength: nat := 32

  const NoData: string := "No data to encrypt"
  const EncryptionFailed: string := "Encryption failed"
  const InvalidFormat: string := "Invalid encrypted data format"
  const DecryptionFailed: string := "Decryption failed"

  /** The record written for an encrypted value; every field is base64 text. */
  datatype EncryptedRecord = EncryptedRecord(data: string, iv: string, salt: string)

  function RecordJson(r: EncryptedRecord): Json {
    JObj(map["data" := JStr(r.data), "iv" := JStr(r.iv), "salt" := JStr(r.salt), "encrypted" := JBool(true)])
  }

  /** isEncryptedData: an object whose `encrypted` is exactly true and whose
      data, iv and salt are truthy. */
  predicate IsEncryptedData(v: Json) {
    && v.JObj?
    && Field(v, "encrypted") == JBool(true)
    && Truthy(Field(v, "data"))
    && Truthy(Field(v, "iv"))
    && Truthy(Field(v, "salt"))
  }

  lemma RecordShape(r: EncryptedRecord)
    ensures IsEncryptedData(RecordJson(r)) <==> r.data != "" && r.iv != "" && r.salt != ""
  {
  }

  /** A value without `encrypted: true` is never taken for a record. */
  lemma PlainObjectNotRecord(v: Json)
    requires v.JObj? && "encrypted" !in v.fields
    ensures !IsEncryptedData(v)
  {
  }

  // ---------------------------------------------------------------------------
  // Platform primitives

  /** A string whose characters are all byte-sized (what btoa accepts and
      atob returns). */
  predicate IsBinary(s: string) {
    forall i :: 0 <= i < |s| ==> s[i] as int < 256
  }

  /** What a failing platform call throws: an Error, whose message the
      catch blocks of encrypt and decrypt report, or some other value, for
      which they report their own fallback text. */
  datatype Thrown = ThrownError(message: string) | ThrownOther

  /** The `error` of a failed encrypt or decrypt for what was thrown. */
  function Reported(t: Thrown, fallback: string): string {
    match t
    case ThrownError(message) => message
    case ThrownOther => fallback
  }

  /** The Web Crypto platform. `supported` is isCryptoSupported(), and
      `unsupported` what the first use of the missing API throws; `seal` is
      PBKDF2 key derivation from the password and salt followed by AES-GCM
      encryption of the UTF-8 text; `open` the reverse, failing on a wrong
      key or tampered data; btoa/atob are base64. A failing call yields what
      it throws. `coerce` is String(x), the text atob reads from a value that
      is not a string. */
  datatype Platform = Platform(
    supported: bool,
    unsupported: Thrown,
    seal: (string, seq<byte>, seq<byte>, string) -> Result<seq<byte>, Thrown>,
    open: (string, seq<byte>, seq<byte>, seq<byte>) -> Result<string, Thrown>,
    btoa: string -> string,
    atob: string -> Result<string, Thrown>,
    coerce: Json -> string)

  /** What the model assumes of the platform: an authenticated cipher that
      opens what it sealed under the same password, salt and IV (with a
      non-empty ciphertext, since AES-GCM appends a tag), and base64 that
      round-trips binary strings. */
  ghost predicate LawfulPlatform(p: Platform) {
    && (forall pw, salt, iv, m :: p.seal(pw, salt, iv, m).Success? ==>
          |p.seal(pw, salt, iv, m).value| > 0 && p.open(pw, salt, iv, p.seal(pw, salt, iv, m).value) == Success(m))
    && (forall b :: IsBinary(b) ==> p.atob(p.btoa(b)) == Success(b))
    && p.btoa("") == ""
  }

  lemma BtoaNonEmpty(p: Platform, b: string)
    requires LawfulPlatform(p) && IsBinary(b) && b != ""
    ensures p.btoa(b) != ""
  {
    assert IsBinary("");
    assert p.atob(p.btoa(b)) == Success(b);
    assert p.atob(p.btoa("")) == Success("");
  }

  // ---------------------------------------------------------------------------
  // Byte / character-code conversion (the loops around btoa and atob)

  /** String.fromCharCode of each byte, concatenated. */
  function Latin1(bytes: seq<byte>): (s: string)
    ensures |s| == |bytes| && IsBinary(s)
  {
    seq(|bytes|, i requires 0 <= i < |bytes| => bytes[i] as int as char)
  }

  /** charCodeAt of each character, stored into a Uint8Array (modulo 256). */
  function CharCodes(s: string): (bytes: seq<byte>)
    ensures |bytes| == |s|
  {
    seq(|s|, i requires 0 <= i < |s| => (s[i] as int % 256) as byte)
  }

  /** The two conversion loops are inverse on bytes. */
  lemma CharCodesOfLatin1(bytes: seq<byte>)
    ensures CharCodes(Latin1(bytes)) == bytes
  {
  }

  lemma Latin1OfCharCodes(s: string)
    requires IsBinary(s)
    ensures Latin1(CharCodes(s)) == s
  {
    var r := Latin1(CharCodes(s));
    forall i | 0 <= i < |s| ensures r[i] == s[i] {
      assert s[i] as int % 256 == s[i] as int;
    }
  }

  /** arrayBufferToBase64. */
  method ArrayBufferToBase64(p: Platform, bytes: seq<byte>) returns (text: string)
    ensures text == p.btoa(Latin1(bytes))
  {
    var binary := "";
    for i := 0 to |bytes|
      invariant binary == Latin1(bytes[..i])
    {
      binary := binary + [bytes[i] as int as char];
    }
    assert bytes[..|bytes|] == bytes;
    text := p.btoa(binary);
  }

  /** base64ToArrayBuffer; a failure carries what atob throws. */
  method Base64ToArrayBuffer(p: Platform, text: string) returns (r: Result<array<byte>, Thrown>)
    ensures r.Success? <==> p.atob(text).Success?
    ensures r.Failure? ==> r.error == p.atob(text).error
    ensures r.Success? ==> fresh(r.value) && r.value[..] == CharCodes(p.atob(text).value)
  {
    var binary := p.atob(text);
    if binary.Failure? {
      return Failure(binary.error);
    }
    var b := binary.value;
    var bytes := new byte[|b|];
    for i := 0 to |b|
      invariant bytes[..i] == CharCodes(b)[..i]
    {
      bytes[i] := (b[i] as int % 256) as byte;
    }
    return Success(bytes);
  }

  // ---------------------------------------------------------------------------
  // Randomness and the master key

  /** The bytes crypto.getRandomValues yields: a fixed stream read from a cursor. */
  function Window(stream: nat -> byte, from: nat, n: nat): (w: seq<byte>)
    ensures |w| == n
  {
    seq(n, i requires 0 <= i < n => stream(from + i))
  }

  class Entropy {
    const stream: nat -> byte
    var cursor: nat

    constructor (stream: nat -> byte)
      ensures this.stream == stream && cursor == 0
    {
      this.stream := stream;
      cursor := 0;
    }

    /** crypto.getRandomValues(new Uint8Array(n)): the next n bytes, never reused. */
    method Draw(n: nat) returns (bytes: seq<byte>)
      modifies this
      ensures bytes == Window(stream, old(cursor), n) && cursor == old(cursor) + n
    {
      bytes := Window(stream, cursor, n);
      cursor := cursor + n;
    }
  }

  predicate IsLowerHex(c: char) { ('0' <= c <= '9') || ('a' <= c <= 'f') }

  function HexDigit(d: nat): (c: char)
    requires d < 16
    ensures IsLowerHex(c)
  {
    if d < 10 then (d + '0' as int) as char else (d - 10 + 'a' as int) as char
  }

  /** Number.prototype.toString(16) of a byte. */
  function ToHex(b: byte): string {
    if b < 16 then [HexDigit(b as nat)] else [HexDigit(b as nat / 16), HexDigit(b as nat % 16)]
  }

  /** The two lowercase hex digits of a byte, high digit first. */
  function HexPair(b: byte): string {
    [HexDigit(b as nat / 16), HexDigit(b as nat % 16)]
  }

  /** byte.toString(16).padStart(2, '0') is always the two digits of the byte. */
  function HexByte(b: byte): (s: string)
    ensures s == HexPair(b)
  {
    Text.PadStart(ToHex(b), 2, '0')
  }

  /** The bytes rendered by HexByte and joined. */
  function Hex(bytes: seq<byte>): string {
    if bytes == [] then "" else HexPair(bytes[0]) + Hex(bytes[1..])
  }

  lemma {:induction false} HexShape(bytes: seq<byte>)
    ensures |Hex(bytes)| == 2 * |bytes|
    ensures forall i :: 0 <= i < |Hex(bytes)| ==> IsLowerHex(Hex(bytes)[i])
  {
    if bytes != [] {
      var head := HexPair(bytes[0]);
      var tail := Hex(bytes[1..]);
      HexShape(bytes[1..]);
      assert Hex(bytes) == head + tail;
      forall i | 0 <= i < |head + tail| ensures IsLowerHex((head + tail)[i]) {
        if i >= 2 { assert (head + tail)[i] == tail[i - 2]; }
      }
    }
  }

  lemma HexDigitInjective(a: nat, b: nat)
    requires a < 16 && b < 16 && HexDigit(a) == HexDigit(b)
    ensures a == b
  {
  }

  /** Distinct byte strings give distinct hex keys. */
  lemma {:induction false} HexInjective(a: seq<byte>, b: seq<byte>)
    requires Hex(a) == Hex(b)
    ensures a == b
  {
    HexShape(a);
    HexShape(b);
    if a != [] {
      var ha, ta := HexPair(a[0]), Hex(a[1..]);
      var hb, tb := HexPair(b[0]), Hex(b[1..]);
      assert ha + ta == hb + tb;
      assert ha == (ha + ta)[..2] && hb == (hb + tb)[..2];
      assert ta == (ha + ta)[2..] && tb == (hb + tb)[2..];
      HexDigitInjective(a[0] as nat / 16, b[0] as nat / 16);
      HexDigitInjective(a[0] as nat % 16, b[0] as nat % 16);
      HexInjective(a[1..], b[1..]);
      assert a == [a[0]] + a[1..] && b == [b[0]] + b[1..];
    }
  }

  /** What the browser holds that the cipher service reads and changes:
      localStorage and the position in the random stream. */
  datatype Env = Env(entries: Entries, cursor: nat)

  /** The stored master key; an empty value counts as absent. */
  function StoredMasterKey(e: Entries): Option<string> {
    match Lookup(e, MasterKeyName)
    case Some(k) => if k != "" then Some(k) else None
    case None => None
  }

  /** getMasterPassword: the stored key, or a fresh 32-byte key written as
      hex (None where the platform cannot generate one). */
  function MasterKeySpec(p: Platform, stream: nat -> byte, env: Env): (Option<string>, Env) {
    match StoredMasterKey(env.entries)
    case Some(k) => (Some(k), env)
    case None =>
      if !p.supported then (None, env)
      else
        var k := Hex(Window(stream, env.cursor, MasterKeyLength));
        (Some(k), Env(Put(env.entries, MasterKeyName, k), env.cursor + MasterKeyLength))
  }

  /** A generated key is 64 lowercase hex characters and is what is stored
      afterwards; a present key is returned unchanged; asking again returns
      the same key and changes nothing. */
  lemma MasterKeyLifecycle(p: Platform, stream: nat -> byte, env: Env)
    ensures var (k, env') := MasterKeySpec(p, stream, env);
      && (StoredMasterKey(env.entries).Some? ==> k == StoredMasterKey(env.entries) && env' == env)
      && (StoredMasterKey(env.entries).None? && p.supported ==>
            && |k.value| == 64
            && (forall i :: 0 <= i < 64 ==> IsLowerHex(k.value[i]))
            && env'.cursor == env.cursor + 32)
      && (k.Some? ==> StoredMasterKey(env'.entries) == k && MasterKeySpec(p, stream, env') == (k, env'))
      && (k.None? <==> StoredMasterKey(env.entries).None? && !p.supported)
  {
    var (k, env') := MasterKeySpec(p, stream, env);
    if StoredMasterKey(env.entries).None? && p.supported {
      HexShape(Window(stream, env.cursor, MasterKeyLength));
      LookupPut(env.entries, MasterKeyName, k.value, MasterKeyName);
    }
  }

  method GetMasterPassword(local: LocalStorage, rng: Entropy, p: Platform) returns (key: Option<string>)
    modifies local, rng
    ensures (key, Env(local.entries, rng.cursor)) == MasterKeySpec(p, rng.stream, Env(old(local.entries), old(rng.cursor)))
  {
    var stored := local.GetItem(MasterKeyName);
    if stored.Some? && stored.value != "" {
      return stored;
    }
    if !p.supported {
      return None;
    }
    var bytes := rng.Draw(MasterKeyLength);
    var hex := Hex(bytes);
    local.SetItem(MasterKeyName, hex);
    key := Some(hex);
  }

  /** resetEncryption removes only the master key, so the next request
      for it generates a new one from fresh randomness. */
  method ResetEncryption(local: LocalStorage)
    modifies local
    ensures local.entries == Delete(old(local.entries), MasterKeyName)
  {
    local.RemoveItem(MasterKeyName);
  }

  lemma ResetForcesNewKey(p: Platform, stream: nat -> byte, e: Entries, cursor: nat, k: string)
    requires p.supported
    ensures var (key, env') := MasterKeySpec(p, stream, Env(Delete(e, MasterKeyName), cursor));
      && key == Some(Hex(Window(stream, cursor, MasterKeyLength)))
      && env'.cursor == cursor + MasterKeyLength
      && (k != MasterKeyName ==> Lookup(env'.entries, k) == Lookup(e, k))
  {
    var d := Delete(e, MasterKeyName);
    LookupDelete(e, MasterKeyName, MasterKeyName);
    var (key, env') := MasterKeySpec(p, stream, Env(d, cursor));
    LookupPut(d, MasterKeyName, key.value, k);
    LookupDelete(e, MasterKeyName, k);
  }

  // ---------------------------------------------------------------------------
  // encrypt / decrypt

  /** The record for `data` sealed under the password, salt and IV. */
  function SealRecord(p: Platform, pw: string, salt: seq<byte>, iv: seq<byte>, data: string): Result<EncryptedRecord, string> {
    match p.seal(pw, salt, iv, data)
    case Failure(t) => Failure(Reported(t, EncryptionFailed))
    case Success(ct) => Success(EncryptedRecord(p.btoa(Latin1(ct)), p.btoa(Latin1(iv)), p.btoa(Latin1(salt))))
  }

  /** encrypt: empty input is refused; otherwise the master key is fetched
      (perhaps generated), 16 salt bytes and then 12 IV bytes are drawn, and
      the sealed data becomes a record. */
  function EncryptSpec(p: Platform, stream: nat -> byte, env: Env, data: string): (Result<EncryptedRecord, string>, Env) {
    if data == "" then (Failure(NoData), env)
    else
      var (pw, env1) := MasterKeySpec(p, stream, env);
      if pw.None? || !p.supported then (Failure(Reported(p.unsupported, EncryptionFailed)), env1)
      else
        var salt := Window(stream, env1.cursor, SaltLength);
        var iv := Window(stream, env1.cursor + SaltLength, IvLength);
        (SealRecord(p, pw.value, salt, iv, data), Env(env1.entries, env1.cursor + SaltLength + IvLength))
  }

  method Encrypt(local: LocalStorage, rng: Entropy, p: Platform, data: string) returns (r: Result<EncryptedRecord, string>)
    modifies local, rng
    ensures (r, Env(local.entries, rng.cursor)) == EncryptSpec(p, rng.stream, Env(old(local.entries), old(rng.cursor)), data)
  {
    if data == "" {
      return Failure(NoData);
    }
    var pw := GetMasterPassword(local, rng, p);
    if pw.None? || !p.supported {
      return Failure(Reported(p.unsupported, EncryptionFailed));
    }
    var salt := rng.Draw(SaltLength);
    var iv := rng.Draw(IvLength);
    var sealed := p.seal(pw.value, salt, iv, data);
    if sealed.Failure? {
      return Failure(Reported(sealed.error, EncryptionFailed));
    }
    var d := ArrayBufferToBase64(p, sealed.value);
    var i := ArrayBufferToBase64(p, iv);
    var s := ArrayBufferToBase64(p, salt);
    r := Success(EncryptedRecord(d, i, s));
  }

  /** The text atob reads from a record field: a string as it is, any
      other value as String(x). */
  function FieldText(p: Platform, v: Json): string {
    if v.JStr? then v.s else p.coerce(v)
  }

  /** A record field decoded from base64 to bytes, or what atob throws. */
  function FieldBytes(p: Platform, v: Json): Result<seq<byte>, Thrown> {
    match p.atob(FieldText(p, v))
    case Failure(t) => Failure(t)
    case Success(b) => Success(CharCodes(b))
  }

  /** decrypt with a known password, after the shape check: the salt, the
      IV and the data are decoded in that order, the first failure ending
      it, then the record is opened. */
  function OpenRecord(p: Platform, pw: string, v: Json): Result<string, string> {
    match FieldBytes(p, Field(v, "salt"))
    case Failure(t) => Failure(Reported(t, DecryptionFailed))
    case Success(salt) =>
      match FieldBytes(p, Field(v, "iv"))
      case Failure(t) => Failure(Reported(t, DecryptionFailed))
      case Success(iv) =>
        match FieldBytes(p, Field(v, "data"))
        case Failure(t) => Failure(Reported(t, DecryptionFailed))
        case Success(data) =>
          if !p.supported then Failure(Reported(p.unsupported, DecryptionFailed))
          else match p.open(pw, salt, iv, data)
            case Success(m) => Success(m)
            case Failure(t) => Failure(Reported(t, DecryptionFailed))
  }

  /** decrypt: a malformed record is refused before the key is touched;
      otherwise the master key is fetched (perhaps generated) and the record
      opened. Every failure is a Failure value, never an exception. */
  function DecryptSpec(p: Platform, stream: nat -> byte, env: Env, v: Json): (Result<string, string>, Env) {
    if !IsEncryptedData(v) then (Failure(InvalidFormat), env)
    else
      var (pw, env1) := MasterKeySpec(p, stream, env);
      if pw.None? then (Failure(Reported(p.unsupported, DecryptionFailed)), env1)
      else (OpenRecord(p, pw.value, v), env1)
  }

  /** new Uint8Array(base64ToArrayBuffer(field)): atob coerces a
      non-string field to its text first. */
  method DecodeField(p: Platform, v: Json) returns (r: Result<seq<byte>, Thrown>)
    ensures r.Success? <==> p.atob(FieldText(p, v)).Success?
    ensures r.Failure? ==> r.error == p.atob(FieldText(p, v)).error
    ensures r.Success? ==> r.value == CharCodes(p.atob(FieldText(p, v)).value)
  {
    var text := if v.JStr? then v.s else p.coerce(v);
    var buffer := Base64ToArrayBuffer(p, text);
    if buffer.Failure? {
      return Failure(buffer.error);
    }
    r := Success(buffer.value[..]);
  }

  method Decrypt(local: LocalStorage, rng: Entropy, p: Platform, v: Json) returns (r: Result<string, string>)
    modifies local, rng
    ensures (r, Env(local.entries, rng.cursor)) == DecryptSpec(p, rng.stream, Env(old(local.entries), old(rng.cursor)), v)
  {
    if !IsEncryptedData(v) {
      return Failure(InvalidFormat);
    }
    var pw := GetMasterPassword(local, rng, p);
    if pw.None? {
      return Failure(Reported(p.unsupported, DecryptionFailed));
    }
    var salt := DecodeField(p, Field(v, "salt"));
    if salt.Failure? {
      return Failure(Reported(salt.error, DecryptionFailed));
    }
    var iv := DecodeField(p, Field(v, "iv"));
    if iv.Failure? {
      return Failure(Reported(iv.error, DecryptionFailed));
    }
    var data := DecodeField(p, Field(v, "data"));
    if data.Failure? {
      return Failure(Reported(data.error, DecryptionFailed));
    }
    if !p.supported {
      return Failure(Reported(p.unsupported, DecryptionFailed));
    }
    var plain := p.open(pw.value, salt.value, iv.value, data.value);
    if plain.Failure? {
      return Failure(Reported(plain.error, DecryptionFailed));
    }
    r := Success(plain.value);
  }

  /** encrypt refuses the empty string; a successful record has all three
      fields non-empty, so it passes isEncryptedData, and its salt and IV
      are the next 16 and 12 bytes of the random stream. */
  lemma EncryptResultShape(p: Platform, stream: nat -> byte, env: Env, data: string)
    requires LawfulPlatform(p)
    ensures data == "" ==> EncryptSpec(p, stream, env, data) == (Failure(NoData), env)
    ensures var (r, env') := EncryptSpec(p, stream, env, data);
      r.Success? ==>
        && IsEncryptedData(RecordJson(r.value))
        && env'.cursor == MasterKeySpec(p, stream, env).1.cursor + SaltLength + IvLength
        && r.value.salt == p.btoa(Latin1(Window(stream, env'.cursor - IvLength - SaltLength, SaltLength)))
        && r.value.iv == p.btoa(Latin1(Window(stream, env'.cursor - IvLength, IvLength)))
  {
    var (r, env') := EncryptSpec(p, stream, env, data);
    if r.Success? {
      var (pw, env1) := MasterKeySpec(p, stream, env);
      var salt := Window(stream, env1.cursor, SaltLength);
      var iv := Window(stream, env1.cursor + SaltLength, IvLength);
      var ct := p.seal(pw.value, salt, iv, data).value;
      BtoaNonEmpty(p, Latin1(ct));
      BtoaNonEmpty(p, Latin1(salt));
      BtoaNonEmpty(p, Latin1(iv));
      RecordShape(r.value);
    }
  }

  /** Decrypting what encrypt produced gives back the plaintext and
      changes nothing, in any later state that still holds the same master
      key. */
  lemma EncryptThenDecrypt(p: Platform, stream: nat -> byte, env: Env, data: string, later: Env)
    requires LawfulPlatform(p)
    requires EncryptSpec(p, stream, env, data).0.Success?
    requires StoredMasterKey(later.entries) == StoredMasterKey(EncryptSpec(p, stream, env, data).1.entries)
    ensures DecryptSpec(p, stream, later, RecordJson(EncryptSpec(p, stream, env, data).0.value)) == (Success(data), later)
  {
    var (r, env') := EncryptSpec(p, stream, env, data);
    EncryptResultShape(p, stream, env, data);
    MasterKeyLifecycle(p, stream, env);
    var (pw, env1) := MasterKeySpec(p, stream, env);
    assert StoredMasterKey(later.entries) == pw;
    var salt := Window(stream, env1.cursor, SaltLength);
    var iv := Window(stream, env1.cursor + SaltLength, IvLength);
    var ct := p.seal(pw.value, salt, iv, data).value;
    var v := RecordJson(r.value);
    assert p.atob(p.btoa(Latin1(salt))) == Success(Latin1(salt));
    assert p.atob(p.btoa(Latin1(iv))) == Success(Latin1(iv));
    assert p.atob(p.btoa(Latin1(ct))) == Success(Latin1(ct));
    CharCodesOfLatin1(salt);
    CharCodesOfLatin1(iv);
    CharCodesOfLatin1(ct);
    assert FieldBytes(p, Field(v, "salt")) == Success(salt);
    assert FieldBytes(p, Field(v, "iv")) == Success(iv);
    assert FieldBytes(p, Field(v, "data")) == Success(ct);
  }

  const Probe: string := "test encryption data"

  /** testCrypto: encrypt the probe, decrypt it, compare. */
  function TestCryptoSpec(p: Platform, stream: nat -> byte, env: Env): (bool, Env) {
    var (e, env1) := EncryptSpec(p, stream, env, Probe);
    if e.Failure? then (false, env1)
    else
      var (d, env2) := DecryptSpec(p, stream, env1, RecordJson(e.value));
      (d.Success? && d.value == Probe, env2)
  }

  method TestCrypto(local: LocalStorage, rng: Entropy, p: Platform) returns (ok: bool)
    modifies local, rng
    ensures (ok, Env(local.entries, rng.cursor)) == TestCryptoSpec(p, rng.stream, Env(old(local.entries), old(rng.cursor)))
  {
    var e := Encrypt(local, rng, p, Probe);
    if e.Failure? {
      return false;
    }
    var d := Decrypt(local, rng, p, RecordJson(e.value));
    ok := d.Success? && d.value == Probe;
  }

  /** On a lawful platform the self-test passes exactly when encryption of
      the probe succeeds. */
  lemma TestCryptoPassesIffEncrypts(p: Platform, stream: nat -> byte, env: Env)
    requires LawfulPlatform(p)
    ensures TestCryptoSpec(p, stream, env).0 <==> EncryptSpec(p, stream, env, Probe).0.Success?
  {
    if EncryptSpec(p, stream, env, Probe).0.Success? {
      EncryptThenDecrypt(p, stream, env, Probe, EncryptSpec(p, stream, env, Probe).1);
    }
  }
}
