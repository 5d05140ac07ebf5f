/** The encrypting key-value store of composables/useSecureStorage.ts, over
    localStorage, the cipher wrapper and a JSON codec. Every operation's
    outcome is a value: the source catches every exception and reports it
    as false or as the default, so none escapes. */
module SecureStorage {
  import opened Wrappers
  import opened Json
  import opened Storage
  import opened Crypto
  import Seqs
  import Text

  datatype Options = Options(encrypt: bool, fallbackToPlainText: bool)

  const DefaultOptions: Options := Options(true, true)

  /** Keys the backup leaves out: the cipher's own bookkeeping. */
  const CryptoPrefix: string := "__crypto_"

  /** The text stored for a value: a string as itself, anything else as JSON. */
  function StringValue(c: Codec, v: Json): string {
    if v.JStr? then v.s else c.stringify(v)
  }

  /** JSON.parse of the text, or the text itself where it does not parse. */
  function ParseOrText(c: Codec, s: string): Json {
    match c.parse(s)
    case Some(v) => v
    case None => JStr(s)
  }

  /** A stored text that parses to an encrypted record. */
  predicate HoldsRecord(c: Codec, stored: string) {
    c.parse(stored).Some? && IsEncryptedData(c.parse(stored).value)
  }

  // ---------------------------------------------------------------------------
  // setItem / getItem

  /** setItem: encrypt when asked to and the platform can; on an encryption
      failure fall back to plain text or report false. */
  function SetSpec(p: Platform, c: Codec, stream: nat -> byte, env: Env, key: string, v: Json, opts: Options): (bool, Env) {
    var s := StringValue(c, v);
    if opts.encrypt && p.supported then
      var (r, env1) := EncryptSpec(p, stream, env, s);
      if r.Success? then (true, Env(Put(env1.entries, key, c.stringify(RecordJson(r.value))), env1.cursor))
      else if opts.fallbackToPlainText then (true, Env(Put(env1.entries, key, s), env1.cursor))
      else (false, env1)
    else (true, Env(Put(env.entries, key, s), env.cursor))
  }

  /** getItem: the default for an absent or empty value; the raw text where
      it is not JSON; the parsed value where it is not a record; for a
      record, the decrypted payload (parsed where it parses), or the default
      when decryption fails or yields nothing. */
  function GetSpec(p: Platform, c: Codec, stream: nat -> byte, env: Env, key: string, default: Json): (Json, Env) {
    match Lookup(env.entries, key)
    case None => (default, env)
    case Some(stored) =>
      if stored == "" then (default, env)
      else match c.parse(stored)
        case None => (JStr(stored), env)
        case Some(parsed) =>
          if !IsEncryptedData(parsed) then (parsed, env)
          else
            var (d, env1) := DecryptSpec(p, stream, env, parsed);
            if d.Success? && d.value != "" then (ParseOrText(c, d.value), env1) else (default, env1)
  }

  method SetItem(local: LocalStorage, rng: Entropy, p: Platform, c: Codec, key: string, v: Json, opts: Options) returns (ok: bool)
    modifies local, rng
    ensures (ok, Env(local.entries, rng.cursor)) == SetSpec(p, c, rng.stream, Env(old(local.entries), old(rng.cursor)), key, v, opts)
  {
    var s := StringValue(c, v);
    if opts.encrypt && p.supported {
      var r := Encrypt(local, rng, p, s);
      if r.Success? {
        local.SetItem(key, c.stringify(RecordJson(r.value)));
        return true;
      } else if opts.fallbackToPlainText {
        local.SetItem(key, s);
        return true;
      } else {
        return false;
      }
    } else {
      local.SetItem(key, s);
      return true;
    }
  }

  method GetItem(local: LocalStorage, rng: Entropy, p: Platform, c: Codec, key: string, default: Json) returns (v: Json)
    modifies local, rng
    ensures (v, Env(local.entries, rng.cursor)) == GetSpec(p, c, rng.stream, Env(old(local.entries), old(rng.cursor)), key, default)
  {
    var stored := local.GetItem(key);
    if stored.None? || stored.value == "" {
      return default;
    }
    var parsed := c.parse(stored.value);
    if parsed.None? {
      return JStr(stored.value);
    }
    if !IsEncryptedData(parsed.value) {
      return parsed.value;
    }
    var d := Decrypt(local, rng, p, parsed.value);
    if d.Success? && d.value != "" {
      v := ParseOrText(c, d.value);
    } else {
      v := default;
    }
  }

  /** What setItem does to the store. With fallback it always reports
      success. A write is never lost silently: when it reports false, no key
      but the cipher's master key has changed. When it reports true, the key
      holds the value's text or an encrypted record, and no key other than
      it and the master key has changed. With encryption off or unsupported
      the text is written as is. */
  lemma SetEffect(p: Platform, c: Codec, stream: nat -> byte, env: Env, key: string, v: Json, opts: Options)
    requires LawfulPlatform(p) && LawfulCodec(c)
    ensures var (ok, env') := SetSpec(p, c, stream, env, key, v, opts);
      && (opts.fallbackToPlainText ==> ok)
      && (!opts.encrypt || !p.supported ==> ok && env' == Env(Put(env.entries, key, StringValue(c, v)), env.cursor))
      && (!ok ==> opts.encrypt && p.supported && !opts.fallbackToPlainText)
      && (!ok ==> forall k :: k != MasterKeyName ==> Lookup(env'.entries, k) == Lookup(env.entries, k))
      && (ok ==> Lookup(env'.entries, key).Some?)
      && (ok ==> Lookup(env'.entries, key).value == StringValue(c, v) || HoldsRecord(c, Lookup(env'.entries, key).value))
      && (ok ==> forall k :: k != key && k != MasterKeyName ==> Lookup(env'.entries, k) == Lookup(env.entries, k))
  {
    var s := StringValue(c, v);
    var (ok, env') := SetSpec(p, c, stream, env, key, v, opts);
    if opts.encrypt && p.supported {
      var (r, env1) := EncryptSpec(p, stream, env, s);
      var written := if r.Success? then c.stringify(RecordJson(r.value)) else s;
      MasterKeyLifecycle(p, stream, env);
      forall k | k != MasterKeyName
        ensures Lookup(env1.entries, k) == Lookup(env.entries, k)
      {
        var (pw, envK) := MasterKeySpec(p, stream, env);
        if envK != env {
          LookupPut(env.entries, MasterKeyName, pw.value, k);
        }
      }
      if ok {
        forall k ensures Lookup(env'.entries, k) == if k == key then Some(written) else Lookup(env1.entries, k) {
          LookupPut(env1.entries, key, written, k);
        }
        if r.Success? {
          assert c.parse(c.stringify(RecordJson(r.value))) == Some(RecordJson(r.value));
          EncryptResultShape(p, stream, env, s);
        }
      }
    } else {
      forall k ensures Lookup(env'.entries, k) == if k == key then Some(s) else Lookup(env.entries, k) {
        LookupPut(env.entries, key, s, k);
      }
    }
  }

  /** Apart from lazily creating the master key, getItem changes nothing;
      with the master key in place it changes nothing at all. */
  lemma GetEffect(p: Platform, c: Codec, stream: nat -> byte, env: Env, key: string, default: Json)
    ensures var (_, env') := GetSpec(p, c, stream, env, key, default);
      && (env' == env || (&& StoredMasterKey(env.entries).None?
                          && StoredMasterKey(env'.entries).Some?
                          && env'.entries == Put(env.entries, MasterKeyName, StoredMasterKey(env'.entries).value)))
      && (StoredMasterKey(env.entries).Some? ==> env' == env)
      && (forall k :: k != MasterKeyName ==> Lookup(env'.entries, k) == Lookup(env.entries, k))
  {
    var (_, env') := GetSpec(p, c, stream, env, key, default);
    MasterKeyLifecycle(p, stream, env);
    if env' != env {
      var (pw, envK) := MasterKeySpec(p, stream, env);
      assert env' == envK;
      forall k | k != MasterKeyName ensures Lookup(env'.entries, k) == Lookup(env.entries, k) {
        LookupPut(env.entries, MasterKeyName, pw.value, k);
      }
    }
  }

  /** Reading the same key twice gives the same answer, and the second
      read changes nothing: a master key the first read created is the one
      the second read decrypts with. */
  lemma GetRepeatable(p: Platform, c: Codec, stream: nat -> byte, env: Env, key: string, default: Json)
    requires key != MasterKeyName
    ensures var (v, env1) := GetSpec(p, c, stream, env, key, default);
      GetSpec(p, c, stream, env1, key, default) == (v, env1)
  {
    var (v, env1) := GetSpec(p, c, stream, env, key, default);
    if env1 != env {
      MasterKeyLifecycle(p, stream, env);
      var (pw, envK) := MasterKeySpec(p, stream, env);
      assert env1 == envK;
      LookupPut(env.entries, MasterKeyName, pw.value, key);
    }
  }

  /** What getItem yields for a value written by a successful setItem. */
  function Readback(c: Codec, v: Json, default: Json): Json {
    var s := StringValue(c, v);
    if s == "" then default else ParseOrText(c, s)
  }

  /** Reading back a non-string gives the value itself; a non-empty string
      that is not JSON gives the string. */
  lemma ReadbackValue(c: Codec, v: Json, default: Json)
    requires LawfulCodec(c)
    ensures !v.JStr? ==> Readback(c, v, default) == v
    ensures v.JStr? && v.s != "" && c.parse(v.s).None? ==> Readback(c, v, default) == v
    ensures v == JStr("") ==> Readback(c, v, default) == default
  {
    if !v.JStr? {
      StringifyNonEmpty(c, v);
    }
  }

  /** Round trip: after a successful setItem, getItem of the same key yields
      Readback of the value, whether it was stored encrypted or in plain
      text, and leaves the store as it is. The stored text must not itself
      be the JSON of an encrypted record, which getItem could not tell apart
      from one. */
  lemma SetThenGet(p: Platform, c: Codec, stream: nat -> byte, env: Env, key: string, v: Json, opts: Options, default: Json)
    requires LawfulPlatform(p) && LawfulCodec(c)
    requires key != MasterKeyName
    requires !HoldsRecord(c, StringValue(c, v))
    requires SetSpec(p, c, stream, env, key, v, opts).0
    ensures var env' := SetSpec(p, c, stream, env, key, v, opts).1;
      GetSpec(p, c, stream, env', key, default) == (Readback(c, v, default), env')
  {
    var s := StringValue(c, v);
    var env' := SetSpec(p, c, stream, env, key, v, opts).1;
    if opts.encrypt && p.supported {
      var (r, env1) := EncryptSpec(p, stream, env, s);
      if r.Success? {
        var text := c.stringify(RecordJson(r.value));
        LookupPut(env1.entries, key, text, key);
        LookupPut(env1.entries, key, text, MasterKeyName);
        assert c.parse(text) == Some(RecordJson(r.value));
        EncryptResultShape(p, stream, env, s);
        assert StoredMasterKey(env'.entries) == StoredMasterKey(env1.entries);
        EncryptThenDecrypt(p, stream, env, s, env');
        StringifyNonEmpty(c, RecordJson(r.value));
      } else {
        LookupPut(env1.entries, key, s, key);
      }
    } else {
      LookupPut(env.entries, key, s, key);
    }
  }

  // ---------------------------------------------------------------------------
  // removeItem / hasItem

  method RemoveItem(local: LocalStorage, key: string) returns (ok: bool)
    modifies local
    ensures ok && local.entries == Delete(old(local.entries), key)
  {
    local.RemoveItem(key);
    ok := true;
  }

  /** hasItem: whether any value, even an empty one, is stored under key. */
  method HasItem(local: LocalStorage, key: string) returns (present: bool)
    ensures present <==> key in Keys(local.entries)
  {
    present := local.GetItem(key) != None;
    LookupIn(local.entries, key);
  }

  // ---------------------------------------------------------------------------
  // migrateToEncrypted

  function MigrateSpec(p: Platform, c: Codec, stream: nat -> byte, env: Env, key: string): (bool, Env) {
    match Lookup(env.entries, key)
    case None => (true, env)
    case Some(existing) =>
      if existing == "" || HoldsRecord(c, existing) then (true, env)
      else SetSpec(p, c, stream, env, key, JStr(existing), Options(true, false))
  }

  method MigrateToEncrypted(local: LocalStorage, rng: Entropy, p: Platform, c: Codec, key: string) returns (ok: bool)
    modifies local, rng
    ensures (ok, Env(local.entries, rng.cursor)) == MigrateSpec(p, c, rng.stream, Env(old(local.entries), old(rng.cursor)), key)
  {
    var existing := local.GetItem(key);
    if existing.None? || existing.value == "" {
      return true;
    }
    var parsed := c.parse(existing.value);
    if parsed.Some? && IsEncryptedData(parsed.value) {
      return true;
    }
    ok := SetItem(local, rng, p, c, key, JStr(existing.value), Options(true, false));
  }

  /** Migration is invisible to getItem: after a successful migration the
      key reads back as before. Where there is nothing to migrate, or the
      platform cannot encrypt, the store is left exactly as it was and the
      result is true. */
  lemma MigratePreservesReads(p: Platform, c: Codec, stream: nat -> byte, env: Env, key: string, default: Json)
    requires LawfulPlatform(p) && LawfulCodec(c)
    requires key != MasterKeyName
    ensures var (ok, env') := MigrateSpec(p, c, stream, env, key);
      && (ok ==> GetSpec(p, c, stream, env', key, default).0 == GetSpec(p, c, stream, env, key, default).0)
      && (!p.supported ==> ok && env' == env)
      && (Lookup(env.entries, key).None? ==> ok && env' == env)
  {
    var (ok, env') := MigrateSpec(p, c, stream, env, key);
    match Lookup(env.entries, key)
    case None =>
    case Some(existing) =>
      if existing != "" && !HoldsRecord(c, existing) {
        if !p.supported {
          PutSame(env.entries, key, existing);
        }
        if ok {
          SetThenGet(p, c, stream, env, key, JStr(existing), Options(true, false), default);
        }
      }
  }

  // ---------------------------------------------------------------------------
  // getEncryptedKeys / clearEncryptedData

  /** A key getEncryptedKeys reports: non-empty, with a non-empty value that
      parses to an encrypted record. */
  predicate IsRecordKey(c: Codec, e: Entries, k: string) {
    k != "" && Lookup(e, k).Some? && Lookup(e, k).value != "" && HoldsRecord(c, Lookup(e, k).value)
  }

  /** The keys among the first n in storage order that hold records. */
  function EncryptedKeysUpTo(c: Codec, e: Entries, n: nat): seq<string>
    requires n <= |e|
  {
    if n == 0 then []
    else EncryptedKeysUpTo(c, e, n - 1) + (if IsRecordKey(c, e, e[n - 1].0) then [e[n - 1].0] else [])
  }

  function EncryptedKeys(c: Codec, e: Entries): seq<string> {
    EncryptedKeysUpTo(c, e, |e|)
  }

  method GetEncryptedKeys(local: LocalStorage, c: Codec) returns (keys: seq<string>)
    ensures keys == EncryptedKeys(c, local.entries)
  {
    keys := [];
    var i := 0;
    while i < |local.entries|
      invariant 0 <= i <= |local.entries|
      invariant keys == EncryptedKeysUpTo(c, local.entries, i)
    {
      var key := local.entries[i].0;
      if key != "" {
        var value := local.GetItem(key);
        if value.Some? && value.value != "" {
          var parsed := c.parse(value.value);
          if parsed.Some? && IsEncryptedData(parsed.value) {
            keys := keys + [key];
          }
        }
      }
      i := i + 1;
    }
  }

  lemma {:induction false} EncryptedKeysUpToExact(c: Codec, e: Entries, n: nat, k: string)
    requires n <= |e|
    ensures k in EncryptedKeysUpTo(c, e, n) <==> IsRecordKey(c, e, k) && k in Keys(e)[..n]
  {
    if n > 0 {
      EncryptedKeysUpToExact(c, e, n - 1, k);
      Seqs.TakeSnoc(Keys(e), n);
    }
  }

  /** getEncryptedKeys lists exactly the keys holding encrypted records. */
  lemma EncryptedKeysExact(c: Codec, e: Entries, k: string)
    ensures k in EncryptedKeys(c, e) <==> IsRecordKey(c, e, k)
  {
    EncryptedKeysUpToExact(c, e, |e|, k);
    LookupIn(e, k);
    Seqs.TakeAll(Keys(e));
  }

  /** removeItem of each key in turn. */
  function RemoveAll(e: Entries, keys: seq<string>): Entries {
    if keys == [] then e else Delete(RemoveAll(e, keys[..|keys| - 1]), keys[|keys| - 1])
  }

  lemma {:induction false} LookupRemoveAll(e: Entries, keys: seq<string>, k: string)
    ensures Lookup(RemoveAll(e, keys), k) == if k in keys then None else Lookup(e, k)
  {
    if keys != [] {
      var init := keys[..|keys| - 1];
      LookupRemoveAll(e, init, k);
      LookupDelete(RemoveAll(e, init), keys[|keys| - 1], k);
      assert keys == init + [keys[|keys| - 1]];
    }
  }

  method ClearEncryptedData(local: LocalStorage, c: Codec)
    modifies local
    ensures local.entries == RemoveAll(old(local.entries), EncryptedKeys(c, old(local.entries)))
  {
    var keys := GetEncryptedKeys(local, c);
    for i := 0 to |keys|
      invariant local.entries == RemoveAll(old(local.entries), keys[..i])
    {
      assert keys[..i + 1][..i] == keys[..i];
      local.RemoveItem(keys[i]);
    }
    assert keys[..|keys|] == keys;
  }

  /** clearEncryptedData removes exactly the keys holding encrypted
      records; every other key keeps its value. */
  lemma ClearExact(c: Codec, e: Entries, k: string)
    ensures Lookup(RemoveAll(e, EncryptedKeys(c, e)), k) == if IsRecordKey(c, e, k) then None else Lookup(e, k)
  {
    LookupRemoveAll(e, EncryptedKeys(c, e), k);
    EncryptedKeysExact(c, e, k);
  }

  // ---------------------------------------------------------------------------
  // backup / restore

  predicate BackedUp(k: string) {
    k != "" && !Text.StartsWith(k, CryptoPrefix)
  }

  /** The number of loop rounds backup may still run: one per remaining
      index, plus one for a master key getItem may still append. */
  function BackupBudget(env: Env, i: nat): int {
    |env.entries| - i + (if StoredMasterKey(env.entries).None? then 1 else 0)
  }

  lemma BudgetShrinks(p: Platform, c: Codec, stream: nat -> byte, env: Env, i: nat, key: string)
    requires i < |env.entries|
    ensures BackupBudget(GetSpec(p, c, stream, env, key, JNull).1, i + 1) < BackupBudget(env, i)
  {
    var env' := GetSpec(p, c, stream, env, key, JNull).1;
    GetEffect(p, c, stream, env, key, JNull);
    if env' != env {
      var k := StoredMasterKey(env'.entries).value;
      PutShape(env.entries, MasterKeyName, k);
    }
  }

  /** backup from index i on, with the pairs gathered so far. */
  function BackupFrom(p: Platform, c: Codec, stream: nat -> byte, env: Env, i: nat, acc: seq<(string, Json)>): (seq<(string, Json)>, Env)
    decreases BackupBudget(env, i)
  {
    if i >= |env.entries| then (acc, env)
    else
      var key := env.entries[i].0;
      if BackedUp(key) then
        var (v, env1) := GetSpec(p, c, stream, env, key, JNull);
        BudgetShrinks(p, c, stream, env, i, key);
        BackupFrom(p, c, stream, env1, i + 1, acc + [(key, v)])
      else BackupFrom(p, c, stream, env, i + 1, acc)
  }

  method Backup(local: LocalStorage, rng: Entropy, p: Platform, c: Codec) returns (data: seq<(string, Json)>)
    modifies local, rng
    ensures (data, Env(local.entries, rng.cursor)) == BackupFrom(p, c, rng.stream, Env(old(local.entries), old(rng.cursor)), 0, [])
  {
    data := [];
    var i := 0;
    while i < |local.entries|
      invariant BackupFrom(p, c, rng.stream, Env(local.entries, rng.cursor), i, data) == BackupFrom(p, c, rng.stream, Env(old(local.entries), old(rng.cursor)), 0, [])
      decreases BackupBudget(Env(local.entries, rng.cursor), i)
    {
      var key := local.entries[i].0;
      if BackedUp(key) {
        ghost var env := Env(local.entries, rng.cursor);
        BudgetShrinks(p, c, rng.stream, env, i, key);
        var value := GetItem(local, rng, p, c, key, JNull);
        data := data + [(key, value)];
      }
      i := i + 1;
    }
  }

  /** The keys backup exports from index i on, in storage order. */
  function BackupKeys(e: Entries, i: nat): seq<string>
    decreases |e| - i
  {
    if i >= |e| then [] else (if BackedUp(e[i].0) then [e[i].0] else []) + BackupKeys(e, i + 1)
  }

  /** With the master key in place, backup changes nothing and exports, in
      storage order, each key not starting with "__crypto_" together with
      what getItem yields for it. */
  lemma {:induction false} BackupExact(p: Platform, c: Codec, stream: nat -> byte, env: Env, i: nat, acc: seq<(string, Json)>)
    requires StoredMasterKey(env.entries).Some?
    ensures var (data, env') := BackupFrom(p, c, stream, env, i, acc);
      && env' == env
      && |data| == |acc| + |BackupKeys(env.entries, i)|
      && data[..|acc|] == acc
      && (forall j :: 0 <= j < |BackupKeys(env.entries, i)| ==>
            data[|acc| + j] == (BackupKeys(env.entries, i)[j], GetSpec(p, c, stream, env, BackupKeys(env.entries, i)[j], JNull).0))
    decreases |env.entries| - i
  {
    if i < |env.entries| {
      var key := env.entries[i].0;
      if BackedUp(key) {
        GetEffect(p, c, stream, env, key, JNull);
        var pair := (key, GetSpec(p, c, stream, env, key, JNull).0);
        BackupExact(p, c, stream, env, i + 1, acc + [pair]);
        var (data, _) := BackupFrom(p, c, stream, env, i + 1, acc + [pair]);
        var rest := BackupKeys(env.entries, i + 1);
        assert BackupKeys(env.entries, i) == [key] + rest;
        forall j | 0 <= j < |[key] + rest|
          ensures data[|acc| + j] == (([key] + rest)[j], GetSpec(p, c, stream, env, ([key] + rest)[j], JNull).0)
        {
          if j == 0 {
            assert data[..|acc| + 1][|acc|] == pair;
          } else {
            assert data[|acc| + 1 + (j - 1)] == (rest[j - 1], GetSpec(p, c, stream, env, rest[j - 1], JNull).0);
          }
        }
        assert data[..|acc|] == data[..|acc| + 1][..|acc|];
      } else {
        BackupExact(p, c, stream, env, i + 1, acc);
      }
    }
  }

  predicate AllBackedUp(data: seq<(string, Json)>) {
    forall j :: 0 <= j < |data| ==> BackedUp(data[j].0)
  }

  /** Nothing backup exports is a key starting with "__crypto_", whatever
      the state of the master key. */
  lemma {:induction false} BackupSkipsCryptoKeys(p: Platform, c: Codec, stream: nat -> byte, env: Env, i: nat, acc: seq<(string, Json)>)
    requires AllBackedUp(acc)
    ensures AllBackedUp(BackupFrom(p, c, stream, env, i, acc).0)
    decreases BackupBudget(env, i)
  {
    if i < |env.entries| {
      var key := env.entries[i].0;
      if BackedUp(key) {
        var (v, env1) := GetSpec(p, c, stream, env, key, JNull);
        BudgetShrinks(p, c, stream, env, i, key);
        assert BackupFrom(p, c, stream, env, i, acc) == BackupFrom(p, c, stream, env1, i + 1, acc + [(key, v)]);
        BackupSkipsCryptoKeys(p, c, stream, env1, i + 1, acc + [(key, v)]);
      } else {
        assert BackupFrom(p, c, stream, env, i, acc) == BackupFrom(p, c, stream, env, i + 1, acc);
        BackupSkipsCryptoKeys(p, c, stream, env, i + 1, acc);
      }
    } else {
      assert BackupFrom(p, c, stream, env, i, acc) == (acc, env);
    }
  }

  /** restore: setItem each pair in order, stopping at the first failure;
      pairs already written stay written. */
  function RestoreSpec(p: Platform, c: Codec, stream: nat -> byte, env: Env, data: seq<(string, Json)>, opts: Options): (bool, Env)
    decreases |data|
  {
    if data == [] then (true, env)
    else
      var (ok, env1) := SetSpec(p, c, stream, env, data[0].0, data[0].1, opts);
      if !ok then (false, env1) else RestoreSpec(p, c, stream, env1, data[1..], opts)
  }

  method Restore(local: LocalStorage, rng: Entropy, p: Platform, c: Codec, data: seq<(string, Json)>, opts: Options) returns (ok: bool)
    modifies local, rng
    ensures (ok, Env(local.entries, rng.cursor)) == RestoreSpec(p, c, rng.stream, Env(old(local.entries), old(rng.cursor)), data, opts)
  {
    var i := 0;
    while i < |data|
      invariant 0 <= i <= |data|
      invariant RestoreSpec(p, c, rng.stream, Env(local.entries, rng.cursor), data[i..], opts) == RestoreSpec(p, c, rng.stream, Env(old(local.entries), old(rng.cursor)), data, opts)
    {
      assert data[i..][1..] == data[i + 1..];
      var success := SetItem(local, rng, p, c, data[i].0, data[i].1, opts);
      if !success {
        return false;
      }
      i := i + 1;
    }
    return true;
  }

  /** Each pair written as plain text, in order. */
  function PutAllPlain(c: Codec, e: Entries, data: seq<(string, Json)>): Entries
    decreases |data|
  {
    if data == [] then e else PutAllPlain(c, Put(e, data[0].0, StringValue(c, data[0].1)), data[1..])
  }

  /** restore fails only when encryption was asked for, is possible, fails,
      and plain text was refused; with encryption off every pair is written
      as plain text in order. */
  lemma {:induction false} RestoreOutcome(p: Platform, c: Codec, stream: nat -> byte, env: Env, data: seq<(string, Json)>, opts: Options)
    requires LawfulPlatform(p) && LawfulCodec(c)
    ensures var (ok, env') := RestoreSpec(p, c, stream, env, data, opts);
      && (!ok ==> opts.encrypt && p.supported && !opts.fallbackToPlainText)
      && (!opts.encrypt ==> ok && env' == Env(PutAllPlain(c, env.entries, data), env.cursor))
    decreases |data|
  {
    if data != [] {
      SetEffect(p, c, stream, env, data[0].0, data[0].1, opts);
      var (ok, env1) := SetSpec(p, c, stream, env, data[0].0, data[0].1, opts);
      if ok {
        RestoreOutcome(p, c, stream, env1, data[1..], opts);
      }
    }
  }
}
