/** convex/keys.ts: the per-user record of encrypted provider keys. */
module Keys {
  import opened Common
  import opened Schema
  import opened JsString
  import opened Store
  import opened Helpers

  /**
   * `decryptApiKey` as the read handlers see it: the stored text to the key, or
   * the exception it throws. Helpers.DecryptApiKey under the deployment's secret
   * is the one they call.
   */
  type Decryptor = string -> Result<string, Error>

  /** `if (apiKeys.p)`: the same truthiness test as `apiKeys.p || null`. */
  predicate Stored(fields: KeyFields, p: Provider) {
    KeyOrNull(fields, p).Some?
  }

  /** The field is stored and decrypts; a failure is logged and skipped. */
  predicate Readable(fields: KeyFields, decrypt: Decryptor, p: Provider) {
    Stored(fields, p) && decrypt(fields[p]).Ok?
  }

  /** The decrypted key of a readable field. */
  function Plain(fields: KeyFields, decrypt: Decryptor, p: Provider): string
    requires Readable(fields, decrypt, p)
  {
    decrypt(fields[p]).value
  }

  // ---------------------------------------------------------------------------
  // getApiKeys
  // ---------------------------------------------------------------------------

  /** One `if (apiKeys.p) { try { … } catch { … } }` block: the field is copied over decrypted when it can be. */
  function DecryptStep(decrypted: KeyFields, fields: KeyFields, decrypt: Decryptor, p: Provider): (r: KeyFields)
    ensures Readable(fields, decrypt, p) ==> r == decrypted[p := Plain(fields, decrypt, p)]
    ensures !Readable(fields, decrypt, p) ==> r == decrypted
  {
    if Stored(fields, p) then
      match decrypt(fields[p])
      case Ok(key) => decrypted[p := key]
      case Err(_) => decrypted
    else decrypted
  }

  /**
   * The object built after visiting the providers of visited in turn: it has
   * field p exactly when p was visited and its stored field decrypts, and then
   * holds the decrypted key.
   */
  function DecryptedKeys(fields: KeyFields, decrypt: Decryptor, visited: seq<Provider>): (r: KeyFields)
    ensures forall p :: p in r <==> p in visited && Readable(fields, decrypt, p)
    ensures forall p | p in r :: r[p] == Plain(fields, decrypt, p)
    decreases |visited|
  {
    if visited == [] then map[]
    else
      var last := visited[|visited| - 1];
      var before := visited[..|visited| - 1];
      assert forall p :: p in visited <==> p in before || p == last by {
        assert visited == before + [last];
      }
      DecryptStep(DecryptedKeys(fields, decrypt, before), fields, decrypt, last)
  }

  /** Whether field p is read depends on stored field p alone: corrupting another field changes nothing about it. */
  lemma FailureIsolation(fields: KeyFields, other: KeyFields, decrypt: Decryptor, visited: seq<Provider>, p: Provider)
    requires (p in fields <==> p in other) && (p in fields ==> fields[p] == other[p])
    ensures p in DecryptedKeys(fields, decrypt, visited) <==> p in DecryptedKeys(other, decrypt, visited)
    ensures p in DecryptedKeys(fields, decrypt, visited) ==>
      DecryptedKeys(fields, decrypt, visited)[p] == DecryptedKeys(other, decrypt, visited)[p]
  {
  }

  /** Every provider is in ProviderOrder, whose ranks increase. */
  lemma ProviderOrderComplete()
    ensures forall p: Provider :: p in ProviderOrder
    ensures Increasing(ProviderOrder)
  {
    forall p: Provider ensures p in ProviderOrder {
      assert ProviderOrder[p.Rank()] == p;
    }
  }

  /**
   * `getApiKeys(userId)`: null without a record; otherwise the five fields are
   * visited in turn and each one that decrypts is copied over, so the result has
   * exactly the readable fields.
   */
  method GetApiKeys(db: Db, userId: UserId, decrypt: Decryptor) returns (r: Option<KeyFields>)
    ensures r.None? <==> userId !in db.apiKeys
    ensures r.Some? ==> r.value == DecryptedKeys(db.apiKeys[userId], decrypt, ProviderOrder)
    ensures r.Some? ==> forall p :: p in r.value <==> Readable(db.apiKeys[userId], decrypt, p)
  {
    if userId !in db.apiKeys {
      return None;
    }
    var fields := db.apiKeys[userId];
    var decrypted: KeyFields := map[];
    decrypted := DecryptStep(decrypted, fields, decrypt, OpenAI);
    assert decrypted == DecryptedKeys(fields, decrypt, [OpenAI]) by {
      assert [OpenAI][..0] == [];
    }
    decrypted := DecryptStep(decrypted, fields, decrypt, Groq);
    assert decrypted == DecryptedKeys(fields, decrypt, [OpenAI, Groq]) by {
      assert [OpenAI, Groq][..1] == [OpenAI];
    }
    decrypted := DecryptStep(decrypted, fields, decrypt, Anthropic);
    assert decrypted == DecryptedKeys(fields, decrypt, [OpenAI, Groq, Anthropic]) by {
      assert [OpenAI, Groq, Anthropic][..2] == [OpenAI, Groq];
    }
    decrypted := DecryptStep(decrypted, fields, decrypt, Google);
    assert decrypted == DecryptedKeys(fields, decrypt, [OpenAI, Groq, Anthropic, Google]) by {
      assert [OpenAI, Groq, Anthropic, Google][..3] == [OpenAI, Groq, Anthropic];
    }
    decrypted := DecryptStep(decrypted, fields, decrypt, OpenRouter);
    assert decrypted == DecryptedKeys(fields, decrypt, ProviderOrder) by {
      assert ProviderOrder[..4] == [OpenAI, Groq, Anthropic, Google];
    }
    ProviderOrderComplete();
    return Some(decrypted);
  }

  // ---------------------------------------------------------------------------
  // getApiKeysPreview
  // ---------------------------------------------------------------------------

  /** `decryptedKey.slice(0, 4) + "..." + decryptedKey.slice(-4)`. */
  function Mask(key: string): (r: string)
    ensures |key| >= 4 ==> r == key[..4] + "..." + key[|key| - 4..]
    ensures |key| < 4 ==> r == key + "..." + key
    ensures |key| >= 8 ==> |r| == 11
  {
    Slice(key, 0, 4) + "..." + SliceFrom(key, -4)
  }

  /**
   * A key of at least eight characters shows its first four and last four
   * characters around "...", and the characters in between do not appear.
   */
  lemma MaskHidesMiddle(key: string)
    requires |key| >= 8
    ensures Mask(key)[..4] == key[..4]
    ensures Mask(key)[4..7] == "..."
    ensures Mask(key)[7..] == key[|key| - 4..]
    ensures forall k | 0 <= k < |Mask(key)| ::
      Mask(key)[k] == '.' || (k < 4 && Mask(key)[k] == key[k]) || (7 <= k && Mask(key)[k] == key[|key| - 11 + k])
  {
    var m := Mask(key);
    assert m == key[..4] + "..." + key[|key| - 4..];
    forall k | 0 <= k < |m|
      ensures m[k] == '.' || (k < 4 && m[k] == key[k]) || (7 <= k && m[k] == key[|key| - 11 + k])
    {
      if k < 4 {
        assert m[k] == key[..4][k];
      } else if 7 <= k {
        assert m[k] == key[|key| - 4..][k - 7];
      }
    }
  }

  /** One entry of the preview list: `{ provider, key }`. */
  datatype Preview = Preview(provider: string, key: string)

  /** Pushes the preview of provider p when its field is stored and decrypts. */
  function PreviewStep(result: seq<Preview>, fields: KeyFields, decrypt: Decryptor, p: Provider): (r: seq<Preview>)
    ensures Readable(fields, decrypt, p) ==> r == result + [Preview(p.Name(), Mask(Plain(fields, decrypt, p)))]
    ensures !Readable(fields, decrypt, p) ==> r == result
  {
    if Stored(fields, p) then
      match decrypt(fields[p])
      case Ok(key) => result + [Preview(p.Name(), Mask(key))]
      case Err(_) => result
    else result
  }

  /** The list `getApiKeysPreview` has built after visiting the providers of visited in turn. */
  function Previews(fields: KeyFields, decrypt: Decryptor, visited: seq<Provider>): seq<Preview>
    decreases |visited|
  {
    if visited == [] then []
    else PreviewStep(Previews(fields, decrypt, visited[..|visited| - 1]), fields, decrypt, visited[|visited| - 1])
  }

  /** The providers of visited whose fields are readable, in the order visited. */
  function Shown(fields: KeyFields, decrypt: Decryptor, visited: seq<Provider>): (r: seq<Provider>)
    ensures |r| <= |visited|
    ensures forall p :: p in r <==> p in visited && Readable(fields, decrypt, p)
    decreases |visited|
  {
    if visited == [] then []
    else
      var last := visited[|visited| - 1];
      var before := visited[..|visited| - 1];
      assert forall p :: p in visited <==> p in before || p == last by {
        assert visited == before + [last];
      }
      Shown(fields, decrypt, before) + if Readable(fields, decrypt, last) then [last] else []
  }

  /** The i-th preview is that of the i-th shown provider: under its own name, with its key masked. */
  lemma {:induction false} PreviewsFollowShown(fields: KeyFields, decrypt: Decryptor, visited: seq<Provider>)
    ensures var r, s := Previews(fields, decrypt, visited), Shown(fields, decrypt, visited);
      |r| == |s| && forall i | 0 <= i < |r| ::
        Readable(fields, decrypt, s[i]) && r[i] == Preview(s[i].Name(), Mask(Plain(fields, decrypt, s[i])))
    decreases |visited|
  {
    if visited != [] {
      var before := visited[..|visited| - 1];
      PreviewsFollowShown(fields, decrypt, before);
      var p := visited[|visited| - 1];
      var r, s := Previews(fields, decrypt, visited), Shown(fields, decrypt, visited);
      var r', s' := Previews(fields, decrypt, before), Shown(fields, decrypt, before);
      if Readable(fields, decrypt, p) {
        assert r == r' + [Preview(p.Name(), Mask(Plain(fields, decrypt, p)))];
        assert s == s' + [p];
        forall i | 0 <= i < |r'|
          ensures Readable(fields, decrypt, s[i]) && r[i] == Preview(s[i].Name(), Mask(Plain(fields, decrypt, s[i])))
        {
          assert r[i] == r'[i] && s[i] == s'[i];
        }
      } else {
        assert r == r' && s == s';
      }
    }
  }

  /** The ranks strictly increase along s. */
  predicate Increasing(s: seq<Provider>) {
    forall i, j | 0 <= i < j < |s| :: s[i].Rank() < s[j].Rank()
  }

  /** Filtering keeps an order along which the ranks strictly increase. */
  lemma {:induction false} ShownKeepsOrder(fields: KeyFields, decrypt: Decryptor, visited: seq<Provider>)
    requires Increasing(visited)
    ensures Increasing(Shown(fields, decrypt, visited))
    decreases |visited|
  {
    if visited != [] {
      var before := visited[..|visited| - 1];
      var last := visited[|visited| - 1];
      assert Increasing(before) by {
        forall i, j | 0 <= i < j < |before| ensures before[i].Rank() < before[j].Rank() {
          assert before[i] == visited[i] && before[j] == visited[j];
        }
      }
      ShownKeepsOrder(fields, decrypt, before);
      var head := Shown(fields, decrypt, before);
      var r := Shown(fields, decrypt, visited);
      if Readable(fields, decrypt, last) {
        assert r == head + [last];
        forall i, j | 0 <= i < j < |r| ensures r[i].Rank() < r[j].Rank() {
          var q := head[i];
          assert r[i] == q;
          assert q in before;
          var k :| 0 <= k < |before| && before[k] == q;
          assert before[k] == visited[k];
          assert q.Rank() < last.Rank();
          if j < |head| {
            assert r[j] == head[j];
          }
        }
      } else {
        assert r == head;
      }
    }
  }

  /**
   * The preview of a record lists exactly its readable providers, each under its
   * own name with its key masked, in the order openai, groq, anthropic, google,
   * openrouter, and so none twice.
   */
  lemma PreviewsOrderAndContent(fields: KeyFields, decrypt: Decryptor)
    ensures forall p :: p in Shown(fields, decrypt, ProviderOrder) <==> Readable(fields, decrypt, p)
    ensures Increasing(Shown(fields, decrypt, ProviderOrder))
    ensures var r, s := Previews(fields, decrypt, ProviderOrder), Shown(fields, decrypt, ProviderOrder);
      |r| == |s| && forall i | 0 <= i < |r| :: r[i] == Preview(s[i].Name(), Mask(Plain(fields, decrypt, s[i])))
  {
    PreviewsFollowShown(fields, decrypt, ProviderOrder);
    ProviderOrderComplete();
    ShownKeepsOrder(fields, decrypt, ProviderOrder);
  }

  /**
   * `getApiKeysPreview(sessionToken)`: "Unauthorized" without a session, the
   * null-user error without a user row, null without a record, and otherwise the
   * masked previews pushed in provider order.
   */
  method GetApiKeysPreview(db: Db, token: string, decrypt: Decryptor)
    returns (r: Result<Option<seq<Preview>>, Error>)
    ensures token !in db.sessions ==> r == Err(Unauthorized)
    ensures token in db.sessions && db.sessions[token] !in db.users ==> r == Err(NullUser)
    ensures r.Ok? <==> token in db.sessions && db.sessions[token] in db.users
    ensures r.Ok? ==> (r.value.None? <==> db.sessions[token] !in db.apiKeys)
    ensures r.Ok? && r.value.Some? ==> r.value.value == Previews(db.apiKeys[db.sessions[token]], decrypt, ProviderOrder)
  {
    var auth := VerifyAuth(db, token);
    if auth.Err? {
      return Err(auth.error);
    }
    var uid := AuthUserId(auth.value);
    if uid.Err? {
      return Err(uid.error);
    }
    if uid.value !in db.apiKeys {
      return Ok(None);
    }
    var fields := db.apiKeys[uid.value];
    var result: seq<Preview> := [];
    result := PreviewStep(result, fields, decrypt, OpenAI);
    result := PreviewStep(result, fields, decrypt, Groq);
    result := PreviewStep(result, fields, decrypt, Anthropic);
    result := PreviewStep(result, fields, decrypt, Google);
    result := PreviewStep(result, fields, decrypt, OpenRouter);
    assert result == Previews(fields, decrypt, ProviderOrder) by {
      assert [OpenAI][..0] == [];
      assert [OpenAI, Groq][..1] == [OpenAI];
      assert [OpenAI, Groq, Anthropic][..2] == [OpenAI, Groq];
      assert [OpenAI, Groq, Anthropic, Google][..3] == [OpenAI, Groq, Anthropic];
      assert ProviderOrder[..4] == [OpenAI, Groq, Anthropic, Google];
    }
    return Ok(Some(result));
  }

  // ---------------------------------------------------------------------------
  // saveApiKey / removeApiKey
  // ---------------------------------------------------------------------------

  /** The `apiKeys` table after saving enc as field p of uid's record: a patch, or an insert of a new record. */
  function Saved(rows: map<UserId, KeyFields>, uid: UserId, p: Provider, enc: string): (r: map<UserId, KeyFields>)
    ensures r.Keys == rows.Keys + {uid}
  {
    if uid in rows then rows[uid := rows[uid][p := enc]] else rows[uid := map[p := enc]]
  }

  /**
   * Saving changes field p of the caller's record and nothing else; without a
   * record the new one holds field p only.
   */
  lemma SavedChangesOneField(rows: map<UserId, KeyFields>, uid: UserId, p: Provider, enc: string)
    ensures var r := Saved(rows, uid, p, enc);
      && (forall u | u in rows && u != uid :: r[u] == rows[u])
      && p in r[uid] && r[uid][p] == enc
      && (forall q | q != p :: (q in r[uid] <==> uid in rows && q in rows[uid]))
      && (forall q | q != p && q in r[uid] :: r[uid][q] == rows[uid][q])
  {
  }

  /** The `apiKeys` table after `patch(id, { [p]: undefined })` on uid's record, if there is one. */
  function Removed(rows: map<UserId, KeyFields>, uid: UserId, p: Provider): (r: map<UserId, KeyFields>)
    ensures r.Keys == rows.Keys
  {
    if uid in rows then rows[uid := rows[uid] - {p}] else rows
  }

  /** Removing clears field p of the caller's record and nothing else. */
  lemma RemovedClearsOneField(rows: map<UserId, KeyFields>, uid: UserId, p: Provider)
    ensures var r := Removed(rows, uid, p);
      && (forall u | u in rows && u != uid :: r[u] == rows[u])
      && (uid in rows ==> p !in r[uid] && forall q | q != p :: (q in r[uid] <==> q in rows[uid]))
      && (uid in rows ==> forall q | q != p && q in r[uid] :: r[uid][q] == rows[uid][q])
      && (uid !in rows ==> r == rows)
  {
  }

  /**
   * Saving then removing the same field restores the record's other fields,
   * but leaves a record behind where there was none.
   */
  lemma RemoveUndoesSave(rows: map<UserId, KeyFields>, uid: UserId, p: Provider, enc: string)
    ensures uid in rows ==> Removed(Saved(rows, uid, p, enc), uid, p) == Removed(rows, uid, p)
    ensures uid !in rows ==> Removed(Saved(rows, uid, p, enc), uid, p) == rows[uid := map[]]
  {
    if uid in rows {
      assert rows[uid][p := enc] - {p} == rows[uid] - {p};
    } else {
      assert map[p := enc] - {p} == map[];
    }
  }

  /**
   * With a working cipher and the secret set, a saved key reads back: the new
   * field is stored, decrypts, and decrypts to the key.
   */
  lemma SaveThenRead(rows: map<UserId, KeyFields>, uid: UserId, p: Provider, key: string,
                     secret: Option<string>, crypto: Crypto, salt: seq<byte>, iv: seq<byte>)
    requires Sound(crypto) && SecretSet(secret) && |salt| == SaltLength && |iv| == IvLength
    ensures var enc := Encrypted(secret, crypto, key, salt, iv).value;
      var fields := Saved(rows, uid, p, enc)[uid];
      var decrypt: Decryptor := s => DecryptApiKey(secret, crypto, s);
      Readable(fields, decrypt, p) && Plain(fields, decrypt, p) == key
  {
    DecryptAfterEncrypt(secret, crypto, key, salt, iv);
    var combined := salt + iv + crypto.seal(secret.value, salt, iv, key);
    assert combined != [] by {
      assert |combined| >= SaltLength;
    }
    SavedChangesOneField(rows, uid, p, Encrypted(secret, crypto, key, salt, iv).value);
  }

  /**
   * `saveApiKey(provider, key, sessionToken)`: the session check, then the
   * encryption (salt and iv are the random bytes), then the caller's user row,
   * then the upsert. Every failure leaves the table as it was.
   */
  method SaveApiKey(db: Db, provider: Provider, key: string, token: string, secret: Option<string>, crypto: Crypto,
                    salt: array<byte>, iv: array<byte>)
    returns (r: Result<(), Error>)
    requires salt.Length == SaltLength && iv.Length == IvLength
    modifies db
    ensures token !in old(db.sessions) ==> r == Err(Unauthorized)
    ensures token in old(db.sessions) && !SecretSet(secret) ==> r == Err(SecretNotSet)
    ensures token in old(db.sessions) && SecretSet(secret) && old(db.sessions[token]) !in old(db.users) ==>
      r == Err(NullUser)
    ensures r.Err? ==> db.apiKeys == old(db.apiKeys)
    ensures r.Ok? <==> token in old(db.sessions) && SecretSet(secret) && old(db.sessions[token]) in old(db.users)
    ensures r.Ok? ==> db.apiKeys == Saved(old(db.apiKeys), old(db.sessions[token]), provider,
                                         Encrypted(secret, crypto, key, salt[..], iv[..]).value)
    ensures db.sessions == old(db.sessions) && db.users == old(db.users)
    ensures db.chats == old(db.chats) && db.nextChatId == old(db.nextChatId)
  {
    var auth := VerifyAuth(db, token);
    if auth.Err? {
      return Err(auth.error);
    }
    var encrypted := EncryptApiKey(secret, crypto, key, salt, iv);
    if encrypted.Err? {
      return Err(encrypted.error);
    }
    var uid := AuthUserId(auth.value);
    if uid.Err? {
      return Err(uid.error);
    }
    db.apiKeys := Saved(db.apiKeys, uid.value, provider, encrypted.value);
    return Ok(());
  }

  /**
   * `removeApiKey(provider, sessionToken)`: the session check, the caller's user
   * row, then field p is cleared if the caller has a record.
   */
  method RemoveApiKey(db: Db, provider: Provider, token: string) returns (r: Result<(), Error>)
    modifies db
    ensures token !in old(db.sessions) ==> r == Err(Unauthorized)
    ensures token in old(db.sessions) && old(db.sessions[token]) !in old(db.users) ==> r == Err(NullUser)
    ensures r.Ok? <==> token in old(db.sessions) && old(db.sessions[token]) in old(db.users)
    ensures r.Err? ==> db.apiKeys == old(db.apiKeys)
    ensures r.Ok? ==> db.apiKeys == Removed(old(db.apiKeys), old(db.sessions[token]), provider)
    ensures db.sessions == old(db.sessions) && db.users == old(db.users)
    ensures db.chats == old(db.chats) && db.nextChatId == old(db.nextChatId)
  {
    var auth := VerifyAuth(db, token);
    if auth.Err? {
      return Err(auth.error);
    }
    var uid := AuthUserId(auth.value);
    if uid.Err? {
      return Err(uid.error);
    }
    db.apiKeys := Removed(db.apiKeys, uid.value, provider);
    return Ok(());
  }
}
