/** The per-user API-key table and its three routes
    (apps/api/src/orpc/routers/user-api-keys.ts).

    The table `user_api_keys` is a map from user id to a row holding one
    nullable ciphertext per provider. `encrypt` and `decrypt` (the shared
    encryption library) are parameters; `decrypt` may fail (`null`). */
module UserApiKeys {
  import opened Wrappers

  type UserId = string

  /** The providers a key can be stored for (the four key columns). */
  datatype Provider = OpenAI | Anthropic | Google | XAI

  /** Four optional strings, one per provider. The same shape holds a stored
      row (ciphertexts), a decrypted key set, the update input (absent
      fields are None) and the server's own keys. */
  datatype KeyRecord = KeyRecord(openai: Option<string>, anthropic: Option<string>,
                                 google: Option<string>, xai: Option<string>)
  {
    function Get(p: Provider): Option<string>
    {
      match p
      case OpenAI => openai
      case Anthropic => anthropic
      case Google => google
      case XAI => xai
    }

    function With(p: Provider, v: Option<string>): (r: KeyRecord)
      ensures r.Get(p) == v
      ensures forall q :: q != p ==> r.Get(q) == Get(q)
    {
      match p
      case OpenAI => this.(openai := v)
      case Anthropic => this.(anthropic := v)
      case Google => this.(google := v)
      case XAI => this.(xai := v)
    }
  }

  /** All four fields null. */
  const NoKeys := KeyRecord(None, None, None, None)

  /** `stored ? await decrypt(stored, secret) : null` */
  function DecryptField(stored: Option<string>, secret: string,
                        decrypt: (string, string) -> Option<string>): (r: Option<string>)
    ensures stored.None? || stored.value == "" ==> r.None?
    ensures stored.Some? && stored.value != "" ==> r == decrypt(stored.value, secret)
  {
    if stored.Some? && stored.value != "" then decrypt(stored.value, secret) else None
  }

  /** A stored row with each non-empty field decrypted and the others null. */
  function DecryptRow(row: KeyRecord, secret: string,
                      decrypt: (string, string) -> Option<string>): (r: KeyRecord)
    ensures forall p :: r.Get(p) == DecryptField(row.Get(p), secret, decrypt)
  {
    KeyRecord(DecryptField(row.openai, secret, decrypt), DecryptField(row.anthropic, secret, decrypt),
              DecryptField(row.google, secret, decrypt), DecryptField(row.xai, secret, decrypt))
  }

  /** `getUserApiKeys` (user-api-keys.ts:15-41): all null without a row,
      otherwise the decrypted row. */
  function Lookup(rows: map<UserId, KeyRecord>, user: UserId, secret: string,
                  decrypt: (string, string) -> Option<string>): (r: KeyRecord)
    ensures user !in rows ==> r == NoKeys
    ensures user in rows ==> forall p :: r.Get(p) == DecryptField(rows[user].Get(p), secret, decrypt)
  {
    if user !in rows then NoKeys else DecryptRow(rows[user], secret, decrypt)
  }

  /** The stored value for one input field: an empty string clears the
      column, anything else is stored encrypted. */
  function EncryptField(value: string, secret: string, encrypt: (string, string) -> string): (r: Option<string>)
    ensures r.None? <==> value == ""
    ensures r.Some? ==> r.value == encrypt(value, secret)
  {
    if value == "" then None else Some(encrypt(value, secret))
  }

  /** The patch `updateUserApiKeys` builds (user-api-keys.ts:50-63): one
      entry per field present in the input. */
  function Patch(input: KeyRecord, secret: string, encrypt: (string, string) -> string): (patch: map<Provider, Option<string>>)
    ensures forall p :: p in patch <==> input.Get(p).Some?
    ensures forall p :: p in patch ==> patch[p] == EncryptField(input.Get(p).value, secret, encrypt)
  {
    map p | p in {OpenAI, Anthropic, Google, XAI} && input.Get(p).Some? :: EncryptField(input.Get(p).value, secret, encrypt)
  }

  /** A row with the patched columns replaced and the others kept. */
  function Patched(row: KeyRecord, patch: map<Provider, Option<string>>): (r: KeyRecord)
    ensures forall p :: r.Get(p) == if p in patch then patch[p] else row.Get(p)
  {
    KeyRecord(if OpenAI in patch then patch[OpenAI] else row.openai,
              if Anthropic in patch then patch[Anthropic] else row.anthropic,
              if Google in patch then patch[Google] else row.google,
              if XAI in patch then patch[XAI] else row.xai)
  }

  /** The table after the update-or-insert of user-api-keys.ts:65-89: an
      existing row gets only the patched columns; a new row is the user id
      plus the patch, the other columns null. */
  function Upserted(rows: map<UserId, KeyRecord>, user: UserId, patch: map<Provider, Option<string>>): (r: map<UserId, KeyRecord>)
    ensures r.Keys == rows.Keys + {user}
    ensures forall u :: u in rows && u != user ==> r[u] == rows[u]
  {
    rows[user := Patched(if user in rows then rows[user] else NoKeys, patch)]
  }

  class UserApiKeyTable {
    /** `user_api_keys`, one row per user. */
    var rows: map<UserId, KeyRecord>

    constructor ()
      ensures rows == map[]
    {
      rows := map[];
    }

    /** `getUserApiKeys` */
    method GetUserApiKeys(user: UserId, secret: string, decrypt: (string, string) -> Option<string>)
      returns (keys: KeyRecord)
      ensures keys == Lookup(rows, user, secret, decrypt)
    {
      if user !in rows {
        return NoKeys;
      }
      var row := rows[user];
      keys := KeyRecord(DecryptField(row.openai, secret, decrypt), DecryptField(row.anthropic, secret, decrypt),
                        DecryptField(row.google, secret, decrypt), DecryptField(row.xai, secret, decrypt));
    }

    /** The patch, filled field by field as the handler does. */
    static method BuildPatch(input: KeyRecord, secret: string, encrypt: (string, string) -> string)
      returns (patch: map<Provider, Option<string>>)
      ensures patch == Patch(input, secret, encrypt)
    {
      patch := map[];
      if input.openai.Some? {
        patch := patch[OpenAI := EncryptField(input.openai.value, secret, encrypt)];
      }
      if input.anthropic.Some? {
        patch := patch[Anthropic := EncryptField(input.anthropic.value, secret, encrypt)];
      }
      if input.google.Some? {
        patch := patch[Google := EncryptField(input.google.value, secret, encrypt)];
      }
      if input.xai.Some? {
        patch := patch[XAI := EncryptField(input.xai.value, secret, encrypt)];
      }
    }

    /** `updateUserApiKeys` (user-api-keys.ts:43-92): update the user's row in
        place, or insert one. `inserted` tells which; `success` is always true. */
    method UpdateUserApiKeys(user: UserId, input: KeyRecord, secret: string, encrypt: (string, string) -> string)
      returns (success: bool, inserted: bool)
      modifies this
      ensures success
      ensures inserted <==> user !in old(rows)
      ensures rows == Upserted(old(rows), user, Patch(input, secret, encrypt))
    {
      var patch := BuildPatch(input, secret, encrypt);
      if user in rows {
        rows := rows[user := Patched(rows[user], patch)];
        inserted := false;
      } else {
        rows := rows[user := Patched(NoKeys, patch)];
        inserted := true;
      }
      success := true;
    }

    /** `deleteUserApiKeys` (user-api-keys.ts:94-104). */
    method DeleteUserApiKeys(user: UserId) returns (success: bool)
      modifies this
      ensures success
      ensures rows == old(rows) - {user}
    {
      rows := rows - {user};
      success := true;
    }
  }

  /** Updating a field with a non-empty key and reading it back returns that
      key, provided decryption undoes encryption for it. */
  lemma UpdateThenGet(rows: map<UserId, KeyRecord>, user: UserId, input: KeyRecord, secret: string,
                      encrypt: (string, string) -> string, decrypt: (string, string) -> Option<string>,
                      p: Provider, key: string)
    requires input.Get(p) == Some(key) && key != ""
    requires encrypt(key, secret) != "" && decrypt(encrypt(key, secret), secret) == Some(key)
    ensures Lookup(Upserted(rows, user, Patch(input, secret, encrypt)), user, secret, decrypt).Get(p) == Some(key)
  {
    var after := Upserted(rows, user, Patch(input, secret, encrypt));
    assert after[user].Get(p) == Some(encrypt(key, secret));
  }

  /** An empty string in the input clears the field: reading it back gives null. */
  lemma UpdateWithEmptyClears(rows: map<UserId, KeyRecord>, user: UserId, input: KeyRecord, secret: string,
                              encrypt: (string, string) -> string, decrypt: (string, string) -> Option<string>,
                              p: Provider)
    requires input.Get(p) == Some("")
    ensures Lookup(Upserted(rows, user, Patch(input, secret, encrypt)), user, secret, decrypt).Get(p) == None
  {
    var after := Upserted(rows, user, Patch(input, secret, encrypt));
    assert after[user].Get(p) == None;
  }

  /** A field absent from the input keeps its stored value, or stays null
      when the row is new. */
  lemma UpdateKeepsAbsentFields(rows: map<UserId, KeyRecord>, user: UserId, input: KeyRecord, secret: string,
                                encrypt: (string, string) -> string, p: Provider)
    requires input.Get(p).None?
    ensures Upserted(rows, user, Patch(input, secret, encrypt))[user].Get(p)
         == if user in rows then rows[user].Get(p) else None
  {
  }

  /** After a delete, reading the user's keys gives all nulls. */
  lemma DeleteThenGet(rows: map<UserId, KeyRecord>, user: UserId, secret: string,
                      decrypt: (string, string) -> Option<string>)
    ensures Lookup(rows - {user}, user, secret, decrypt) == NoKeys
  {
  }
}
