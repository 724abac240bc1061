/** The `uploadImageToStorage` route (apps/api/src/orpc/routers/upload.ts):
    strip a data-URL header from the base64 text, reject an empty payload,
    and hand the decoded bytes to `uploadImage`. Base64 decoding is a
    parameter. */
module Upload {
  import opened Wrappers
  import opened Text
  import opened Storage

  const InvalidBase64Message := "Invalid base64 data"

  /** `input.includes(',') ? input.split(',')[1] : input` (upload.ts:20-22) */
  function ExtractBase64(input: string): (r: string)
    ensures ',' !in input ==> r == input
    ensures ',' in input ==> SecondField(input, ',') == Some(r) && ',' !in r
  {
    match SecondField(input, ',')
    case Some(field) => field
    case None => input
  }

  /** With a comma, what is kept is the text between the first comma and the
      next one (or the end). */
  lemma ExtractBetweenCommas(head: string, field: string, tail: string)
    requires ',' !in head && ',' !in field
    requires tail == [] || tail[0] == ','
    ensures ExtractBase64(head + "," + field + tail) == field
  {
    SecondFieldOf(head, ',', field, tail);
  }

  /** The data URL the storage fallback builds gives back its payload. */
  lemma ExtractFromDataUrl(contentType: string, payload: string)
    requires ',' !in contentType && ',' !in payload
    ensures ExtractBase64(DataUrl(contentType, payload)) == payload
  {
    var head := "data:" + contentType + ";base64";
    assert ',' !in head by {
      assert head == "data:" + contentType + ";base64";
      forall i | 0 <= i < |head| ensures head[i] != ',' {
        if i < 5 { assert head[i] == "data:"[i]; }
        else if i < 5 + |contentType| { assert head[i] == contentType[i - 5]; }
        else { assert head[i] == ";base64"[i - 5 - |contentType|]; }
      }
    }
    assert DataUrl(contentType, payload) == head + "," + payload + [];
    ExtractBetweenCommas(head, payload, []);
  }

  /** `uploadImageToStorage` (upload.ts:17-44): an empty payload is refused
      before anything is uploaded; otherwise the decoded bytes, the input's
      content type and the caller's user id go to `uploadImage`, whose URL
      (or failure) is passed on unchanged. */
  method UploadImageToStorage(storage: S3Storage, env: StorageEnv, base64: string, contentType: string,
                              userId: string, id: string, sendFails: bool,
                              decode: string -> seq<Byte>, encode: seq<Byte> -> string)
    returns (put: Option<PutObject>, url: Result<string>)
    modifies storage
    ensures ExtractBase64(base64) == "" ==>
      put.None? && url == Err(InvalidBase64Message) && storage.cached == old(storage.cached)
    ensures ExtractBase64(base64) != "" ==>
      (put, url) == UploadOutcome(env, decode(ExtractBase64(base64)), contentType, userId, id, sendFails, encode)
    ensures ExtractBase64(base64) != "" && HasCredentials(env) && old(storage.cached) == null ==>
      && storage.cached != null && fresh(storage.cached)
      && storage.cached.endpoint == env.endpoint && storage.cached.accessKeyId == env.accessKeyId
      && storage.cached.secretAccessKey == env.secretAccessKey
    ensures !(ExtractBase64(base64) != "" && HasCredentials(env) && old(storage.cached) == null) ==>
      storage.cached == old(storage.cached)
  {
    var payload := if ',' in base64 then SecondField(base64, ',').value else base64;
    if payload == "" {
      return None, Err(InvalidBase64Message);
    }
    var buffer := decode(payload);
    put, url := storage.UploadImage(env, buffer, contentType, userId, id, sendFails, encode);
  }

  /** Without storage, uploading a data URL answers that same data URL when
      re-encoding the decoded payload gives the payload back. */
  lemma FallbackEchoesDataUrl(env: StorageEnv, contentType: string, payload: string, userId: string,
                              id: string, sendFails: bool,
                              decode: string -> seq<Byte>, encode: seq<Byte> -> string)
    requires !IsStorageConfigured(env)
    requires ',' !in contentType && ',' !in payload && payload != ""
    requires encode(decode(payload)) == payload
    ensures var input := DataUrl(contentType, payload);
            && ExtractBase64(input) != ""
            && UploadOutcome(env, decode(ExtractBase64(input)), contentType, userId, id, sendFails, encode).1
               == Ok(input)
  {
    ExtractFromDataUrl(contentType, payload);
  }
}
