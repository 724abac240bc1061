/** Image storage on an S3-compatible bucket, with a base64 data URL as the
    fallback when storage is not configured (apps/api/src/lib/storage.ts).

    The S3 SDK is outside the model: a client is an object recording the
    settings it was built from, a send either succeeds or fails (a parameter),
    and the request it would carry is returned as a `PutObject` value. The id
    `nanoid()` draws and the base64 encoding of the bytes are parameters. */
module Storage {
  import opened Wrappers
  import opened Text

  type Byte = bv8

  const KeyPrefix := "chat-images/"
  const DefaultExtension := "png"
  const UploadFailedMessage := "Failed to upload image"

  /** The five storage settings; an unset variable is the empty string. */
  datatype StorageEnv = StorageEnv(endpoint: string, accessKeyId: string, secretAccessKey: string,
                                   bucketName: string, publicUrl: string)

  /** The settings `getS3Client` needs to build a client. */
  predicate HasCredentials(env: StorageEnv)
  {
    env.endpoint != "" && env.accessKeyId != "" && env.secretAccessKey != ""
  }

  /** `isStorageConfigured` (storage.ts:79-87): all five settings are set. */
  function IsStorageConfigured(env: StorageEnv): (r: bool)
    ensures r <==> HasCredentials(env) && env.bucketName != "" && env.publicUrl != ""
  {
    env.endpoint != "" && env.accessKeyId != "" && env.secretAccessKey != ""
    && env.bucketName != "" && env.publicUrl != ""
  }

  /** `contentType.split('/')[1] || 'png'` (storage.ts:51) */
  function Extension(contentType: string): (r: string)
    ensures r != "" && '/' !in r
  {
    match SecondField(contentType, '/')
    case Some(sub) => if sub != "" then sub else DefaultExtension
    case None => DefaultExtension
  }

  /** A `type/subtype` content type gives its subtype; one without a subtype
      gives `png`. */
  lemma ExtensionOfContentType(top: string, sub: string, params: string)
    requires '/' !in top && '/' !in sub && sub != ""
    requires params == [] || params[0] == '/'
    ensures Extension(top + "/" + sub + params) == sub
    ensures Extension(top) == DefaultExtension
    ensures Extension(top + "/") == DefaultExtension
  {
    SecondFieldOf(top, '/', sub, params);
    SecondFieldOf(top, '/', "", "");
    assert top + ['/'] + "" + "" == top + "/";
  }

  /** `chat-images/<userId>/<id>.<ext>` */
  function ObjectKey(userId: string, id: string, ext: string): (r: string)
    ensures StartsWith(r, KeyPrefix)
  {
    var r := KeyPrefix + userId + "/" + id + "." + ext;
    assert r[..|KeyPrefix|] == KeyPrefix;
    r
  }

  /** Keys of different users never collide when user ids hold no '/'. */
  lemma {:induction false} ObjectKeysSeparateUsers(u1: string, u2: string, id1: string, id2: string, e1: string, e2: string)
    requires '/' !in u1 && '/' !in u2 && u1 != u2
    ensures ObjectKey(u1, id1, e1) != ObjectKey(u2, id2, e2)
  {
    var rest1, rest2 := "/" + id1 + "." + e1, "/" + id2 + "." + e2;
    var k1, k2 := ObjectKey(u1, id1, e1), ObjectKey(u2, id2, e2);
    assert k1 == KeyPrefix + (u1 + rest1);
    assert k2 == KeyPrefix + (u2 + rest2);
    IndexAfter(u1, rest1, '/');
    IndexAfter(u2, rest2, '/');
    assert Before(u1 + rest1, '/') == u1 by { assert (u1 + rest1)[..|u1|] == u1; }
    assert Before(u2 + rest2, '/') == u2 by { assert (u2 + rest2)[..|u2|] == u2; }
    assert k1[|KeyPrefix|..] == u1 + rest1;
    assert k2[|KeyPrefix|..] == u2 + rest2;
  }

  /** `data:<contentType>;base64,<payload>` (storage.ts:47) */
  function DataUrl(contentType: string, payload: string): (r: string)
    ensures StartsWith(r, "data:")
  {
    var r := "data:" + contentType + ";base64," + payload;
    assert r[..5] == "data:";
    r
  }

  /** An S3 client (storage.ts:18-25), built from the settings of its time. */
  class S3Client {
    const endpoint: string
    const accessKeyId: string
    const secretAccessKey: string

    constructor (endpoint: string, accessKeyId: string, secretAccessKey: string)
      ensures this.endpoint == endpoint && this.accessKeyId == accessKeyId
      ensures this.secretAccessKey == secretAccessKey
    {
      this.endpoint := endpoint;
      this.accessKeyId := accessKeyId;
      this.secretAccessKey := secretAccessKey;
    }
  }

  /** The `PutObjectCommand` of an upload. */
  datatype PutObject = PutObject(bucket: string, key: string, body: seq<Byte>, contentType: string)

  /** What `uploadImage` does, once the client question is settled: the
      fallback data URL, or the object it sends and the URL it answers. */
  function UploadOutcome(env: StorageEnv, body: seq<Byte>, contentType: string, userId: string,
                         id: string, sendFails: bool, encode: seq<Byte> -> string)
    : (r: (Option<PutObject>, Result<string>))
    ensures !IsStorageConfigured(env) ==> r == (None, Ok(DataUrl(contentType, encode(body))))
    ensures IsStorageConfigured(env) ==>
      var key := ObjectKey(userId, id, Extension(contentType));
      && r.0 == Some(PutObject(env.bucketName, key, body, contentType))
      && r.1 == if sendFails then Err(UploadFailedMessage) else Ok(env.publicUrl + "/" + key)
  {
    if !IsStorageConfigured(env) then (None, Ok(DataUrl(contentType, encode(body))))
    else
      var key := ObjectKey(userId, id, Extension(contentType));
      (Some(PutObject(env.bucketName, key, body, contentType)),
       if sendFails then Err(UploadFailedMessage) else Ok(env.publicUrl + "/" + key))
  }

  /** The module-level `s3Client` cache and the operations that use it. */
  class S3Storage {
    var cached: S3Client?

    constructor ()
      ensures cached == null
    {
      cached := null;
    }

    /** `getS3Client` (storage.ts:11-29): null without credentials; otherwise
        the cached client, built on the first call and reused afterwards. */
    method GetS3Client(env: StorageEnv) returns (client: S3Client?)
      modifies this
      ensures !HasCredentials(env) ==> client == null && cached == old(cached)
      ensures HasCredentials(env) && old(cached) != null ==> client == old(cached) && cached == old(cached)
      ensures HasCredentials(env) && old(cached) == null ==>
        && client != null && fresh(client) && cached == client
        && client.endpoint == env.endpoint && client.accessKeyId == env.accessKeyId
        && client.secretAccessKey == env.secretAccessKey
    {
      if env.endpoint == "" || env.accessKeyId == "" || env.secretAccessKey == "" {
        return null;
      }
      if cached == null {
        cached := new S3Client(env.endpoint, env.accessKeyId, env.secretAccessKey);
      }
      client := cached;
    }

    /** `uploadImage` (storage.ts:40-74). */
    method UploadImage(env: StorageEnv, body: seq<Byte>, contentType: string, userId: string,
                       id: string, sendFails: bool, encode: seq<Byte> -> string)
      returns (put: Option<PutObject>, url: Result<string>)
      modifies this
      ensures (put, url) == UploadOutcome(env, body, contentType, userId, id, sendFails, encode)
      ensures HasCredentials(env) && old(cached) != null ==> cached == old(cached)
      ensures HasCredentials(env) && old(cached) == null ==>
        && cached != null && fresh(cached)
        && cached.endpoint == env.endpoint && cached.accessKeyId == env.accessKeyId
        && cached.secretAccessKey == env.secretAccessKey
      ensures !HasCredentials(env) ==> cached == old(cached)
    {
      var client := GetS3Client(env);
      if client == null || env.bucketName == "" || env.publicUrl == "" {
        var payload := encode(body);
        return None, Ok("data:" + contentType + ";base64," + payload);
      }
      var ext := Extension(contentType);
      var key := KeyPrefix + userId + "/" + id + "." + ext;
      put := Some(PutObject(env.bucketName, key, body, contentType));
      if sendFails {
        return put, Err(UploadFailedMessage);
      }
      url := Ok(env.publicUrl + "/" + key);
    }
  }

  /** A successful upload's URL is the public base, a slash, and a key under
      `chat-images/<userId>/` ending in the content type's extension. */
  lemma UploadedUrlShape(env: StorageEnv, body: seq<Byte>, contentType: string, userId: string,
                         id: string, encode: seq<Byte> -> string)
    requires IsStorageConfigured(env)
    ensures var r := UploadOutcome(env, body, contentType, userId, id, false, encode).1;
            var prefix := env.publicUrl + "/" + KeyPrefix + userId + "/";
            var suffix := "." + Extension(contentType);
            && r.Ok? && StartsWith(r.value, prefix)
            && r.value[|r.value| - |suffix|..] == suffix
  {
    var ext := Extension(contentType);
    var key := ObjectKey(userId, id, ext);
    var url := env.publicUrl + "/" + key;
    assert UploadOutcome(env, body, contentType, userId, id, false, encode).1 == Ok(url);
    var prefix := env.publicUrl + "/" + KeyPrefix + userId + "/";
    assert url == prefix + (id + "." + ext);
    assert url[..|prefix|] == prefix;
  }
}
