/** The foreign calls the helpers and views make, as opaque functions.
    Nothing is known of them except what `Sound` states. */
module Foreign {
  import opened Wrappers
  import opened Json
  import opened Text

  datatype Primitives = Primitives(
    /** `hashlib.sha1(s).hexdigest()` */
    sha1Hex: string -> string,
    /** `AES.new(key, AES.MODE_CBC, iv).encrypt(plaintext)` */
    aesEncrypt: (string, string, string) -> string,
    /** `AES.new(key, AES.MODE_CBC, iv).decrypt(ciphertext)` */
    aesDecrypt: (string, string, string) -> string,
    /** `json.dumps` */
    dumps: Json -> string,
    /** `json.loads`; None where it raises */
    loads: string -> Option<Json>)

  /** The parts of the OAuth2 client library the helpers use. */
  datatype OAuthFlow = OAuthFlow(
    /** `flow_from_clientsecrets(secrets, scope, redirect).step1_get_authorize_url()`,
        given the contents of the secrets file; None where it raises */
    authorizeUrl: (string, string, string) -> Option<string>,
    /** `flow_from_clientsecrets(secrets, scope, redirect).step2_exchange(code)`,
        given the contents of the secrets file and the code; the credentials as
        stored by `Storage.put`, None where it raises */
    exchange: (string, string, string, string) -> Option<string>)

  /** The key lengths `AES.new` accepts; any other raises ValueError. */
  predicate AesKeyLength(n: int)
  {
    n == 16 || n == 24 || n == 32
  }

  /** The only facts assumed of the primitives:
      SHA-1 yields a hex digest, CBC encryption of block-aligned plaintext
      (32-byte key, 16-byte IV) keeps its length and decryption under the same
      key and IV inverts it,
      json.loads inverts json.dumps, and json.dumps never emits outer whitespace. */
  ghost predicate Sound(p: Primitives)
  {
    && (forall s :: IsHexDigest(p.sha1Hex(s)))
    && (forall key, iv, plain ::
          |key| == 32 && |iv| == 16 && |plain| % 16 == 0 ==>
          && |p.aesEncrypt(key, iv, plain)| == |plain|
          && p.aesDecrypt(key, iv, p.aesEncrypt(key, iv, plain)) == plain)
    && (forall j :: p.loads(p.dumps(j)) == Some(j))
    && (forall j :: NoOuterWhitespace(p.dumps(j)))
  }
}
