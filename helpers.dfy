/** The helper functions of the web front-end: keynames, the client-id hash and
    the file-path scheme under `.data/`, the cookie padding, and the small keyed
    file store behind the encrypted-cookie handoff. */
module Helpers {
  import opened Wrappers
  import opened Json
  import opened Text
  import opened Foreign

  /** The scope requested for the access and refresh token. */
  const GCE_SCOPE: string := "https://www.googleapis.com/auth/compute"

  /** Where the user is sent back after authorizing; carries the `code` parameter. */
  const GCE_REDIRECT_URI: string := "http://localhost:8080/oauth2_callback"

  /** The fixed initialisation vector of every cookie encryption. */
  const AES_IV: string := "This is an IV456"

  /** The AES block size the cookie data is padded to. */
  const BLOCK_SIZE: nat := 16

  /** Exceptions the helpers and views let escape to the web framework. */
  datatype Fault =
    | MalformedSecrets          // json.loads or ['web']['client_id'] raised
    | MissingFile(path: string) // a file that is opened for reading is absent
    | OAuthFailed               // the OAuth2 library raised
    | MissingCookie(name: string) // a cookie that was not sent reaches a helper as None (TypeError)
    | CipherRejected            // AES raised ValueError: a bad key length or unaligned ciphertext
    | MalformedFormData         // json.loads or a field lookup on the decrypted cookie raised
    | UndefinedForm             // the name `form` is undefined (NameError)

  // ---------------------------------------------------------------------------
  // Keynames

  /** `s.replace('-', '')` */
  function RemoveDashes(s: string): (r: string)
    ensures '-' !in r
  {
    if s == [] then [] else (if s[0] == '-' then [] else [s[0]]) + RemoveDashes(s[1..])
  }

  /** Removing the dashes keeps every other character as often as it occurs. */
  lemma {:induction false} RemoveDashesKeepsOthers(s: string)
    ensures forall c :: c != '-' ==> multiset(RemoveDashes(s))[c] == multiset(s)[c]
  {
    if s != [] {
      assert s == [s[0]] + s[1..];
      RemoveDashesKeepsOthers(s[1..]);
    }
  }

  /** Removing dashes works piecewise, so the characters it keeps stay in
      their original order. */
  lemma {:induction false} RemoveDashesConcat(a: string, b: string)
    ensures RemoveDashes(a + b) == RemoveDashes(a) + RemoveDashes(b)
  {
    if a == [] {
      assert a + b == b;
    } else {
      assert (a + b)[0] == a[0];
      assert (a + b)[1..] == a[1..] + b;
      RemoveDashesConcat(a[1..], b);
    }
  }

  /** `'a' + str(uuid.uuid1()).replace('-', '')`, the uuid text being a parameter.
      The keyname starts with a letter and has no dash, and keeps every other
      character of the uuid text. */
  function GenerateKeyname(uuid: string): (r: string)
    ensures |r| > 0 && r[0] == 'a'
    ensures '-' !in r
    ensures forall c :: c != '-' ==> multiset(r[1..])[c] == multiset(uuid)[c]
  {
    var r := "a" + RemoveDashes(uuid);
    assert r[1..] == RemoveDashes(uuid);
    RemoveDashesKeepsOthers(uuid);
    r
  }

  /** The text of `str(uuid.uuid1())`: 8-4-4-4-12 lower-case hex digits. */
  predicate IsUuidText(u: string)
  {
    |u| == 36 &&
    forall i :: 0 <= i < 36 ==>
      if i == 8 || i == 13 || i == 18 || i == 23 then u[i] == '-' else IsHexChar(u[i])
  }

  lemma {:induction false} RemoveDashesOfDashFree(s: string)
    requires '-' !in s
    ensures RemoveDashes(s) == s
  {
    if s != [] {
      RemoveDashesOfDashFree(s[1..]);
    }
  }

  /** Up to the first dash, every character is kept and the dash is dropped. */
  lemma {:induction false} RemoveDashesAt(s: string, i: nat)
    requires i < |s| && s[i] == '-'
    requires forall j :: 0 <= j < i ==> s[j] != '-'
    ensures RemoveDashes(s) == s[..i] + RemoveDashes(s[i + 1..])
  {
    if i > 0 {
      assert s[1..][i - 1] == '-';
      RemoveDashesAt(s[1..], i - 1);
      assert s[1..][i..] == s[i + 1..];
      assert [s[0]] + s[1..][..i - 1] == s[..i];
    }
  }

  /** Where the `k`-th hex digit of a uuid text sits: each group boundary skips a dash. */
  function UuidPos(k: nat): nat
  {
    if k < 8 then k else if k < 12 then k + 1 else if k < 16 then k + 2
    else if k < 20 then k + 3 else k + 4
  }

  /** Removing the dashes of a uuid text group by group. */
  lemma UuidGroups(u: string)
    requires IsUuidText(u)
    ensures RemoveDashes(u) == u[..8] + RemoveDashes(u[9..])
    ensures RemoveDashes(u[9..]) == u[9..][..4] + RemoveDashes(u[14..])
    ensures RemoveDashes(u[14..]) == u[14..][..4] + RemoveDashes(u[19..])
    ensures RemoveDashes(u[19..]) == u[19..][..4] + u[24..]
  {
    var t1, t2, t3, t4 := u[9..], u[14..], u[19..], u[24..];
    RemoveDashesAt(u, 8);
    assert t1[4] == u[13] && t1[5..] == t2;
    RemoveDashesAt(t1, 4);
    assert t2[4] == u[18] && t2[5..] == t3;
    RemoveDashesAt(t2, 4);
    assert t3[4] == u[23] && t3[5..] == t4;
    RemoveDashesAt(t3, 4);
    assert forall j :: 0 <= j < 12 ==> t4[j] == u[24 + j];
    RemoveDashesOfDashFree(t4);
  }

  /** A keyname made from a real uuid text is 'a' and 32 hex digits: the
      uuid's digits in their original order. */
  lemma KeynameOfUuid(u: string)
    requires IsUuidText(u)
    ensures |GenerateKeyname(u)| == 33
    ensures forall k :: 0 <= k < 32 ==> GenerateKeyname(u)[k + 1] == u[UuidPos(k)]
    ensures forall i :: 1 <= i < 33 ==> IsHexChar(GenerateKeyname(u)[i])
  {
    var t1, t2, t3, t4 := u[9..], u[14..], u[19..], u[24..];
    UuidGroups(u);
    var d, d1, d2, d3 := RemoveDashes(u), RemoveDashes(t1), RemoveDashes(t2), RemoveDashes(t3);
    assert GenerateKeyname(u)[1..] == d;
    forall k | 0 <= k < 32 ensures d[k] == u[UuidPos(k)] {
      if k < 8 {
        assert d[k] == u[..8][k];
      } else if k < 12 {
        assert d[k] == d1[k - 8] == t1[..4][k - 8];
      } else if k < 16 {
        assert d[k] == d1[k - 8] == d2[k - 12] == t2[..4][k - 12];
      } else if k < 20 {
        assert d[k] == d1[k - 8] == d2[k - 12] == d3[k - 16] == t3[..4][k - 16];
      } else {
        assert d[k] == d1[k - 8] == d2[k - 12] == d3[k - 16] == t4[k - 20];
      }
    }
    forall i | 1 <= i < 33 ensures IsHexChar(GenerateKeyname(u)[i]) {
      assert GenerateKeyname(u)[i] == u[UuidPos(i - 1)];
    }
  }

  /** Distinct uuid texts give distinct keynames. */
  lemma KeynameInjective(u: string, v: string)
    requires IsUuidText(u) && IsUuidText(v)
    ensures GenerateKeyname(u) == GenerateKeyname(v) ==> u == v
  {
    if GenerateKeyname(u) == GenerateKeyname(v) {
      KeynameOfUuid(u);
      KeynameOfUuid(v);
      forall i | 0 <= i < 36 ensures u[i] == v[i] {
        if i != 8 && i != 13 && i != 18 && i != 23 {
          var k := if i < 8 then i else if i < 13 then i - 1 else if i < 18 then i - 2
                   else if i < 23 then i - 3 else i - 4;
          assert UuidPos(k) == i;
          assert GenerateKeyname(u)[k + 1] == GenerateKeyname(v)[k + 1];
        }
      }
    }
  }

  // ---------------------------------------------------------------------------
  // Client-id hash and the on-disk paths

  /** `get_client_id_hash`: the SHA-1 hex digest of the client id. */
  function GetClientIdHash(p: Primitives, clientId: string): (h: string)
    ensures Sound(p) ==> IsHexDigest(h)
  {
    p.sha1Hex(clientId)
  }

  /** `GCE_OAUTH_FILE % client_id`: the OAuth2 credentials written by the callback. */
  function CredentialsPath(clientId: string): string
  {
    ".data/.credentials-" + clientId + ".dat"
  }

  /** The client-secrets document the OAuth2 flow is built from. */
  function SecretsPath(hash: string): string
  {
    ".data/." + hash + "_secrets.json"
  }

  /** The key that encrypted the most recent cookie for this client. */
  function KeyPath(hash: string): string
  {
    ".data/." + hash + "_crypt.txt"
  }

  /** The three kinds of file never share a path while names come from hex digests. */
  lemma VaultPathsDisjoint(h1: string, h2: string, clientId: string)
    requires IsHexDigest(h1) && IsHexDigest(h2)
    ensures KeyPath(h1) != SecretsPath(h2)
    ensures CredentialsPath(clientId) != KeyPath(h1)
    ensures CredentialsPath(clientId) != SecretsPath(h1)
  {
    assert KeyPath(h1)[48] == 'c';
    assert SecretsPath(h2)[48] == 's';
    assert CredentialsPath(clientId)[8] == 'r';
    assert KeyPath(h1)[8] == h1[1];
    assert SecretsPath(h1)[8] == h1[1];
  }

  /** Each path names exactly one client id (or one hash). */
  lemma ClientPathsInjective(a: string, b: string)
    ensures CredentialsPath(a) == CredentialsPath(b) ==> a == b
    ensures KeyPath(a) == KeyPath(b) ==> a == b
    ensures SecretsPath(a) == SecretsPath(b) ==> a == b
  {
    if CredentialsPath(a) == CredentialsPath(b) {
      assert a == CredentialsPath(a)[19..19 + |a|];
    }
    if KeyPath(a) == KeyPath(b) {
      assert a == KeyPath(a)[7..7 + |a|];
    }
    if SecretsPath(a) == SecretsPath(b) {
      assert a == SecretsPath(a)[7..7 + |a|];
    }
  }

  // ---------------------------------------------------------------------------
  // Parsing the client secrets and building the form record

  /** The value under `doc['web']['client_id']`, None where a lookup raises. */
  function SecretsClientId(doc: Json): Option<Json>
  {
    if Member(doc, "web").Some? then Member(Member(doc, "web").value, "client_id") else None
  }

  /** `get_client_id_from_client_secrets`: `json.loads(s)['web']['client_id']`.
      Only a string value can be parsed, and only a string client id is accepted;
      every way of failing is `MalformedSecrets`. */
  function GetClientIdFromClientSecrets(p: Primitives, clientSecrets: Json): (r: Result<string, Fault>)
    ensures r.Failure? ==> r.error == MalformedSecrets
    ensures r.Success? <==>
      && clientSecrets.JString?
      && p.loads(clientSecrets.str).Some?
      && SecretsClientId(p.loads(clientSecrets.str).value).Some?
      && SecretsClientId(p.loads(clientSecrets.str).value).value.JString?
    ensures r.Success? ==>
      SecretsClientId(p.loads(clientSecrets.str).value) == Some(JString(r.value))
  {
    if !clientSecrets.JString? then Failure(MalformedSecrets)
    else
      match p.loads(clientSecrets.str)
      case None => Failure(MalformedSecrets)
      case Some(doc) =>
        match Member(doc, "web")
        case None => Failure(MalformedSecrets)
        case Some(web) =>
          match Member(web, "client_id")
          case Some(JString(clientId)) => Success(clientId)
          case _ => Failure(MalformedSecrets)
  }

  /** The secrets document `{"web": {"client_id": c, ...}, ...}` yields `c`. */
  lemma ClientIdRoundTrip(p: Primitives, doc: map<string, Json>, web: map<string, Json>, clientId: string)
    requires Sound(p)
    requires "web" in doc && doc["web"] == JObject(web)
    requires "client_id" in web && web["client_id"] == JString(clientId)
    ensures GetClientIdFromClientSecrets(p, JString(p.dumps(JObject(doc)))) == Success(clientId)
  {
    assert p.loads(p.dumps(JObject(doc))) == Some(JObject(doc));
  }

  /** The stashed form submission. */
  datatype FormData = FormData(
    email: Json, password: Json, maxNodes: Json, deploymentType: Json,
    instanceType: Json, gceImageName: Json, project: Json, clientSecrets: Json)

  /** The names of the eight stashed fields. */
  const FORM_FIELDS: set<string> :=
    {"email", "password", "max_nodes", "deployment_type", "instance_type",
     "gce_image_name", "project", "client_secrets"}

  /** The value `json.dumps` is applied to: a one-element list holding one record. */
  function FormDataJson(f: FormData): (j: Json)
    ensures j.JArray? && |j.items| == 1
    ensures j.items[0].JObject? && j.items[0].members.Keys == FORM_FIELDS
  {
    JArray([JObject(map[
      "email" := f.email, "password" := f.password, "max_nodes" := f.maxNodes,
      "deployment_type" := f.deploymentType, "instance_type" := f.instanceType,
      "gce_image_name" := f.gceImageName, "project" := f.project,
      "client_secrets" := f.clientSecrets])])
  }

  /** `get_form_data_as_json_string`: the text parses back to the record and
      has no outer whitespace, so it survives padding and stripping. */
  function GetFormDataAsJsonString(p: Primitives, f: FormData): (r: string)
    ensures Sound(p) ==> p.loads(r) == Some(FormDataJson(f)) && NoOuterWhitespace(r)
  {
    p.dumps(FormDataJson(f))
  }

  // ---------------------------------------------------------------------------
  // Padding and stripping the cookie plaintext

  function Spaces(n: nat): (r: string)
    ensures |r| == n && forall i :: 0 <= i < n ==> r[i] == ' '
  {
    seq(n, _ => ' ')
  }

  /** `pad_cookie_data`: right-pad with spaces to the next multiple of the block
      size, a whole extra block when the data is already aligned. */
  function PadCookieData(s: string): (r: string)
    ensures |r| % BLOCK_SIZE == 0
    ensures |s| < |r| <= |s| + BLOCK_SIZE
    ensures r[..|s|] == s
    ensures forall i :: |s| <= i < |r| ==> r[i] == ' '
    ensures |s| % BLOCK_SIZE == 0 ==> |r| == |s| + BLOCK_SIZE
  {
    s + Spaces(BLOCK_SIZE - |s| % BLOCK_SIZE)
  }

  /** The number of whitespace characters `s` starts with. */
  function LeadingSpaces(s: string): (n: nat)
    ensures n <= |s|
    ensures forall i :: 0 <= i < n ==> IsSpace(s[i])
    ensures n < |s| ==> !IsSpace(s[n])
  {
    if s != [] && IsSpace(s[0]) then 1 + LeadingSpaces(s[1..]) else 0
  }

  /** The number of whitespace characters `s` ends with. */
  function TrailingSpaces(s: string): (n: nat)
    ensures n <= |s|
    ensures forall i :: |s| - n <= i < |s| ==> IsSpace(s[i])
    ensures n < |s| ==> !IsSpace(s[|s| - 1 - n])
  {
    if s != [] && IsSpace(s[|s| - 1]) then 1 + TrailingSpaces(s[..|s| - 1]) else 0
  }

  /** Python's `s.strip()`. */
  function Strip(s: string): (r: string)
    ensures NoOuterWhitespace(r)
    ensures |r| <= |s|
    ensures NoOuterWhitespace(s) ==> r == s
  {
    var rest := s[LeadingSpaces(s)..];
    rest[..|rest| - TrailingSpaces(rest)]
  }

  /** Stripping the padded data gives the data back exactly when the data has
      no leading or trailing whitespace. */
  lemma StripPadded(s: string)
    ensures Strip(PadCookieData(s)) == s <==> NoOuterWhitespace(s)
  {
    var t := PadCookieData(s);
    if NoOuterWhitespace(s) {
      var lead := LeadingSpaces(t);
      if s == [] {
        assert t[lead..] == [];
      } else {
        assert t[0] == s[0];
        assert t[lead..] == t;
        var trail := TrailingSpaces(t);
        assert t[|s| - 1] == s[|s| - 1];
        assert trail == |t| - |s|;
      }
    }
  }

  // ---------------------------------------------------------------------------
  // The file store

  /** What `get_decrypted_cookie_data` returns against the files `files`:
      open the key file, build the cipher, decrypt and strip. `encryptedData`
      is None when the cookie was not sent. */
  function DecryptedCookie(p: Primitives, files: map<string, string>, clientId: string,
                           encryptedData: Option<string>): (r: Result<string, Fault>)
    ensures var path := KeyPath(GetClientIdHash(p, clientId));
      && (path !in files ==> r == Failure(MissingFile(path)))
      && (path in files && !AesKeyLength(|files[path]|) ==> r == Failure(CipherRejected))
      && (path in files && AesKeyLength(|files[path]|) ==>
            && (encryptedData.None? ==> r == Failure(MissingCookie("data")))
            && (encryptedData.Some? && |encryptedData.value| % BLOCK_SIZE != 0 ==>
                  r == Failure(CipherRejected)))
    ensures r.Success? ==> encryptedData.Some? && NoOuterWhitespace(r.value)
  {
    var path := KeyPath(GetClientIdHash(p, clientId));
    if path !in files then Failure(MissingFile(path))
    else if !AesKeyLength(|files[path]|) then Failure(CipherRejected)
    else
      match encryptedData
      case None => Failure(MissingCookie("data"))
      case Some(data) =>
        if |data| % BLOCK_SIZE != 0 then Failure(CipherRejected)
        else Success(Strip(p.aesDecrypt(files[path], AES_IV, data)))
  }

  /** What `save_gce_credentials` makes of the files `files`: the new files, or
      the exception. Only the credentials file of `clientId` can change. */
  function SavedCredentials(p: Primitives, flow: OAuthFlow, files: map<string, string>,
                            clientId: string, code: string): (r: Result<map<string, string>, Fault>)
    ensures SecretsPath(GetClientIdHash(p, clientId)) !in files ==>
      r == Failure(MissingFile(SecretsPath(GetClientIdHash(p, clientId))))
    ensures r.Failure? ==> r.error == OAuthFailed || r.error == MissingFile(SecretsPath(GetClientIdHash(p, clientId)))
    ensures r.Success? ==>
      && r.value.Keys == files.Keys + {CredentialsPath(clientId)}
      && (forall path :: path in files && path != CredentialsPath(clientId) ==> r.value[path] == files[path])
  {
    var secretsPath := SecretsPath(GetClientIdHash(p, clientId));
    if secretsPath !in files then Failure(MissingFile(secretsPath))
    else
      match flow.exchange(files[secretsPath], GCE_SCOPE, GCE_REDIRECT_URI, code)
      case None => Failure(OAuthFailed)
      case Some(credentials) => Success(files[CredentialsPath(clientId) := credentials])
  }

  /** Writing the key and decrypting against it recover the data, when the
      data has no outer whitespace and the key is a 32-byte random string. */
  lemma CookieRoundTrip(p: Primitives, files: map<string, string>, clientId: string,
                        key: string, data: string)
    requires Sound(p) && |key| == 32 && NoOuterWhitespace(data)
    ensures DecryptedCookie(p, files[KeyPath(GetClientIdHash(p, clientId)) := key], clientId,
                            Some(p.aesEncrypt(key, AES_IV, PadCookieData(data)))) == Success(data)
  {
    StripPadded(data);
  }

  /** Deleting or writing credentials files and secrets files never changes
      what a cookie decrypts to. */
  lemma DecryptedCookieFrame(p: Primitives, files: map<string, string>, clientId: string,
                             other: string, contents: string, encryptedData: Option<string>)
    requires Sound(p)
    ensures DecryptedCookie(p, files - {CredentialsPath(other)}, clientId, encryptedData)
         == DecryptedCookie(p, files, clientId, encryptedData)
    ensures DecryptedCookie(p, files[CredentialsPath(other) := contents], clientId, encryptedData)
         == DecryptedCookie(p, files, clientId, encryptedData)
    ensures DecryptedCookie(p, files[SecretsPath(GetClientIdHash(p, other)) := contents], clientId, encryptedData)
         == DecryptedCookie(p, files, clientId, encryptedData)
  {
    VaultPathsDisjoint(GetClientIdHash(p, clientId), GetClientIdHash(p, other), other);
  }

  /** Under a sound hash, no client's cookie key, secrets document and
      credentials ever share a path. */
  lemma HashedPathsDisjoint(p: Primitives, a: string, b: string)
    requires Sound(p)
    ensures KeyPath(GetClientIdHash(p, a)) != SecretsPath(GetClientIdHash(p, b))
    ensures CredentialsPath(b) != KeyPath(GetClientIdHash(p, a))
    ensures CredentialsPath(b) != SecretsPath(GetClientIdHash(p, a))
  {
    VaultPathsDisjoint(GetClientIdHash(p, a), GetClientIdHash(p, b), b);
  }

  /** The files under `.data/`, as path to contents. */
  class FileStore {
    var files: map<string, string>

    constructor ()
      ensures files == map[]
    {
      files := map[];
    }

    /** `delete_old_credentials`: remove the credentials file if there is one. */
    method DeleteOldCredentials(clientId: string)
      modifies this
      ensures files == old(files) - {CredentialsPath(clientId)}
    {
      files := files - {CredentialsPath(clientId)};
    }

    /** `create_client_secrets_file`: store the document verbatim, return its path. */
    method CreateClientSecretsFile(p: Primitives, clientId: string, clientSecrets: string)
      returns (path: string)
      modifies this
      ensures path == SecretsPath(GetClientIdHash(p, clientId))
      ensures files == old(files)[path := clientSecrets]
    {
      var clientIdHash := GetClientIdHash(p, clientId);
      path := SecretsPath(clientIdHash);
      files := files[path := clientSecrets];
    }

    /** `save_gce_credentials`: build the flow from the stored secrets, exchange
        the code and store the credentials under the client id. */
    method SaveGceCredentials(p: Primitives, flow: OAuthFlow, clientId: string, code: string)
      returns (outcome: Outcome<Fault>)
      modifies this
      ensures match SavedCredentials(p, flow, old(files), clientId, code)
        case Success(after) => outcome == Pass && files == after
        case Failure(e) => outcome == Fail(e) && files == old(files)
    {
      var clientIdHash := GetClientIdHash(p, clientId);
      var secretsLocation := SecretsPath(clientIdHash);
      if secretsLocation !in files {
        return Fail(MissingFile(secretsLocation));
      }
      var credentials := flow.exchange(files[secretsLocation], GCE_SCOPE, GCE_REDIRECT_URI, code);
      if credentials.None? {
        return Fail(OAuthFailed);
      }
      files := files[CredentialsPath(clientId) := credentials.value];
      outcome := Pass;
    }

    /** `get_encrypted_cookie_data`: store a fresh key (overwriting any earlier
        one) and encrypt the padded data under it. `encryptionKey` stands for
        `str(os.urandom(32))`. */
    method GetEncryptedCookieData(p: Primitives, clientId: string, cookieData: string,
                                  encryptionKey: string)
      returns (cipherText: string)
      requires |encryptionKey| == 32
      modifies this
      ensures files == old(files)[KeyPath(GetClientIdHash(p, clientId)) := encryptionKey]
      ensures cipherText == p.aesEncrypt(encryptionKey, AES_IV, PadCookieData(cookieData))
    {
      var clientIdHash := GetClientIdHash(p, clientId);
      var fileName := KeyPath(clientIdHash);
      files := files[fileName := encryptionKey];
      cipherText := p.aesEncrypt(encryptionKey, AES_IV, PadCookieData(cookieData));
    }

    /** `get_decrypted_cookie_data`: read the stored key, decrypt and strip. */
    method GetDecryptedCookieData(p: Primitives, clientId: string, encryptedData: Option<string>)
      returns (plaintext: Result<string, Fault>)
      ensures plaintext == DecryptedCookie(p, files, clientId, encryptedData)
      ensures KeyPath(GetClientIdHash(p, clientId)) !in files ==>
                plaintext == Failure(MissingFile(KeyPath(GetClientIdHash(p, clientId))))
    {
      var clientIdHash := GetClientIdHash(p, clientId);
      var fileName := KeyPath(clientIdHash);
      if fileName !in files {
        return Failure(MissingFile(fileName));
      }
      var decryptKey := files[fileName];
      if !AesKeyLength(|decryptKey|) {
        return Failure(CipherRejected);
      }
      if encryptedData.None? {
        return Failure(MissingCookie("data"));
      }
      if |encryptedData.value| % BLOCK_SIZE != 0 {
        return Failure(CipherRejected);
      }
      plaintext := Success(Strip(p.aesDecrypt(decryptKey, AES_IV, encryptedData.value)));
    }

    /** `get_auth_server_uri`: parse the client id, store the secrets document
        and ask the flow for the authorization URL. */
    method GetAuthServerUri(p: Primitives, flow: OAuthFlow, clientSecrets: Json)
      returns (uri: Result<string, Fault>)
      modifies this
      ensures match GetClientIdFromClientSecrets(p, clientSecrets)
        case Failure(e) => uri == Failure(e) && files == old(files)
        case Success(clientId) =>
          && files == old(files)[SecretsPath(GetClientIdHash(p, clientId)) := clientSecrets.str]
          && uri == match flow.authorizeUrl(clientSecrets.str, GCE_SCOPE, GCE_REDIRECT_URI)
                    case None => Failure(OAuthFailed)
                    case Some(u) => Success(u)
    {
      var clientId := GetClientIdFromClientSecrets(p, clientSecrets);
      if clientId.Failure? {
        return Failure(clientId.error);
      }
      var location := CreateClientSecretsFile(p, clientId.value, clientSecrets.str);
      var authorizeUrl := flow.authorizeUrl(files[location], GCE_SCOPE, GCE_REDIRECT_URI);
      if authorizeUrl.None? {
        return Failure(OAuthFailed);
      }
      uri := Success(authorizeUrl.value);
    }
  }
}
