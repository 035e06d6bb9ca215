/** Properties of several handler and helper calls in sequence, proved from
    the contracts of the calls alone. */
module Scenarios {
  import opened Wrappers
  import opened Json
  import opened Text
  import opened Foreign
  import opened Helpers
  import opened Views

  /** A GCE submission survives the redirect: `start` sets exactly the `data`
      and `client_id` cookies, and a callback carrying them (after a successful
      code exchange) starts a simple deployment with the submitted fields. */
  method StashThenResume(registry: Registry, store: FileStore, p: Primitives, flow: OAuthFlow,
                         post: map<string, string>, uuid1: string, uuid2: string,
                         encryptionKey: string, code: string)
    returns (redirect: Response, started: Response)
    requires registry.Valid() && Sound(p) && |encryptionKey| == 32
    requires StartPlan(post, GenerateKeyname(uuid1)) == StashForGce
    requires GetClientIdFromClientSecrets(p, FormValue(post, "gceCredentials")).Success?
    requires flow.authorizeUrl(FormValue(post, "gceCredentials").str, GCE_SCOPE, GCE_REDIRECT_URI).Some?
    requires flow.exchange(FormValue(post, "gceCredentials").str, GCE_SCOPE, GCE_REDIRECT_URI, code).Some?
    requires FormValue(post, "deployment_type") == JString(SIMPLE_DEPLOYMENT)
    modifies registry, store
    ensures registry.Valid()
    ensures redirect.Redirect? && redirect.cookies.Keys == {"data", "client_id"}
    ensures redirect.cookies["client_id"] == GetClientIdFromClientSecrets(p, FormValue(post, "gceCredentials")).value
    ensures started == Rendered(APPSCALE_STARTED_HTML_FILE_PATH, GenerateKeyname(uuid2))
    ensures var keyname := GenerateKeyname(uuid2);
      var clientId := GetClientIdFromClientSecrets(p, FormValue(post, "gceCredentials")).value;
      && registry.deployments == old(registry.deployments)[keyname := GceJob(StashedForm(post), keyname, CredentialsPath(clientId))]
      && registry.deployments[keyname].launch.email == FormValue(post, "admin_email")
      && registry.deployments[keyname].launch.nodes == NodeCount(FormValue(post, "max"), FormValue(post, "max"))
    ensures registry.terminations == old(registry.terminations)
  {
    var clientId := GetClientIdFromClientSecrets(p, FormValue(post, "gceCredentials")).value;
    var before := store.files;
    redirect := registry.Start(Request("POST", map[], post, map[]), store, p, flow, uuid1, encryptionKey);
    StashedCookieDecrypts(p, flow, post, encryptionKey, before, store.files, redirect, code);
    ResumeStashedForm(StashedForm(post), GenerateKeyname(uuid2), CredentialsPath(clientId));
    started := registry.OAuth2Callback(Request("GET", map["code" := code], map[], redirect.cookies),
                                       store, p, flow, uuid2);
  }

  /** After the stash, a successful code exchange keeps the key file, so the
      `data` cookie decrypts to the stashed record's text. */
  lemma StashedCookieDecrypts(p: Primitives, flow: OAuthFlow, post: map<string, string>,
                              encryptionKey: string, before: map<string, string>,
                              after: map<string, string>, response: Response, code: string)
    requires Sound(p) && |encryptionKey| == 32
    requires Stashed(p, flow, post, encryptionKey, before, after, response)
    requires GetClientIdFromClientSecrets(p, FormValue(post, "gceCredentials")).Success?
    requires flow.authorizeUrl(FormValue(post, "gceCredentials").str, GCE_SCOPE, GCE_REDIRECT_URI).Some?
    requires flow.exchange(FormValue(post, "gceCredentials").str, GCE_SCOPE, GCE_REDIRECT_URI, code).Some?
    ensures response.Redirect? && response.cookies.Keys == {"data", "client_id"}
    ensures var clientId := GetClientIdFromClientSecrets(p, FormValue(post, "gceCredentials")).value;
      var saved := SavedCredentials(p, flow, after, clientId, code);
      && response.cookies["client_id"] == clientId
      && saved.Success?
      && DecryptedCookie(p, saved.value, clientId, Some(response.cookies["data"]))
         == Success(GetFormDataAsJsonString(p, StashedForm(post)))
  {
    var clientSecrets := FormValue(post, "gceCredentials");
    var clientId := GetClientIdFromClientSecrets(p, clientSecrets).value;
    var clientIdHash := GetClientIdHash(p, clientId);
    var withSecrets := (before - {CredentialsPath(clientId)})[SecretsPath(clientIdHash) := clientSecrets.str];
    HashedPathsDisjoint(p, clientId, clientId);
    assert after == withSecrets[KeyPath(clientIdHash) := encryptionKey];
    assert after[SecretsPath(clientIdHash)] == clientSecrets.str;
    var credentials := flow.exchange(clientSecrets.str, GCE_SCOPE, GCE_REDIRECT_URI, code).value;
    var saved := after[CredentialsPath(clientId) := credentials];
    assert SavedCredentials(p, flow, after, clientId, code) == Success(saved);
    var data := GetFormDataAsJsonString(p, StashedForm(post));
    CookieRoundTrip(p, withSecrets, clientId, encryptionKey, data);
    DecryptedCookieFrame(p, after, clientId, clientId, credentials, Some(response.cookies["data"]));
  }

  /** Two encryptions for one client id: the stored key is the second one, so
      the second cookie decrypts to its data and the first cookie is decrypted
      under the second key. */
  method EncryptTwice(store: FileStore, p: Primitives, clientId: string,
                      data1: string, data2: string, key1: string, key2: string)
    returns (cookie1: string, cookie2: string)
    requires Sound(p) && |key1| == 32 && |key2| == 32 && NoOuterWhitespace(data2)
    modifies store
    ensures store.files == old(store.files)[KeyPath(GetClientIdHash(p, clientId)) := key2]
    ensures DecryptedCookie(p, store.files, clientId, Some(cookie2)) == Success(data2)
    ensures DecryptedCookie(p, store.files, clientId, Some(cookie1))
         == Success(Strip(p.aesDecrypt(key2, AES_IV, cookie1)))
  {
    cookie1 := store.GetEncryptedCookieData(p, clientId, data1, key1);
    cookie2 := store.GetEncryptedCookieData(p, clientId, data2, key2);
    CookieRoundTrip(p, old(store.files), clientId, key2, data2);
    assert store.files == old(store.files)[KeyPath(GetClientIdHash(p, clientId)) := key2];
  }

  /** Deleting credentials twice is deleting them once, and deleting absent
      credentials changes nothing. */
  method DeleteTwice(store: FileStore, clientId: string)
    modifies store
    ensures store.files == old(store.files) - {CredentialsPath(clientId)}
    ensures CredentialsPath(clientId) !in old(store.files) ==> store.files == old(store.files)
  {
    store.DeleteOldCredentials(clientId);
    store.DeleteOldCredentials(clientId);
  }

  /** On a fresh registry every status poll and every termination names an
      unknown keyname. */
  method FreshRegistry(keyname: string, getStatus: Job -> Json)
    returns (deployment: Response, termination: Response, terminate: Response)
    ensures deployment == JsonReply(ErrorMessage(UnknownKeynameMessage(keyname)))
    ensures termination == JsonReply(ErrorMessage(UnknownKeynameMessage(keyname)))
    ensures terminate == ServerError(UNKNOWN_KEYNAME_TO_TERMINATE)
  {
    var registry := new Registry();
    var request := Request("GET", map["keyname" := keyname], map[], map[]);
    deployment := registry.GetDeploymentStatus(request, getStatus);
    termination := registry.GetTerminationStatus(request, getStatus);
    terminate := registry.Terminate(request);
  }

  /** A keyname that was only deployed is unknown to the termination poll until
      it is terminated, and known afterwards. */
  method TerminateThenPoll(registry: Registry, keyname: string, getStatus: Job -> Json)
    returns (before: Response, terminate: Response, after: Response)
    requires registry.Valid()
    requires keyname in registry.deployments && keyname !in registry.terminations
    modifies registry
    ensures before == JsonReply(ErrorMessage(UnknownKeynameMessage(keyname)))
    ensures terminate == Rendered(TERMINATE_HTML_FILE_PATH, keyname)
    ensures after == JsonReply(getStatus(TearDownJob(old(registry.deployments)[keyname], keyname)))
  {
    var request := Request("GET", map["keyname" := keyname], map[], map[]);
    before := registry.GetTerminationStatus(request, getStatus);
    terminate := registry.Terminate(request);
    after := registry.GetTerminationStatus(request, getStatus);
  }
}
