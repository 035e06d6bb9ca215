# AppsCake front-end core in Dafny

AppsCake is a Django front-end that starts and stops AppScale deployments.
This project models two pieces of it.

The first piece is the pair of in-memory job registries. `DEPLOYMENT_THREADS`
holds bring-up threads and `TERMINATING_THREADS` holds tear-down threads, each
keyed by keyname. Five request handlers work on them:

- `start` chooses a cluster or a cloud deployment and a simple or advanced
  strategy. For GCE it redirects to Google's OAuth2 server instead of
  registering anything.
- `oauth2_callback` recovers the stashed form once the user comes back, then
  starts the deployment.
- `terminate` starts a tear-down for a deployed keyname.
- `get_deployment_status` and `get_termination_status` only look things up.

The second piece is the cookie handoff that carries a GCE submission across
the redirect. The helpers hash the OAuth2 client id with SHA-1 to name files
under `.data/`. They store the client-secrets document and a fresh AES key in
those files. The form record is serialised to JSON, padded with spaces to the
AES block size and encrypted. The callback reads the key back, decrypts,
strips the padding and parses the record.

Modules:

- `Wrappers`: Option, Result and Outcome.
- `Json`: Python/JSON values, dict and list lookup, and truthiness.
- `Text`: whitespace and hex-digit character classes.
- `Foreign`: the opaque library calls and the only facts assumed of them.
  - SHA-1 yields 40 lower-case hex digits.
  - AES-CBC encryption keeps the length of block-aligned plaintext, and
    decryption under the same key and IV inverts it. This is assumed for a
    32-byte key and a 16-byte IV.
  - `json.loads` inverts `json.dumps`.
  - `json.dumps` never emits leading or trailing whitespace.
- `Helpers`: `src/helpers.py`. The pure helpers are functions. The file
  operations are methods of the class `FileStore`, whose `files` field maps a
  path to its contents.
- `Views`: `src/views.py`. The class `Registry` holds the two registries as
  `map<string, Job>` fields, and each handler is a method returning a
  `Response`. The dispatch decisions of `start` and of the callback are the
  pure functions `StartPlan` and `ResumePlan`.
- `Scenarios`: properties of several calls in a row, proved from the
  contracts alone.

Modelling choices:

- `uuid.uuid1()`, `os.urandom(32)` and the OAuth2 library calls are
  parameters.
- A thread's own `get_status` is a parameter `getStatus: Job -> Json` of the
  status handlers.
- An exception that escapes a handler is `Response.Raised(fault)`.
- `form[name].value()` is the POSTed value, or None. Which fields the Django
  form class declares is not modelled: `views.py` imports a `forms` module
  that is not part of this model. The `CommonFields` form of
  `appscake/forms.py` lacks several fields that `start` reads: `max`,
  `instance_type`, `root_pass`, `gceCredentials`, `gceProjectId` and
  `gceImageName`.
- A cookie that was not sent is None, as `request.COOKIES.get` returns it.

## Model

| member | source | states |
|---|---|---|
| `Helpers.RemoveDashes` | src/helpers.py:37 | The result has no `-`. |
| `Helpers.RemoveDashesConcat` | src/helpers.py:37 | Removing dashes distributes over concatenation, so the kept characters stay in their original order. |
| `Helpers.RemoveDashesAt` | src/helpers.py:37 | Everything before the first dash is kept as it is, and the dash itself is dropped. |
| `Helpers.RemoveDashesKeepsOthers` | src/helpers.py:37 | Every character other than `-` occurs in the result as often as in the input. |
| `Helpers.GenerateKeyname` | src/helpers.py:30-37 | The keyname starts with `a` and contains no dash. After the `a` it holds every non-dash character of the uuid text, as often as the uuid text does. |
| `Helpers.UuidGroups` | src/helpers.py:37 | Removing the dashes of a uuid text keeps its five groups, one after the other. |
| `Helpers.KeynameOfUuid` | src/helpers.py:30-37 | For a canonical 8-4-4-4-12 uuid text, the keyname is `a` followed by exactly 32 hex digits. Digit `k` of the keyname is the uuid's `k`-th digit, in order, skipping the dashes. |
| `Helpers.KeynameInjective` | src/helpers.py:30-37 | Two uuid texts that give the same keyname are equal. |
| `Helpers.GetClientIdHash` | src/helpers.py:163-166 | Under a sound SHA-1, the result is 40 lower-case hex digits. |
| `Helpers.VaultPathsDisjoint` | src/helpers.py:27 | When file names come from hex digests, the key file, the secrets file and the credentials file never share a path. |
| `Helpers.ClientPathsInjective` | src/helpers.py:27 | Each credentials, key or secrets path determines the client id or hash it was built from. |
| `Helpers.HashedPathsDisjoint` | src/helpers.py:163-166 | Under a sound SHA-1, no client's key path equals any client's secrets path or credentials path. |
| `Helpers.GetClientIdFromClientSecrets` | src/helpers.py:72-82 | Every failure is `MalformedSecrets`. It succeeds exactly when the secrets are a string that parses, has a `web` member with a `client_id` member, and that member is a string. The result is that string. |
| `Helpers.ClientIdRoundTrip` | src/helpers.py:80-82 | A secrets document `{"web": {"client_id": c, ...}}`, serialised with `json.dumps`, yields exactly `c`. |
| `Helpers.FormDataJson` | src/helpers.py:132-135 | The stashed form is a one-element list. Its record has exactly the eight field names. |
| `Helpers.GetFormDataAsJsonString` | src/helpers.py:126-137 | Under sound JSON primitives, the text parses back to exactly that list and has no outer whitespace. |
| `Helpers.PadCookieData` | src/helpers.py:139-142 | The length is a multiple of 16. Between 1 and 16 characters are added, all of them spaces. The input is a prefix. Aligned input gains a full 16-space block. |
| `Helpers.LeadingSpaces` | src/helpers.py:103 | Counts exactly the leading whitespace. |
| `Helpers.TrailingSpaces` | src/helpers.py:103 | Counts exactly the trailing whitespace. |
| `Helpers.Strip` | src/helpers.py:103 | The result has no outer whitespace and is no longer than the input. Input without outer whitespace is returned unchanged. |
| `Helpers.StripPadded` | src/helpers.py:102-103 | Stripping padded data gives the data back if and only if the data has no leading or trailing whitespace. |
| `Helpers.DecryptedCookie` | src/helpers.py:85-103 | An absent key file is `MissingFile` of the key path. A key that is not 16, 24 or 32 characters is `CipherRejected`. With a good key, a cookie that was not sent raises `MissingCookie("data")`, and an unaligned ciphertext is `CipherRejected`. A success means the cookie was sent, and the result has no outer whitespace. |
| `Helpers.SavedCredentials` | src/helpers.py:53-69 | An absent secrets file is `MissingFile` of the secrets path. The only other failure is `OAuthFailed`. A success adds or replaces the client's credentials file and leaves every other file as it was. |
| `Helpers.CookieRoundTrip` | src/helpers.py:116-123 | Storing a fresh 32-byte key and encrypting the padded data under it, then decrypting for the same client id, returns the data. This holds when the data has no outer whitespace. |
| `Helpers.DecryptedCookieFrame` | src/helpers.py:96-99 | Deleting or writing any credentials file, or writing any secrets file, does not change what a cookie decrypts to. |
| `Helpers.FileStore.DeleteOldCredentials` | src/helpers.py:40-50 | Removes only `.data/.credentials-<client_id>.dat`. An absent file is no error and the store is unchanged. |
| `Helpers.FileStore.CreateClientSecretsFile` | src/helpers.py:154-160 | Stores the secrets verbatim. Returns `.data/.<hash>_secrets.json`, the path the flow is later built from. |
| `Helpers.FileStore.SaveGceCredentials` | src/helpers.py:53-69 | Reads the secrets file at the hashed path: missing is an error. Exchanges the code with the fixed scope and callback address: failure is an error. Then writes the credentials to `GCE_OAUTH_FILE % client_id`. Nothing changes on error. |
| `Helpers.FileStore.GetEncryptedCookieData` | src/helpers.py:106-124 | Overwrites `.data/.<hash>_crypt.txt` with the fresh key and nothing else. Returns the encryption of the padded data under that key and the fixed IV. |
| `Helpers.FileStore.GetDecryptedCookieData` | src/helpers.py:85-103 | Reads the key from that same path: absent is `MissingFile`. A bad key length is `CipherRejected`, then an absent cookie raises, then an unaligned ciphertext is `CipherRejected`. Otherwise it returns the stripped decryption under that key, which is `DecryptedCookie`. |
| `Helpers.FileStore.GetAuthServerUri` | src/helpers.py:145-152 | Parses the client id, then stores the secrets under its hash. Returns the authorization URL for the fixed scope and callback address, or the error of either step. |
| `Views.CookieValue` | src/views.py:156-161 | The cookie's value when it was sent, None otherwise. |
| `Views.FormValue` | src/views.py:231-252 | The posted value as a string when the field was posted, None otherwise. |
| `Views.Password` | src/views.py:232 | The admin password when it is truthy, otherwise the cloud admin password. |
| `Views.StashedForm` | src/views.py:249-264 | The stashed record holds the values posted as `admin_email`, the password, `max`, `deployment_type`, `instance_type`, `gceImageName`, `gceProjectId` and `gceCredentials`. |
| `Views.TearDownJob` | src/views.py:68-72 | The tear-down job has the given keyname. It copies the deployment type and the EC2 access, secret and URL of the bring-up job. |
| `Views.StartPlan` | src/views.py:228-314 | `cluster` is checked before `cloud`, and neither one is a rejection. A cloud submission with `gce` infrastructure exactly takes the redirect path. Other clouds are rejected exactly when the strategy is neither `simple` nor `advanced`; simple uses `max` for both node bounds. Each registered job carries the new keyname. A cluster job is registered and has no EC2 values. Any other registered job has type `cloud` and passes the posted EC2 key, secret and URL; a falsy URL becomes None. |
| `Views.ResumePlan` | src/views.py:163-208 | Only a simple deployment registers a job. That job is a GCE cloud bring-up under the new keyname, with the credentials-file location and no EC2 credentials. A rejection carries the strategy message. When the record holds all eight fields, `advanced` raises `UndefinedForm`, `simple` registers, and any other strategy is rejected. |
| `Views.ResumeStashedForm` | src/views.py:166-172 | The callback reads back exactly the fields `start` stashed. A simple form resumes as the GCE job built from them, an advanced one raises, and any other one is rejected. |
| `Views.StashAndRedirect` | src/views.py:254-267 | Deletes the old credentials, stores the secrets and a fresh key, and redirects with exactly the `data` and `client_id` cookies. Each failure raises, and a failure before the first write leaves the files unchanged. |
| `Views.Registry.constructor` | src/views.py:30-34 | Both registries start empty. |
| `Views.Registry.Terminate` | src/views.py:46-78 | A missing or unknown keyname is an error and changes nothing. Otherwise it adds exactly one tear-down job under the keyname. That job copies the deployment type and the EC2 access, secret and URL. The bring-up registry does not change. |
| `Views.Registry.GetDeploymentStatus` | src/views.py:101-126 | A request without a keyname gets the missing-keyname error. An absent keyname gets `Unknown keyname given k.` A present keyname gets that job's own status. |
| `Views.Registry.GetTerminationStatus` | src/views.py:128-149 | The same, against the tear-down registry only. |
| `Views.Registry.Start` | src/views.py:221-324 | A non-POST request is a 404 error. A registered plan adds exactly one entry under the job's keyname. A rejection changes nothing. The GCE path leaves both registries alone and has the `StashAndRedirect` effect on the files. |
| `Views.Registry.OAuth2Callback` | src/views.py:152-218 | A non-GET request is a 404 error. Otherwise it writes the credentials, then decrypts and parses the cookie, then registers the `ResumePlan` job under the new keyname. Each failure raises or returns an error without registering anything. |
| `Scenarios.StashThenResume` | src/views.py:254-267 | A GCE submission with a simple strategy redirects with exactly two cookies. A callback that carries them and exchanges its code successfully registers the job built from the submitted fields, including the email and the node bounds. |
| `Scenarios.StashedCookieDecrypts` | src/views.py:254-267 | After the stash sets its two cookies, a successful code exchange keeps the key file. The `data` cookie then decrypts to the stashed record's text. |
| `Scenarios.EncryptTwice` | src/helpers.py:116-121 | After two encryptions for one client id the stored key is the second one. The second cookie decrypts to its data, and the first cookie is decrypted under the second key. |
| `Scenarios.DeleteTwice` | src/helpers.py:47-50 | Deleting credentials twice equals deleting them once. Deleting absent credentials changes nothing. |
| `Scenarios.FreshRegistry` | src/views.py:30-34 | On empty registries, both polls and `terminate` report an unknown keyname. |
| `Scenarios.TerminateThenPoll` | src/views.py:143-147 | A keyname that is only deployed is unknown to the termination poll. After `terminate` the poll returns the tear-down job's status. |

## Left out

- Threads: starting the bring-up and tear-down threads and their execution are
  left out. `appscale_tools_thread` is not part of this model; a job is the
  record of its constructor arguments. It is assumed that the thread's
  `keyname` and `deployment_type` attributes are the first two constructor
  arguments.
- Concurrency: the registries are plain maps updated by one request at a time.
  Interleaved requests are not modelled.
- Cryptography and hashing: AES-CBC, SHA-1, `os.urandom` and `uuid1` are
  opaque. Nothing is claimed about decryption under a wrong key, because the
  source yields garbage there rather than an error. PyCrypto's length checks
  are modelled as `CipherRejected`. The key length is checked when the cipher
  is built, and the ciphertext alignment when decrypting.
- Helpers.FileStore.GetEncryptedCookieData: requires a 32-character key,
  because the key stands for `os.urandom(32)`. The padded plaintext is always
  aligned, so encryption never raises. `Views.StashAndRedirect` and
  `Views.Registry.Start` pass the same requirement on.
- Helpers.DecryptedCookie: padding is the source's space padding followed by
  `strip()`. A payload with leading or trailing whitespace does not survive.
  `Helpers.StripPadded` states exactly when the round trip holds. The JSON the
  source encrypts always qualifies.
- Helpers.GetClientIdFromClientSecrets: a client id that is not a string is
  rejected at once. The source would first delete a credentials file named
  after its text, then raise inside SHA-1.
- Views.Registry.OAuth2Callback: the fault labels are the model's. A missing
  `client_id` cookie is `MissingCookie("client_id")`; the source raises
  `TypeError` in the SHA-1 update. A missing `data` cookie is
  `MissingCookie("data")` once the key file has been read and the cipher
  built; the source raises `TypeError` in `decrypt`. The effects on the files
  and the registries are the source's.
- Views.ResumePlan: the advanced branch of the callback reads the undefined
  name `form`. It is modelled as raising (`UndefinedForm`) after the
  credentials file has been written. Its intended behaviour is not invented.
- The OAuth2 library is reduced to two functions:
  `step1_get_authorize_url` becomes `authorizeUrl` and `step2_exchange` becomes
  `exchange`. The credentials that `exchange` returns are what `Storage.put`
  writes to the credentials file. Only the files the library reads and writes
  are modelled.
- Helpers.GetClientIdHash: text is taken to be ASCII. Python 2 raises on a
  non-ASCII client id in `h.update` (src/helpers.py:165). In `start` that
  happens after the old credentials have been deleted, and the request fails.
  The model hashes any string.
- Helpers.FileStore.CreateClientSecretsFile: Python 2 raises in `write` on a
  secrets document that is not ASCII (src/helpers.py:158). The file has already
  been created or truncated by `open`, so an empty secrets file is left and
  there is no redirect. The model stores every document verbatim.
  `Views.Stashed` inherits both simplifications.
- Django: rendering, `HttpResponse*`, `simplejson`, cookie quoting, multiple
  values per query key, logging and `sys.path` setup are left out. The `home`
  and `about` pages are left out too; they only render templates.
- Form validation: Django validates fields through `appscake/forms.py`. It is
  declarative and not modelled.
- JSON numbers are integers only. No value in the model is a float.
- Text mode: reading a file returns exactly what was written. Binary key bytes
  are treated as characters.
