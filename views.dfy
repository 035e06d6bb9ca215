/** The request handlers of the web front-end: the two in-memory job
    registries, the status polls, termination, and the start and OAuth2
    callback dispatch, including the encrypted-cookie handoff around the
    redirect to the authorization server. */
module Views {
  import opened Wrappers
  import opened Json
  import opened Foreign
  import opened Helpers

  /** The two deployment types: machines the user lists, or machines the
      front-end asks an infrastructure provider for. */
  const CLUSTER_DEPLOY: string := "cluster"
  const CLOUD_DEPLOY: string := "cloud"
  /** How a cloud deployment places its nodes: a node count, or a layout the user gives. */
  const SIMPLE_DEPLOYMENT: string := "simple"
  const ADVANCE_DEPLOYMENT: string := "advanced"

  const TERMINATE_HTML_FILE_PATH: string := "base/terminate.html"
  const APPSCALE_STARTED_HTML_FILE_PATH: string := "base/start.html"

  const NO_KEYNAME_TO_TERMINATE: string := "Did not receive the keyname of the instances to terminate."
  const UNKNOWN_KEYNAME_TO_TERMINATE: string := "Unknown keyname of the instances to terminate."
  const MISSING_KEYNAME: string := "Bad JSON request (missing keyname)."
  const PAGE_NOT_FOUND: string := "404 Page not found"
  const NO_STRATEGY: string := "Unable to get the deployment strategy."
  const NO_CLOUD_TYPE: string := "Unable to figure out the type of cloud deployment."

  function UnknownKeynameMessage(keyname: string): string
  {
    "Unknown keyname given " + keyname + "."
  }

  /** `{'status': 'error', 'error_message': message}` */
  function ErrorMessage(message: string): Json
  {
    JObject(map["status" := JString("error"), "error_message" := JString(message)])
  }

  /** The parts of a Django request the handlers look at. */
  datatype Request = Request(
    verb: string,                 // request.method
    get: map<string, string>,
    post: map<string, string>,
    cookies: map<string, string>)

  /** What a handler hands back to Django. */
  datatype Response =
    | Rendered(template: string, keyname: string)       // render(request, template, {'keyname': keyname})
    | JsonReply(body: Json)                             // HttpResponse(simplejson.dumps(message))
    | ServerError(message: string)                      // HttpResponseServerError(message)
    | Redirect(location: string, cookies: map<string, string>)
    | Raised(fault: Fault)                              // an exception escapes the handler

  datatype Placement = Simple | Advanced

  datatype Nodes =
    | IpsLayout(ipsYaml: Json)
    | NodeCount(minNodes: Json, maxNodes: Json)

  datatype GceAccess = GceAccess(oauth2Location: string, projectId: Json)

  /** The arguments a job thread is constructed with. */
  datatype Launch =
    | TearDown
    | ClusterUp(email: Json, password: Json, ipsYaml: Json, rootPass: Json)
    | CloudUp(email: Json, password: Json, placement: Placement, machine: Json,
              instanceType: Json, infrastructure: Json, nodes: Nodes, gce: Option<GceAccess>)

  /** A bring-up or tear-down thread: its deployment type (the first constructor
      argument), its keyname, the EC2 credentials a tear-down copies (None where
      the constructor was not given them), and its other arguments. Its running
      status is foreign and is queried by the status handlers. */
  datatype Job = Job(
    deploymentType: string,
    keyname: string,
    ec2Access: Option<Json>,
    ec2Secret: Option<Json>,
    ec2Url: Option<Json>,
    launch: Launch)

  /** The tear-down thread `terminate` builds from a bring-up thread. */
  function TearDownJob(up: Job, keyname: string): (down: Job)
    ensures down.keyname == keyname && down.launch == TearDown
    ensures down.deploymentType == up.deploymentType
    ensures down.ec2Access == up.ec2Access && down.ec2Secret == up.ec2Secret && down.ec2Url == up.ec2Url
  {
    Job(up.deploymentType, keyname, up.ec2Access, up.ec2Secret, up.ec2Url, TearDown)
  }

  // ---------------------------------------------------------------------------
  // Reading the submitted form

  /** `request.COOKIES.get(name)`: the cookie, or None when it was not sent. */
  function CookieValue(cookies: map<string, string>, name: string): (r: Option<string>)
    ensures r.Some? <==> name in cookies
    ensures r.Some? ==> r.value == cookies[name]
  {
    if name in cookies then Some(cookies[name]) else None
  }

  /** `form[name].value()`: the posted value, or None. */
  function FormValue(post: map<string, string>, name: string): (v: Json)
    ensures v != JNull <==> name in post
    ensures name in post ==> v == JString(post[name])
  {
    if name in post then JString(post[name]) else JNull
  }

  /** `form['admin_pass'].value() or form['cloud_admin_pass'].value()` */
  function Password(post: map<string, string>): (v: Json)
    ensures Truthy(FormValue(post, "admin_pass")) ==> v == FormValue(post, "admin_pass")
    ensures !Truthy(FormValue(post, "admin_pass")) ==> v == FormValue(post, "cloud_admin_pass")
  {
    Or(FormValue(post, "admin_pass"), FormValue(post, "cloud_admin_pass"))
  }

  /** The record `start` stashes in the cookie before the GCE redirect. */
  function StashedForm(post: map<string, string>): (f: FormData)
    ensures f.email == FormValue(post, "admin_email") && f.password == Password(post)
    ensures f.maxNodes == FormValue(post, "max") && f.deploymentType == FormValue(post, "deployment_type")
    ensures f.instanceType == FormValue(post, "instance_type")
    ensures f.gceImageName == FormValue(post, "gceImageName") && f.project == FormValue(post, "gceProjectId")
    ensures f.clientSecrets == FormValue(post, "gceCredentials")
  {
    FormData(FormValue(post, "admin_email"), Password(post), FormValue(post, "max"),
             FormValue(post, "deployment_type"), FormValue(post, "instance_type"),
             FormValue(post, "gceImageName"), FormValue(post, "gceProjectId"),
             FormValue(post, "gceCredentials"))
  }

  /** What a handler decides to do once the request has been read. */
  datatype Plan =
    | Register(job: Job)
    | Reject(message: string)
    | Crash(fault: Fault)
    | StashForGce

  /** The dispatch of `start` on a POST: cluster before cloud, GCE redirects,
      other clouds take the simple or advanced strategy or are rejected. */
  function StartPlan(post: map<string, string>, keyname: string): (plan: Plan)
    ensures !plan.Crash?
    ensures plan.Register? ==> plan.job.keyname == keyname && !plan.job.launch.TearDown?
    ensures "cluster" !in post && plan.Register? ==> plan.job.deploymentType == CLOUD_DEPLOY
    ensures "cluster" in post ==>
      plan.Register? && plan.job.ec2Access.None? && plan.job.ec2Secret.None? && plan.job.ec2Url.None?
    ensures "cluster" in post ==>
      plan.Register? && plan.job.deploymentType == CLUSTER_DEPLOY && plan.job.launch.ClusterUp?
    ensures "cluster" !in post && "cloud" !in post ==> plan == Reject(NO_CLOUD_TYPE)
    ensures "cluster" !in post && "cloud" in post ==>
      (plan.StashForGce? <==> FormValue(post, "infrastructure") == JString("gce"))
    ensures "cluster" !in post && "cloud" in post && FormValue(post, "infrastructure") != JString("gce") ==>
      (plan.Reject? <==>
         FormValue(post, "deployment_type") !in {JString(SIMPLE_DEPLOYMENT), JString(ADVANCE_DEPLOYMENT)})
    ensures plan.Register? && plan.job.deploymentType == CLOUD_DEPLOY ==>
      && plan.job.launch.CloudUp?
      && plan.job.launch.gce.None?
      && plan.job.ec2Access == Some(FormValue(post, "key"))
      && plan.job.ec2Secret == Some(FormValue(post, "secret"))
      && plan.job.ec2Url == Some(if Truthy(FormValue(post, "ec2_euca_url")) then FormValue(post, "ec2_euca_url") else JNull)
      && (plan.job.launch.placement == Simple <==>
            FormValue(post, "deployment_type") == JString(SIMPLE_DEPLOYMENT))
      && (plan.job.launch.placement == Simple ==>
            plan.job.launch.nodes == NodeCount(FormValue(post, "max"), FormValue(post, "max")))
  {
    var email := FormValue(post, "admin_email");
    var password := Password(post);
    if "cluster" in post then
      Register(Job(CLUSTER_DEPLOY, keyname, None, None, None,
                   ClusterUp(email, password, FormValue(post, "ips_yaml"), FormValue(post, "root_pass"))))
    else if "cloud" in post then
      if FormValue(post, "infrastructure") == JString("gce") then StashForGce
      else
        var deploymentType := FormValue(post, "deployment_type");
        var ec2Url := FormValue(post, "ec2_euca_url");
        var url := if Truthy(ec2Url) then ec2Url else JNull;
        var maxNodes := FormValue(post, "max");
        var placement :=
          if deploymentType == JString(ADVANCE_DEPLOYMENT) then Some((Advanced, IpsLayout(FormValue(post, "ips_yaml"))))
          else if deploymentType == JString(SIMPLE_DEPLOYMENT) then Some((Simple, NodeCount(maxNodes, maxNodes)))
          else None;
        if placement.None? then Reject(NO_STRATEGY)
        else
          Register(Job(CLOUD_DEPLOY, keyname,
                       Some(FormValue(post, "key")), Some(FormValue(post, "secret")), Some(url),
                       CloudUp(email, password, placement.value.0, FormValue(post, "machine"),
                               FormValue(post, "instance_type"), FormValue(post, "infrastructure"),
                               placement.value.1, None)))
    else Reject(NO_CLOUD_TYPE)
  }

  /** `json_data[0][name]` on the decrypted cookie. */
  function StashedField(jsonData: Json, name: string): Option<Json>
  {
    match Element(jsonData, 0)
    case None => None
    case Some(record) => Member(record, name)
  }

  /** The dispatch of `oauth2_callback` once the cookie is decrypted and parsed:
      read the fields back, then start a simple GCE deployment; the advanced
      branch names an undefined `form` and raises. */
  function ResumePlan(jsonData: Json, keyname: string, oauth2Location: string): (plan: Plan)
    ensures !plan.StashForGce?
    ensures plan.Register? ==>
      && plan.job.keyname == keyname
      && plan.job.deploymentType == CLOUD_DEPLOY
      && plan.job.ec2Access.None? && plan.job.ec2Secret.None? && plan.job.ec2Url.None?
      && plan.job.launch.CloudUp?
      && plan.job.launch.placement == Simple
      && plan.job.launch.infrastructure == JString("gce")
      && plan.job.launch.gce.Some?
      && plan.job.launch.gce.value.oauth2Location == oauth2Location
      && StashedField(jsonData, "deployment_type") == Some(JString(SIMPLE_DEPLOYMENT))
    ensures plan.Reject? ==> plan.message == NO_STRATEGY
    ensures (forall name :: name in FORM_FIELDS ==> StashedField(jsonData, name).Some?) ==>
      var deploymentType := StashedField(jsonData, "deployment_type").value;
      && (deploymentType == JString(ADVANCE_DEPLOYMENT) ==> plan == Crash(UndefinedForm))
      && (deploymentType == JString(SIMPLE_DEPLOYMENT) ==> plan.Register?)
      && (deploymentType !in {JString(SIMPLE_DEPLOYMENT), JString(ADVANCE_DEPLOYMENT)} ==>
            plan == Reject(NO_STRATEGY))
  {
    var email := StashedField(jsonData, "email");
    var password := StashedField(jsonData, "password");
    var deploymentType := StashedField(jsonData, "deployment_type");
    var instanceType := StashedField(jsonData, "instance_type");
    var clientSecrets := StashedField(jsonData, "client_secrets");
    var gceImageName := StashedField(jsonData, "gce_image_name");
    var project := StashedField(jsonData, "project");
    if email.None? || password.None? || deploymentType.None? || instanceType.None?
       || clientSecrets.None? || gceImageName.None? || project.None? then
      Crash(MalformedFormData)
    else if deploymentType.value == JString(ADVANCE_DEPLOYMENT) then
      Crash(UndefinedForm)
    else if deploymentType.value == JString(SIMPLE_DEPLOYMENT) then
      match StashedField(jsonData, "max_nodes")
      case None => Crash(MalformedFormData)
      case Some(maxNodes) =>
        Register(Job(CLOUD_DEPLOY, keyname, None, None, None,
                     CloudUp(email.value, password.value, Simple, gceImageName.value,
                             instanceType.value, JString("gce"), NodeCount(maxNodes, maxNodes),
                             Some(GceAccess(oauth2Location, project.value)))))
    else
      Reject(NO_STRATEGY)
  }

  /** The GCE bring-up the callback starts from a stashed form. */
  function GceJob(f: FormData, keyname: string, oauth2Location: string): Job
  {
    Job(CLOUD_DEPLOY, keyname, None, None, None,
        CloudUp(f.email, f.password, Simple, f.gceImageName, f.instanceType, JString("gce"),
                NodeCount(f.maxNodes, f.maxNodes), Some(GceAccess(oauth2Location, f.project))))
  }

  /** The callback reads back exactly the fields `start` stashed: a simple
      deployment resumes with them, an advanced one raises, any other
      strategy is rejected. */
  lemma ResumeStashedForm(f: FormData, keyname: string, oauth2Location: string)
    ensures f.deploymentType == JString(SIMPLE_DEPLOYMENT) ==>
      ResumePlan(FormDataJson(f), keyname, oauth2Location) == Register(GceJob(f, keyname, oauth2Location))
    ensures f.deploymentType == JString(ADVANCE_DEPLOYMENT) ==>
      ResumePlan(FormDataJson(f), keyname, oauth2Location) == Crash(UndefinedForm)
    ensures f.deploymentType !in {JString(SIMPLE_DEPLOYMENT), JString(ADVANCE_DEPLOYMENT)} ==>
      ResumePlan(FormDataJson(f), keyname, oauth2Location) == Reject(NO_STRATEGY)
  {
    var j := FormDataJson(f);
    forall name | name in FORM_FIELDS ensures StashedField(j, name) == Some(j.items[0].members[name]) {
    }
  }

  // ---------------------------------------------------------------------------
  // The GCE stash and the callback, as relations between old and new files

  /** The effect of the GCE branch of `start`: parse the client id, delete its
      old credentials, store the secrets, obtain the authorization URL, store a
      fresh cookie key and redirect with the `data` and `client_id` cookies. */
  ghost predicate Stashed(p: Primitives, flow: OAuthFlow, post: map<string, string>,
                          encryptionKey: string, before: map<string, string>,
                          after: map<string, string>, response: Response)
  {
    var clientSecrets := FormValue(post, "gceCredentials");
    match GetClientIdFromClientSecrets(p, clientSecrets)
    case Failure(e) => response == Raised(e) && after == before
    case Success(clientId) =>
      var clientIdHash := GetClientIdHash(p, clientId);
      var withSecrets := (before - {CredentialsPath(clientId)})[SecretsPath(clientIdHash) := clientSecrets.str];
      match flow.authorizeUrl(clientSecrets.str, GCE_SCOPE, GCE_REDIRECT_URI)
      case None => response == Raised(OAuthFailed) && after == withSecrets
      case Some(uri) =>
        && after == withSecrets[KeyPath(clientIdHash) := encryptionKey]
        && response == Redirect(uri, map[
             "data" := p.aesEncrypt(encryptionKey, AES_IV,
                                    PadCookieData(GetFormDataAsJsonString(p, StashedForm(post)))),
             "client_id" := clientId])
  }

  /** The effect of a GET on `oauth2_callback` on the files and the bring-up registry. */
  ghost predicate Resumed(p: Primitives, flow: OAuthFlow, request: Request, keyname: string,
                          filesBefore: map<string, string>, filesAfter: map<string, string>,
                          before: map<string, Job>, after: map<string, Job>, response: Response)
  {
    if "client_id" !in request.cookies then
      response == Raised(MissingCookie("client_id")) && filesAfter == filesBefore && after == before
    else
      var clientId := request.cookies["client_id"];
      var code := if "code" in request.get then request.get["code"] else "";
      match SavedCredentials(p, flow, filesBefore, clientId, code)
      case Failure(e) => response == Raised(e) && filesAfter == filesBefore && after == before
      case Success(saved) =>
        && filesAfter == saved
        && match DecryptedCookie(p, saved, clientId, CookieValue(request.cookies, "data"))
           case Failure(e) => response == Raised(e) && after == before
           case Success(formData) =>
             match p.loads(formData)
             case None => response == Raised(MalformedFormData) && after == before
             case Some(jsonData) =>
               match ResumePlan(jsonData, keyname, CredentialsPath(clientId))
               case Register(job) =>
                 response == Rendered(APPSCALE_STARTED_HTML_FILE_PATH, keyname) && after == before[keyname := job]
               case Reject(message) => response == ServerError(message) && after == before
               case Crash(fault) => response == Raised(fault) && after == before
               case StashForGce => false
  }

  /** The GCE branch of `start` (it never touches the registries). */
  method StashAndRedirect(post: map<string, string>, store: FileStore, p: Primitives,
                          flow: OAuthFlow, encryptionKey: string)
    returns (response: Response)
    requires |encryptionKey| == 32
    modifies store
    ensures Stashed(p, flow, post, encryptionKey, old(store.files), store.files, response)
  {
    var clientSecrets := FormValue(post, "gceCredentials");
    var clientId := GetClientIdFromClientSecrets(p, clientSecrets);
    if clientId.Failure? {
      return Raised(clientId.error);
    }
    // Stale credentials of this client id are discarded before a new exchange.
    store.DeleteOldCredentials(clientId.value);
    var redirectUri := store.GetAuthServerUri(p, flow, clientSecrets);
    if redirectUri.Failure? {
      return Raised(redirectUri.error);
    }
    var formDataAsJson := GetFormDataAsJsonString(p, StashedForm(post));
    var data := store.GetEncryptedCookieData(p, clientId.value, formDataAsJson, encryptionKey);
    response := Redirect(redirectUri.value, map["data" := data, "client_id" := clientId.value]);
  }

  // ---------------------------------------------------------------------------
  // The registries

  /** `DEPLOYMENT_THREADS` and `TERMINATING_THREADS`, keyname to thread. */
  class Registry {
    var deployments: map<string, Job>
    var terminations: map<string, Job>

    /** Every job sits under its own keyname, bring-ups in one map and
        tear-downs in the other, and only deployed keynames are terminated. */
    ghost predicate Valid()
      reads this
    {
      && (forall k :: k in deployments ==> deployments[k].keyname == k && !deployments[k].launch.TearDown?)
      && (forall k :: k in terminations ==> terminations[k].keyname == k && terminations[k].launch.TearDown?)
      && terminations.Keys <= deployments.Keys
    }

    constructor ()
      ensures Valid() && deployments == map[] && terminations == map[]
    {
      deployments := map[];
      terminations := map[];
    }

    /** `terminate`: start tearing down a known deployment. */
    method Terminate(request: Request) returns (response: Response)
      requires Valid()
      modifies this
      ensures Valid()
      ensures deployments == old(deployments)
      ensures "keyname" !in request.get ==>
        response == ServerError(NO_KEYNAME_TO_TERMINATE) && terminations == old(terminations)
      ensures "keyname" in request.get && request.get["keyname"] !in deployments ==>
        response == ServerError(UNKNOWN_KEYNAME_TO_TERMINATE) && terminations == old(terminations)
      ensures "keyname" in request.get && request.get["keyname"] in deployments ==>
        var keyname := request.get["keyname"];
        var up := deployments[keyname];
        && response == Rendered(TERMINATE_HTML_FILE_PATH, keyname)
        && terminations.Keys == old(terminations).Keys + {keyname}
        && (forall k :: k in old(terminations) && k != keyname ==> terminations[k] == old(terminations)[k])
        && terminations[keyname].deploymentType == up.deploymentType
        && terminations[keyname].ec2Access == up.ec2Access
        && terminations[keyname].ec2Secret == up.ec2Secret
        && terminations[keyname].ec2Url == up.ec2Url
        && terminations[keyname].keyname == keyname
        && terminations[keyname].launch == TearDown
    {
      if "keyname" !in request.get {
        return ServerError(NO_KEYNAME_TO_TERMINATE);
      }
      var keyname := request.get["keyname"];
      if keyname !in deployments {
        return ServerError(UNKNOWN_KEYNAME_TO_TERMINATE);
      }
      var appscaleUpThread := deployments[keyname];
      var terminateThread := TearDownJob(appscaleUpThread, keyname);
      terminations := terminations[keyname := terminateThread];
      response := Rendered(TERMINATE_HTML_FILE_PATH, keyname);
    }

    /** `get_deployment_status`; `getStatus` is the thread's own foreign `get_status`. */
    method GetDeploymentStatus(request: Request, getStatus: Job -> Json) returns (response: Response)
      ensures "keyname" !in request.get ==> response == JsonReply(ErrorMessage(MISSING_KEYNAME))
      ensures "keyname" in request.get && request.get["keyname"] !in deployments ==>
        response == JsonReply(ErrorMessage(UnknownKeynameMessage(request.get["keyname"])))
      ensures "keyname" in request.get && request.get["keyname"] in deployments ==>
        response == JsonReply(getStatus(deployments[request.get["keyname"]]))
    {
      if "keyname" !in request.get {
        return JsonReply(ErrorMessage(MISSING_KEYNAME));
      }
      var identifier := request.get["keyname"];
      if identifier !in deployments {
        response := JsonReply(ErrorMessage(UnknownKeynameMessage(identifier)));
      } else {
        response := JsonReply(getStatus(deployments[identifier]));
      }
    }

    /** `get_termination_status`: consults the tear-down registry only. */
    method GetTerminationStatus(request: Request, getStatus: Job -> Json) returns (response: Response)
      ensures "keyname" !in request.get ==> response == JsonReply(ErrorMessage(MISSING_KEYNAME))
      ensures "keyname" in request.get && request.get["keyname"] !in terminations ==>
        response == JsonReply(ErrorMessage(UnknownKeynameMessage(request.get["keyname"])))
      ensures "keyname" in request.get && request.get["keyname"] in terminations ==>
        response == JsonReply(getStatus(terminations[request.get["keyname"]]))
    {
      if "keyname" !in request.get {
        return JsonReply(ErrorMessage(MISSING_KEYNAME));
      }
      var identifier := request.get["keyname"];
      if identifier !in terminations {
        response := JsonReply(ErrorMessage(UnknownKeynameMessage(identifier)));
      } else {
        response := JsonReply(getStatus(terminations[identifier]));
      }
    }

    /** `start`: `uuid` stands for `str(uuid.uuid1())` and `encryptionKey` for
        `str(os.urandom(32))`. */
    method Start(request: Request, store: FileStore, p: Primitives, flow: OAuthFlow,
                 uuid: string, encryptionKey: string)
      returns (response: Response)
      requires Valid() && |encryptionKey| == 32
      modifies this, store
      ensures Valid()
      ensures terminations == old(terminations)
      ensures request.verb != "POST" ==>
        && response == ServerError(PAGE_NOT_FOUND)
        && deployments == old(deployments) && store.files == old(store.files)
      ensures request.verb == "POST" ==>
        match StartPlan(request.post, GenerateKeyname(uuid))
        case Register(job) =>
          && response == Rendered(APPSCALE_STARTED_HTML_FILE_PATH, job.keyname)
          && deployments == old(deployments)[job.keyname := job]
          && store.files == old(store.files)
        case StashForGce =>
          && deployments == old(deployments)
          && Stashed(p, flow, request.post, encryptionKey, old(store.files), store.files, response)
        case Reject(message) =>
          && response == ServerError(message)
          && deployments == old(deployments) && store.files == old(store.files)
        case Crash(fault) =>
          && response == Raised(fault)
          && deployments == old(deployments) && store.files == old(store.files)
    {
      if request.verb != "POST" {
        return ServerError(PAGE_NOT_FOUND);
      }
      var keyname := GenerateKeyname(uuid);
      var plan := StartPlan(request.post, keyname);
      match plan
      case Register(appscaleUpThread) =>
        var identifier := appscaleUpThread.keyname;
        deployments := deployments[identifier := appscaleUpThread];
        response := Rendered(APPSCALE_STARTED_HTML_FILE_PATH, identifier);
      case StashForGce =>
        response := StashAndRedirect(request.post, store, p, flow, encryptionKey);
      case Reject(message) =>
        response := ServerError(message);
      case Crash(fault) =>
        response := Raised(fault);
    }

    /** `oauth2_callback`: store the OAuth2 credentials, recover the stashed form
        and start the GCE deployment; `uuid` stands for `str(uuid.uuid1())`. */
    method OAuth2Callback(request: Request, store: FileStore, p: Primitives, flow: OAuthFlow,
                          uuid: string)
      returns (response: Response)
      requires Valid()
      modifies this, store
      ensures Valid()
      ensures terminations == old(terminations)
      ensures request.verb != "GET" ==>
        && response == ServerError(PAGE_NOT_FOUND)
        && deployments == old(deployments) && store.files == old(store.files)
      ensures request.verb == "GET" ==>
        Resumed(p, flow, request, GenerateKeyname(uuid), old(store.files), store.files,
                old(deployments), deployments, response)
    {
      if request.verb != "GET" {
        return ServerError(PAGE_NOT_FOUND);
      }
      var code := if "code" in request.get then request.get["code"] else "";
      // An absent client id reaches the SHA-1 update as None, which raises.
      if "client_id" !in request.cookies {
        return Raised(MissingCookie("client_id"));
      }
      var clientId := request.cookies["client_id"];
      var saved := store.SaveGceCredentials(p, flow, clientId, code);
      if saved.Fail? {
        return Raised(saved.error);
      }
      var oauth2Location := CredentialsPath(clientId);
      var formData := store.GetDecryptedCookieData(p, clientId, CookieValue(request.cookies, "data"));
      if formData.Failure? {
        return Raised(formData.error);
      }
      var jsonData := p.loads(formData.value);
      if jsonData.None? {
        return Raised(MalformedFormData);
      }
      var keyname := GenerateKeyname(uuid);
      var plan := ResumePlan(jsonData.value, keyname, oauth2Location);
      match plan
      case Register(appscaleUpThread) =>
        var identifier := appscaleUpThread.keyname;
        deployments := deployments[identifier := appscaleUpThread];
        response := Rendered(APPSCALE_STARTED_HTML_FILE_PATH, identifier);
      case Reject(message) =>
        response := ServerError(message);
      case Crash(fault) =>
        response := Raised(fault);
      case StashForGce =>
        assert false;
    }
  }
}
