/**
 * The HTTP handlers of the builder API (components/builder-api/src/http/handlers.rs).
 *
 * Each handler is a short early-exit pipeline: it extracts path parameters, a
 * JSON body and the session, makes zero or more sequential GitHub and broker
 * calls, each gated on the previous one succeeding, and returns exactly one
 * response. A handler is modelled as a function of its inputs and of the
 * outcomes its collaborators return (the `Broker`, `GitHubCli` and `Parsers`
 * oracles); it yields the response together with the trace of calls it made.
 *
 * The session is a parameter: the handlers `unwrap()` the session that the
 * authentication middleware attaches, so a missing one is a precondition
 * violation rather than a request outcome. `Broker::connect(..).unwrap()` is
 * taken to succeed likewise.
 */
module Handlers {
  import opened Wrappers
  import opened Numbers
  import opened Json
  import opened Protocol
  import opened GitHub
  import opened Plans
  import opened Http
  import opened Trace

  /** What a handler returns: the response, and the calls it made on the way, in order. */
  datatype Outcome = Outcome(response: Response, calls: seq<Call>)

  /** Only a JSON body comes with the `application/json` header, and every JSON body does. */
  predicate HeaderMatchesBody(r: Response) {
    r.contentType == Some(ApplicationJson) <==> r.body.Json?
  }

  /**
   * The contract every handler keeps: at most one mutating backend call, issued
   * last; a 400 never follows a mutating call; the header matches the body.
   */
  predicate WellFormed(o: Outcome) {
    && MutationOnlyLast(o.calls)
    && (o.response.status == BadRequest ==> NoMutation(o.calls))
    && HeaderMatchesBody(o.response)
  }

  // ---------------------------------------------------------------------------
  // Rendering
  // ---------------------------------------------------------------------------

  /** Putting calls that change nothing in front of a well-formed outcome keeps it well-formed. */
  lemma PrefixLookupsKeepWellFormed(lookups: seq<Call>, o: Outcome)
    requires NoMutation(lookups) && WellFormed(o)
    ensures WellFormed(Outcome(o.response, lookups + o.calls))
  {
    var calls := lookups + o.calls;
    forall i | 0 <= i < |calls| && calls[i].IsMutating() ensures i == |calls| - 1 {
      assert i >= |lookups| && calls[i] == o.calls[i - |lookups|];
    }
    if o.response.status == BadRequest {
      forall i | 0 <= i < |calls| ensures !calls[i].IsMutating() {
        assert i < |lookups| || calls[i] == o.calls[i - |lookups|];
      }
    }
  }

  /** `render_json`: the given status, the JSON encoding of the value, `application/json`. */
  function RenderJson(status: Status, payload: Payload): (r: Response)
    ensures r.status == status
    ensures r.contentType == Some(ApplicationJson) && r.body == Json(payload)
  {
    Response(status, Some(ApplicationJson), Json(payload))
  }

  /** The codes the error translator maps to a status of their own. */
  const MappedCodes: set<ErrCode> :=
    {EntityNotFound, EntityConflict, NoShard, Timeout, BadRemoteReply, SessionExpired}

  /**
   * `render_net_error`: the status the backend error code calls for, with the
   * error itself as the JSON body. Each mapped code has its own status, so the
   * status also identifies the code; every other code is a 500.
   */
  function RenderNetError(err: NetError): (r: Response)
    ensures r.contentType == Some(ApplicationJson) && r.body == Json(ErrorPayload(err))
    // a backend failure is always an error status, and never blamed on the request
    ensures r.status.Code() >= 400 && r.status != BadRequest
    ensures err.code == EntityNotFound <==> r.status.Code() == 404
    ensures err.code == EntityConflict <==> r.status.Code() == 409
    ensures err.code == NoShard <==> r.status.Code() == 503
    ensures err.code == Timeout <==> r.status.Code() == 408
    ensures err.code == BadRemoteReply <==> r.status.Code() == 502
    ensures err.code == SessionExpired <==> r.status.Code() == 401
    ensures err.code !in MappedCodes <==> r.status.Code() == 500
  {
    var status :=
      match err.code
      case EntityNotFound => NotFound
      case EntityConflict => Conflict
      case NoShard => ServiceUnavailable
      case Timeout => RequestTimeout
      case BadRemoteReply => BadGateway
      case SessionExpired => Unauthorized
      case _ => InternalServerError;
    RenderJson(status, ErrorPayload(err))
  }

  // ---------------------------------------------------------------------------
  // session_create
  // ---------------------------------------------------------------------------

  /** `emails.iter().find(|e| e.primary)`: the first address marked primary, if any. */
  function FindPrimary(emails: seq<Email>): (r: Option<Email>)
    ensures r.None? <==> forall i :: 0 <= i < |emails| ==> !emails[i].primary
    ensures r.Some? ==> exists k :: (0 <= k < |emails| && emails[k] == r.value && r.value.primary
      && forall j :: 0 <= j < k ==> !emails[j].primary)
  {
    if |emails| == 0 then None
    else if emails[0].primary then Some(emails[0])
    else
      var r := FindPrimary(emails[1..]);
      assert r.Some? ==> exists k :: (0 < k < |emails| && emails[k] == r.value && r.value.primary
        && forall j :: 0 <= j < k ==> !emails[j].primary)
      by {
        if r.Some? {
          var k :| 0 <= k < |emails| - 1 && emails[1..][k] == r.value
            && forall j :: 0 <= j < k ==> !emails[1..][j].primary;
          assert forall j :: 0 < j < k + 1 ==> !emails[j].primary by {
            forall j | 0 < j < k + 1 ensures !emails[j].primary {
              assert emails[j] == emails[1..][j - 1];
            }
          }
        }
      }
      r
  }

  /** What the email selection at handlers.rs:57 yields as written. */
  datatype EmailChoice = Chosen(address: string) | IndexPanic

  /**
   * The email selection as written: `unwrap_or(&emails[0])` evaluates
   * `emails[0]` before `find` is consulted, so an empty list panics, although
   * the comment above it promises an access-denied error.
   */
  function ChooseEmailAsWritten(emails: seq<Email>): (r: EmailChoice)
    ensures r.IndexPanic? <==> |emails| == 0
  {
    if |emails| == 0 then IndexPanic
    else match FindPrimary(emails)
      case Some(e) => Chosen(e.email)
      case None => Chosen(emails[0].email)
  }

  /**
   * The email selection as intended: the first primary address, else the first
   * address; no address at all when the account has none.
   */
  function SelectEmail(emails: seq<Email>): (r: Option<string>)
    ensures r.None? <==> |emails| == 0
    ensures r.Some? ==> exists k :: 0 <= k < |emails| && emails[k].email == r.value
    ensures (exists k :: 0 <= k < |emails| && emails[k].primary) ==>
      exists k :: (0 <= k < |emails| && emails[k].primary && emails[k].email == r.value
        && forall j :: 0 <= j < k ==> !emails[j].primary)
    ensures |emails| > 0 && (forall k :: 0 <= k < |emails| ==> !emails[k].primary) ==>
      r == Some(emails[0].email)
  {
    match FindPrimary(emails)
    case Some(e) => Some(e.email)
    case None => if |emails| == 0 then None else Some(emails[0].email)
  }

  /** The error returned when no email can be used, handlers.rs:60. */
  const NoEmailError: NetError := NetError(AccessDenied, "rg:auth:0")

  /**
   * The last step of `session_create`: choose the address to sign in with
   * and ask the session service for a session for this GitHub user.
   */
  function OpenSession(token: string, user: User, emails: seq<Email>, broker: Broker): (r: Outcome)
    ensures WellFormed(r) && |r.calls| <= 1
    ensures r.calls == [] <==> SelectEmail(emails).None?
    ensures r.calls == [] ==> r.response == RenderNetError(NoEmailError)
    ensures r.calls != [] ==>
      r.calls == [RouteSessionCreate(
        SessionCreate(token, user.id, SelectEmail(emails).value, user.login, GitHubProvider))]
    ensures r.response.status == Ok <==>
      r.calls != [] && broker.sessionCreate(r.calls[0].sessionCreate).Success?
    ensures r.response.status == Ok ==>
      r.response.body == Json(SessionPayload(broker.sessionCreate(r.calls[0].sessionCreate).value))
    ensures r.calls != [] && broker.sessionCreate(r.calls[0].sessionCreate).Failure? ==>
      r.response == RenderNetError(broker.sessionCreate(r.calls[0].sessionCreate).error)
  {
    match SelectEmail(emails)
    case None => Outcome(RenderNetError(NoEmailError), [])
    case Some(email) =>
      var request := SessionCreate(token, user.id, email, user.login, GitHubProvider);
      var calls := [RouteSessionCreate(request)];
      match broker.sessionCreate(request)
      case Success(session) => Outcome(RenderJson(Ok, SessionPayload(session)), calls)
      case Failure(err) => Outcome(RenderNetError(err), calls)
  }

  /**
   * The part of `session_create` that holds a GitHub token: read the user,
   * then their emails, then open the session.
   */
  function SignIn(token: string, github: GitHubCli, broker: Broker): (r: Outcome)
    ensures WellFormed(r)
    ensures 1 <= |r.calls| <= 3 && r.calls[0] == GitHubUser(token)
    ensures github.user(token).Failure? ==>
      r == Outcome(RenderNetError(
        if github.user(token).error.JsonDecode? then NetError(BadRemoteReply, "rg:auth:1")
        else NetError(Bug, "rg:auth:2")), [GitHubUser(token)])
    ensures github.user(token).Success? ==>
      |r.calls| >= 2 && r.calls[1] == GitHubEmails(token)
      && (github.emails(token).Failure? || github.emails(token).value == [] ==>
            |r.calls| == 2 && r.response == RenderNetError(NoEmailError))
    ensures |r.calls| == 3 <==>
      github.user(token).Success? && github.emails(token).Success? && github.emails(token).value != []
    ensures |r.calls| == 3 ==>
      r.calls[2] == RouteSessionCreate(SessionCreate(token, github.user(token).value.id,
           SelectEmail(github.emails(token).value).value, github.user(token).value.login, GitHubProvider))
    ensures r.response.status == Ok <==>
      |r.calls| == 3 && broker.sessionCreate(r.calls[2].sessionCreate).Success?
    ensures r.response.status == Ok ==>
      r.response.body == Json(SessionPayload(broker.sessionCreate(r.calls[2].sessionCreate).value))
    ensures |r.calls| == 3 && broker.sessionCreate(r.calls[2].sessionCreate).Failure? ==>
      r.response == RenderNetError(broker.sessionCreate(r.calls[2].sessionCreate).error)
  {
    match github.user(token)
    case Failure(JsonDecode) => Outcome(RenderNetError(NetError(BadRemoteReply, "rg:auth:1")), [GitHubUser(token)])
    case Failure(_) => Outcome(RenderNetError(NetError(Bug, "rg:auth:2")), [GitHubUser(token)])
    case Success(user) =>
      var lookups := [GitHubUser(token), GitHubEmails(token)];
      match github.emails(token)
      case Failure(_) => Outcome(RenderNetError(NoEmailError), lookups)
      case Success(emails) =>
        var rest := OpenSession(token, user, emails, broker);
        PrefixLookupsKeepWellFormed(lookups, rest);
        Outcome(rest.response, lookups + rest.calls)
  }

  /**
   * What `session_create` returns once it holds a token: the authentication
   * call, followed by everything `SignIn` does, restated at the handler's
   * call positions.
   */
  lemma SignInAfterAuthentication(code: string, token: string, github: GitHubCli, broker: Broker)
    ensures
      var rest := SignIn(token, github, broker);
      var r := Outcome(rest.response, [GitHubAuthenticate(code)] + rest.calls);
      && WellFormed(r)
      && |r.calls| >= 2 && r.calls[0] == GitHubAuthenticate(code) && r.calls[1] == GitHubUser(token)
      && (github.user(token).Failure? ==>
            |r.calls| == 2 && r.response == RenderNetError(
              if github.user(token).error.JsonDecode? then NetError(BadRemoteReply, "rg:auth:1")
              else NetError(Bug, "rg:auth:2")))
      && (github.user(token).Success? ==>
            |r.calls| >= 3 && r.calls[2] == GitHubEmails(token)
            && (github.emails(token).Failure? || github.emails(token).value == [] ==>
                  |r.calls| == 3 && r.response == RenderNetError(NoEmailError))
            && (github.emails(token).Success? && github.emails(token).value != [] ==>
                  |r.calls| == 4 && r.calls[3] == RouteSessionCreate(SessionCreate(token,
                    github.user(token).value.id, SelectEmail(github.emails(token).value).value,
                    github.user(token).value.login, GitHubProvider))))
      && (forall i :: 0 <= i < |r.calls| && r.calls[i].IsBrokerCall() ==>
            && i == 3 && r.calls[i].RouteSessionCreate?
            && r.calls[i].sessionCreate == SessionCreate(token, github.user(token).value.id,
                 SelectEmail(github.emails(token).value).value, github.user(token).value.login, GitHubProvider))
      && (r.response.status == Ok <==>
            |r.calls| == 4 && r.calls[3].RouteSessionCreate?
            && broker.sessionCreate(r.calls[3].sessionCreate).Success?)
      && (r.response.status == Ok ==>
            r.response.body == Json(SessionPayload(broker.sessionCreate(r.calls[3].sessionCreate).value)))
      && ((|r.calls| == 4 && r.calls[3].RouteSessionCreate?
             && broker.sessionCreate(r.calls[3].sessionCreate).Failure?) ==>
            r.response == RenderNetError(broker.sessionCreate(r.calls[3].sessionCreate).error))
  {
    var rest := SignIn(token, github, broker);
    PrefixLookupsKeepWellFormed([GitHubAuthenticate(code)], rest);
    var calls := [GitHubAuthenticate(code)] + rest.calls;
    forall i | 0 <= i < |calls| && calls[i].IsBrokerCall() ensures i == 3 {
      assert i > 0 && calls[i] == rest.calls[i - 1];
    }
  }

  /**
   * `session_create`: exchange the OAuth `code` for a GitHub token, read the
   * user and their emails, then ask the session service to create a session.
   */
  function HandleSessionCreate(params: map<string, string>, github: GitHubCli, broker: Broker): (r: Outcome)
    ensures WellFormed(r)
    ensures "code" !in params ==> r == Outcome(Bare(BadRequest), [])
    ensures "code" in params ==> |r.calls| > 0 && r.calls[0] == GitHubAuthenticate(params["code"])
    // GitHub's failures, by class
    ensures "code" in params && github.authenticate(params["code"]).Failure? ==>
      var e := github.authenticate(params["code"]).error;
      && |r.calls| == 1
      && r.response == RenderNetError(
           if e.Auth? then NetError(RemoteRejected, e.error)
           else if e.JsonDecode? then NetError(BadRemoteReply, "rg:auth:1")
           else NetError(Bug, "rg:auth:0"))
    ensures "code" in params && github.authenticate(params["code"]).Success? ==>
      var token := github.authenticate(params["code"]).value;
      && |r.calls| >= 2 && r.calls[1] == GitHubUser(token)
      && (github.user(token).Failure? ==>
            |r.calls| == 2 && r.response == RenderNetError(
              if github.user(token).error.JsonDecode? then NetError(BadRemoteReply, "rg:auth:1")
              else NetError(Bug, "rg:auth:2")))
      && (github.user(token).Success? ==>
            |r.calls| >= 3 && r.calls[2] == GitHubEmails(token)
            && (github.emails(token).Failure? || github.emails(token).value == [] ==>
                  |r.calls| == 3 && r.response == RenderNetError(NoEmailError))
            && (github.emails(token).Success? && github.emails(token).value != [] ==>
                  |r.calls| == 4 && r.calls[3] == RouteSessionCreate(SessionCreate(token,
                    github.user(token).value.id, SelectEmail(github.emails(token).value).value,
                    github.user(token).value.login, GitHubProvider))))
    // the broker is reached only after a complete sign-in, with what GitHub returned
    ensures forall i :: 0 <= i < |r.calls| && r.calls[i].IsBrokerCall() ==>
      && i == 3 && r.calls[i].RouteSessionCreate?
      && var token := github.authenticate(params["code"]).value;
      && var user := github.user(token).value;
      && r.calls[i].sessionCreate == SessionCreate(token, user.id,
           SelectEmail(github.emails(token).value).value, user.login, GitHubProvider)
    ensures r.response.status == Ok <==>
      |r.calls| == 4 && r.calls[3].RouteSessionCreate?
      && broker.sessionCreate(r.calls[3].sessionCreate).Success?
    ensures r.response.status == Ok ==>
      r.response.body == Json(SessionPayload(broker.sessionCreate(r.calls[3].sessionCreate).value))
    ensures (|r.calls| == 4 && r.calls[3].RouteSessionCreate?
             && broker.sessionCreate(r.calls[3].sessionCreate).Failure?) ==>
      r.response == RenderNetError(broker.sessionCreate(r.calls[3].sessionCreate).error)
  {
    if "code" !in params then Outcome(Bare(BadRequest), [])
    else
      var code := params["code"];
      match github.authenticate(code)
      case Failure(Auth(e)) => Outcome(RenderNetError(NetError(RemoteRejected, e)), [GitHubAuthenticate(code)])
      case Failure(JsonDecode) => Outcome(RenderNetError(NetError(BadRemoteReply, "rg:auth:1")), [GitHubAuthenticate(code)])
      case Failure(OtherError) => Outcome(RenderNetError(NetError(Bug, "rg:auth:0")), [GitHubAuthenticate(code)])
      case Success(token) =>
        var rest := SignIn(token, github, broker);
        SignInAfterAuthentication(code, token, github, broker);
        Outcome(rest.response, [GitHubAuthenticate(code)] + rest.calls)
  }

  // ---------------------------------------------------------------------------
  // job_create, job_show
  // ---------------------------------------------------------------------------

  /** The `project_id` a job-creation body names, when the body is there and holds a JSON string. */
  function JobProjectId(body: Option<Value>): Option<string> {
    if body.None? then None else FindString(body.value, "project_id")
  }

  /**
   * `job_create`: resolve the project named in the body, then ask the job
   * service for a job owned by the requester on that project.
   */
  function HandleJobCreate(body: Option<Value>, session: Session, broker: Broker): (r: Outcome)
    ensures WellFormed(r)
    ensures JobProjectId(body).None? ==> r == Outcome(Bare(BadRequest), [])
    ensures JobProjectId(body).Some? ==>
      var get := ProjectGet(JobProjectId(body).value);
      && |r.calls| > 0 && r.calls[0] == RouteProjectGet(get)
      && (broker.projectGet(get).Failure? ==>
            r == Outcome(RenderNetError(broker.projectGet(get).error), [RouteProjectGet(get)]))
      && (broker.projectGet(get).Success? ==>
            |r.calls| == 2 && r.calls[1] == RouteJobSpec(JobSpec(session.id, broker.projectGet(get).value)))
    ensures forall i :: 0 <= i < |r.calls| && r.calls[i].RouteJobSpec? ==>
      i == 1 && r.calls[i].jobSpec.ownerId == session.id
    ensures r.response.status == Created <==>
      |r.calls| == 2 && r.calls[1].RouteJobSpec? && broker.jobSpec(r.calls[1].jobSpec).Success?
    ensures r.response.status == Created ==>
      r.response.body == Json(JobPayload(broker.jobSpec(r.calls[1].jobSpec).value))
    ensures |r.calls| == 2 && broker.jobSpec(r.calls[1].jobSpec).Failure? ==>
      r.response == RenderNetError(broker.jobSpec(r.calls[1].jobSpec).error)
  {
    match body
    case None => Outcome(Bare(BadRequest), [])
    case Some(value) =>
      match FindString(value, "project_id")
      case None => Outcome(Bare(BadRequest), [])
      case Some(id) =>
        var projectGet := ProjectGet(id);
        var calls := [RouteProjectGet(projectGet)];
        match broker.projectGet(projectGet)
        case Failure(err) => Outcome(RenderNetError(err), calls)
        case Success(project) =>
          var jobSpec := JobSpec(session.id, project);
          var calls := calls + [RouteJobSpec(jobSpec)];
          match broker.jobSpec(jobSpec)
          case Success(job) => Outcome(RenderJson(Created, JobPayload(job)), calls)
          case Failure(err) => Outcome(RenderNetError(err), calls)
  }

  /** The id of a job path parameter, when present and a valid u64. */
  function JobId(params: map<string, string>): Option<uint64> {
    if "id" in params then ParseU64(params["id"]) else None
  }

  /** `job_show`: read one job by its numeric id. */
  function HandleJobShow(params: map<string, string>, broker: Broker): (r: Outcome)
    ensures WellFormed(r) && NoMutation(r.calls)
    ensures r.calls == [] <==> JobId(params).None?
    ensures r.calls == [] ==> r.response == Bare(BadRequest)
    ensures r.calls != [] ==> r.calls == [RouteJobGet(JobGet(JobId(params).value))]
    ensures r.calls != [] ==>
      var reply := broker.jobGet(JobGet(JobId(params).value));
      r.response == if reply.Success? then RenderJson(Ok, JobPayload(reply.value)) else RenderNetError(reply.error)
  {
    if "id" !in params then Outcome(Bare(BadRequest), [])
    else match ParseU64(params["id"])
      case None => Outcome(Bare(BadRequest), [])
      case Some(id) =>
        var request := JobGet(id);
        var calls := [RouteJobGet(request)];
        match broker.jobGet(request)
        case Success(job) => Outcome(RenderJson(Ok, JobPayload(job)), calls)
        case Failure(err) => Outcome(RenderNetError(err), calls)
  }

  // ---------------------------------------------------------------------------
  // list_account_invitations, list_user_origins
  // ---------------------------------------------------------------------------

  /** `list_account_invitations`: the invitations of the signed-in account. */
  function HandleListAccountInvitations(session: Session, broker: Broker): (r: Outcome)
    ensures WellFormed(r) && NoMutation(r.calls)
    ensures r.calls == [RouteInvitationList(AccountInvitationListRequest(session.id))]
    ensures r.response.status == Ok <==> broker.invitationList(AccountInvitationListRequest(session.id)).Success?
    ensures r.response.status == Ok ==>
      r.response.body == Json(InvitationsPayload(broker.invitationList(AccountInvitationListRequest(session.id)).value))
    ensures r.response.status != Ok ==>
      r.response == RenderNetError(broker.invitationList(AccountInvitationListRequest(session.id)).error)
  {
    var request := AccountInvitationListRequest(session.id);
    var calls := [RouteInvitationList(request)];
    match broker.invitationList(request)
    case Success(invites) => Outcome(RenderJson(Ok, InvitationsPayload(invites)), calls)
    case Failure(err) => Outcome(RenderNetError(err), calls)
  }

  /** `list_user_origins`: the origins the signed-in account belongs to. */
  function HandleListUserOrigins(session: Session, broker: Broker): (r: Outcome)
    ensures WellFormed(r) && NoMutation(r.calls)
    ensures r.calls == [RouteOriginList(AccountOriginListRequest(session.id))]
    ensures r.response.status == Ok <==> broker.originList(AccountOriginListRequest(session.id)).Success?
    ensures r.response.status == Ok ==>
      r.response.body == Json(OriginsPayload(broker.originList(AccountOriginListRequest(session.id)).value))
    ensures r.response.status != Ok ==>
      r.response == RenderNetError(broker.originList(AccountOriginListRequest(session.id)).error)
  {
    var request := AccountOriginListRequest(session.id);
    var calls := [RouteOriginList(request)];
    match broker.originList(request)
    case Success(origins) => Outcome(RenderJson(Ok, OriginsPayload(origins)), calls)
    case Failure(err) => Outcome(RenderNetError(err), calls)
  }

  // ---------------------------------------------------------------------------
  // accept_invitation
  // ---------------------------------------------------------------------------

  /** The `invitation_id` path parameter, when present and a valid u64. */
  function InvitationId(params: map<string, string>): Option<uint64> {
    if "invitation_id" in params then ParseU64(params["invitation_id"]) else None
  }

  /**
   * `accept_invitation`: accept an origin invitation on behalf of the
   * signed-in account, and only that account. `ignore` is always false.
   */
  function HandleAcceptInvitation(session: Session, params: map<string, string>, broker: Broker): (r: Outcome)
    ensures WellFormed(r)
    ensures r.calls == [] <==> InvitationId(params).None?
    ensures r.calls == [] ==> r.response == Bare(BadRequest)
    ensures |r.calls| <= 1
    ensures forall i :: 0 <= i < |r.calls| ==>
      && r.calls[i].RouteInvitationAccept?
      && r.calls[i].accept.accountAcceptingRequest == session.id
      && r.calls[i].accept.inviteId == InvitationId(params).value
      && !r.calls[i].accept.ignore
    ensures r.response.status == NoContent <==>
      |r.calls| == 1 && broker.invitationAccept(r.calls[0].accept).Success?
    ensures r.response.status == NoContent ==> r.response == Bare(NoContent)
    ensures |r.calls| == 1 && broker.invitationAccept(r.calls[0].accept).Failure? ==>
      r.response == RenderNetError(broker.invitationAccept(r.calls[0].accept).error)
  {
    if "invitation_id" !in params then Outcome(Bare(BadRequest), [])
    else match ParseU64(params["invitation_id"])
      case None => Outcome(Bare(BadRequest), [])
      case Some(invitationId) =>
        var ignore := false;
        var request := OriginInvitationAcceptRequest(session.id, invitationId, ignore);
        var calls := [RouteInvitationAccept(request)];
        match broker.invitationAccept(request)
        case Success(_) => Outcome(Bare(NoContent), calls)
        case Failure(err) => Outcome(RenderNetError(err), calls)
  }

  // ---------------------------------------------------------------------------
  // project_create
  // ---------------------------------------------------------------------------

  /** The validated fields of a project-creation body. */
  datatype ProjectForm = ProjectForm(origin: string, planPath: string, organization: string, repo: string)

  /** The body fields project creation requires, in the order they are checked. */
  const RequiredFields: seq<string> := ["origin", "plan_path", "github", "github.organization", "github.repo"]

  /** The message of the 400 a missing or mistyped field gets. */
  function MissingField(field: string): string {
    "Missing required field: `" + field + "`"
  }

  /** The `github` member of the body, when it is a JSON object. */
  function GitHubObject(v: Value): Option<Value> {
    match Find(v, "github")
    case Some(Object(fields)) => Some(Object(fields))
    case _ => None
  }

  /** Whether body `v` supplies the `k`-th required field with the right JSON type. */
  predicate Supplies(v: Value, k: nat)
    requires k < |RequiredFields|
  {
    if k == 0 then FindString(v, "origin").Some?
    else if k == 1 then FindString(v, "plan_path").Some?
    else if k == 2 then GitHubObject(v).Some?
    else if k == 3 then GitHubObject(v).Some? && FindString(GitHubObject(v).value, "organization").Some?
    else GitHubObject(v).Some? && FindString(GitHubObject(v).value, "repo").Some?
  }

  /**
   * Body validation for project creation: the first required field that is
   * missing or mistyped decides the 400 and its message; a missing body is a
   * bare 400; a body that supplies all five yields their values.
   */
  function ParseProjectBody(body: Option<Value>): (r: Result<ProjectForm, Response>)
    ensures r.Failure? ==> r.error.status == BadRequest && r.error.contentType == None
    ensures r.Success? ==>
      && body.Some?
      && FindString(body.value, "origin") == Some(r.value.origin)
      && FindString(body.value, "plan_path") == Some(r.value.planPath)
      && GitHubObject(body.value).Some?
      && FindString(GitHubObject(body.value).value, "organization") == Some(r.value.organization)
      && FindString(GitHubObject(body.value).value, "repo") == Some(r.value.repo)
  {
    match body
    case None => Failure(Bare(BadRequest))
    case Some(v) =>
      match FindString(v, "origin")
      case None => Failure(WithText(BadRequest, MissingField("origin")))
      case Some(origin) =>
        match FindString(v, "plan_path")
        case None => Failure(WithText(BadRequest, MissingField("plan_path")))
        case Some(planPath) =>
          match GitHubObject(v)
          case None => Failure(WithText(BadRequest, MissingField("github")))
          case Some(github) =>
            match FindString(github, "organization")
            case None => Failure(WithText(BadRequest, MissingField("github.organization")))
            case Some(organization) =>
              match FindString(github, "repo")
              case None => Failure(WithText(BadRequest, MissingField("github.repo")))
              case Some(repo) => Success(ProjectForm(origin, planPath, organization, repo))
  }

  /**
   * Whether every step project creation takes before its one mutating call
   * succeeds: the body, the repository lookup, the origin lookup, the plan
   * file fetch, its base64 decoding and the plan parse.
   */
  predicate CreatePrerequisites(
    session: Session, body: Option<Value>, github: GitHubCli, parsers: Parsers, broker: Broker)
  {
    && ParseProjectBody(body).Success?
    && var form := ParseProjectBody(body).value;
    && github.repo(session.token, form.organization, form.repo).Success?
    && broker.originGet(OriginGet(form.origin)).Success?
    && github.contents(session.token, form.organization, form.repo, form.planPath).Success?
    && var contents := github.contents(session.token, form.organization, form.repo, form.planPath).value;
    && parsers.fromBase64(contents.content).Some?
    && parsers.planFromBytes(parsers.fromBase64(contents.content).value).Some?
  }

  /**
   * The project creation request built once every prerequisite holds: id
   * "<origin name>/<plan name>" from the origin the backend returned and the
   * parsed plan, owned by the requester, with the body's plan path and the
   * repository's clone URL.
   */
  function CreateRequest(
    session: Session, body: Option<Value>, github: GitHubCli, parsers: Parsers, broker: Broker): ProjectCreate
    requires CreatePrerequisites(session, body, github, parsers, broker)
  {
    var form := ParseProjectBody(body).value;
    var repo := github.repo(session.token, form.organization, form.repo).value;
    var origin := broker.originGet(OriginGet(form.origin)).value;
    var contents := github.contents(session.token, form.organization, form.repo, form.planPath).value;
    var plan := parsers.planFromBytes(parsers.fromBase64(contents.content).value).value;
    ProjectCreate(origin.name + "/" + plan.name, session.id, form.planPath, VcsGit(repo.cloneUrl))
  }

  /** The order of project creation's calls: repository, origin, plan file, then the create. */
  predicate CreateCallOrder(calls: seq<Call>) {
    && |calls| <= 4
    && (|calls| > 0 ==> calls[0].GitHubRepo?)
    && (|calls| > 1 ==> calls[1].RouteOriginGet?)
    && (|calls| > 2 ==> calls[2].GitHubContents?)
    && (|calls| > 3 ==> calls[3].RouteProjectCreate?)
  }

  /**
   * The last steps of `project_create`, once the plan file is fetched: decode
   * it, parse the plan, then send the one creating request.
   */
  function CreateFromPlanFile(
    session: Session, form: ProjectForm, repo: Repo, origin: Origin, contents: Contents,
    parsers: Parsers, broker: Broker): (r: Outcome)
    ensures WellFormed(r) && |r.calls| <= 1
    ensures r.calls != [] <==>
      parsers.fromBase64(contents.content).Some?
      && parsers.planFromBytes(parsers.fromBase64(contents.content).value).Some?
    ensures r.calls != [] ==>
      var plan := parsers.planFromBytes(parsers.fromBase64(contents.content).value).value;
      r.calls == [RouteProjectCreate(
        ProjectCreate(origin.name + "/" + plan.name, session.id, form.planPath, VcsGit(repo.cloneUrl)))]
    ensures r.response.status == Created <==>
      r.calls != [] && broker.projectCreate(r.calls[0].projectCreate).Success?
    ensures r.response.status == Created ==>
      r.response.body == Json(ProjectPayload(broker.projectCreate(r.calls[0].projectCreate).value))
    ensures r.calls != [] && broker.projectCreate(r.calls[0].projectCreate).Failure? ==>
      r.response == RenderNetError(broker.projectCreate(r.calls[0].projectCreate).error)
  {
    match parsers.fromBase64(contents.content)
    case None => Outcome(WithText(BadRequest, "rg:pc:4"), [])
    case Some(bytes) =>
      match parsers.planFromBytes(bytes)
      case None => Outcome(WithText(BadRequest, "rg:pc:3"), [])
      case Some(plan) =>
        var project := ProjectCreate(
          origin.name + "/" + plan.name, session.id, form.planPath, VcsGit(repo.cloneUrl));
        var calls := [RouteProjectCreate(project)];
        match broker.projectCreate(project)
        case Success(created) => Outcome(RenderJson(Created, ProjectPayload(created)), calls)
        case Failure(err) => Outcome(RenderNetError(err), calls)
  }

  /**
   * The part of `project_create` after the body and the repository: resolve
   * the origin through the broker, fetch the plan file from GitHub, and go on.
   */
  function CreateForRepo(
    session: Session, form: ProjectForm, repo: Repo, github: GitHubCli, parsers: Parsers, broker: Broker): (r: Outcome)
    ensures WellFormed(r)
    ensures 1 <= |r.calls| <= 3 && r.calls[0] == RouteOriginGet(OriginGet(form.origin))
    ensures |r.calls| > 1 ==> r.calls[1] == GitHubContents(session.token, form.organization, form.repo, form.planPath)
    ensures |r.calls| > 2 ==> r.calls[2].RouteProjectCreate?
    ensures r.response.status == Created <==>
      |r.calls| == 3 && broker.projectCreate(r.calls[2].projectCreate).Success?
    ensures r.response.status == Created ==>
      r.response.body == Json(ProjectPayload(broker.projectCreate(r.calls[2].projectCreate).value))
    ensures |r.calls| == 3 && broker.projectCreate(r.calls[2].projectCreate).Failure? ==>
      r.response == RenderNetError(broker.projectCreate(r.calls[2].projectCreate).error)
  {
    var originGet := OriginGet(form.origin);
    match broker.originGet(originGet)
    case Failure(err) => Outcome(RenderNetError(err), [RouteOriginGet(originGet)])
    case Success(origin) =>
      var lookups := [RouteOriginGet(originGet), GitHubContents(session.token, form.organization, form.repo, form.planPath)];
      match github.contents(session.token, form.organization, form.repo, form.planPath)
      case Failure(_) => Outcome(WithText(BadRequest, "rg:pc:2"), lookups)
      case Success(contents) =>
        var rest := CreateFromPlanFile(session, form, repo, origin, contents, parsers, broker);
        PrefixLookupsKeepWellFormed(lookups, rest);
        Outcome(rest.response, lookups + rest.calls)
  }

  /**
   * What `project_create` returns once the repository is found: the repo
   * lookup, followed by everything `CreateForRepo` does, restated at the
   * handler's call positions.
   */
  lemma CreateAfterRepoLookup(
    session: Session, form: ProjectForm, repo: Repo, github: GitHubCli, parsers: Parsers, broker: Broker)
    ensures
      var rest := CreateForRepo(session, form, repo, github, parsers, broker);
      var r := Outcome(rest.response, [GitHubRepo(session.token, form.organization, form.repo)] + rest.calls);
      && WellFormed(r) && CreateCallOrder(r.calls)
      && (r.response.status == Created <==>
            |r.calls| == 4 && broker.projectCreate(r.calls[3].projectCreate).Success?)
      && (r.response.status == Created ==>
            r.response.body == Json(ProjectPayload(broker.projectCreate(r.calls[3].projectCreate).value)))
      && (|r.calls| == 4 && broker.projectCreate(r.calls[3].projectCreate).Failure? ==>
            r.response == RenderNetError(broker.projectCreate(r.calls[3].projectCreate).error))
  {
    var rest := CreateForRepo(session, form, repo, github, parsers, broker);
    PrefixLookupsKeepWellFormed([GitHubRepo(session.token, form.organization, form.repo)], rest);
  }

  /**
   * `project_create`: validate the body, look the repository up on GitHub,
   * resolve the origin, fetch, decode and parse the plan file, and only then
   * issue the one mutating call that creates the project.
   */
  function HandleProjectCreate(
    session: Session, body: Option<Value>, github: GitHubCli, parsers: Parsers, broker: Broker): (r: Outcome)
    ensures WellFormed(r) && CreateCallOrder(r.calls)
    ensures ParseProjectBody(body).Failure? ==> r == Outcome(ParseProjectBody(body).error, [])
    ensures r.response.status == Created <==>
      |r.calls| == 4 && broker.projectCreate(r.calls[3].projectCreate).Success?
    ensures r.response.status == Created ==>
      r.response.body == Json(ProjectPayload(broker.projectCreate(r.calls[3].projectCreate).value))
    ensures |r.calls| == 4 && broker.projectCreate(r.calls[3].projectCreate).Failure? ==>
      r.response == RenderNetError(broker.projectCreate(r.calls[3].projectCreate).error)
  {
    match ParseProjectBody(body)
    case Failure(response) => Outcome(response, [])
    case Success(form) =>
      var repoLookup := GitHubRepo(session.token, form.organization, form.repo);
      match github.repo(session.token, form.organization, form.repo)
      case Failure(_) => Outcome(WithText(BadRequest, "rg:pc:1"), [repoLookup])
      case Success(repo) =>
        var rest := CreateForRepo(session, form, repo, github, parsers, broker);
        CreateAfterRepoLookup(session, form, repo, github, parsers, broker);
        Outcome(rest.response, [repoLookup] + rest.calls)
  }

  // ---------------------------------------------------------------------------
  // project_delete, project_update, project_show
  // ---------------------------------------------------------------------------

  /** `str::parse` into `String`: infallible, the text itself. */
  function ParseAsText(s: string): (r: Option<DeleteId>)
    ensures r == Some(TextId(s))
  {
    Some(TextId(s))
  }

  /** `str::parse::<u64>`, as a `ProjectDelete` id. */
  function ParseAsNumber(s: string): (r: Option<DeleteId>)
    ensures r.Some? <==> ParseU64(s).Some?
    ensures r.Some? ==> r.value == NumericId(ParseU64(s).value)
  {
    match ParseU64(s)
    case Some(n) => Some(NumericId(n))
    case None => None
  }

  /**
   * `project_delete`: delete a project in the name of the requester. The id's
   * target type is not fixed by the handler, so its parser is a parameter
   * (`ParseAsText` or `ParseAsNumber`).
   */
  function HandleProjectDelete(
    session: Session, params: map<string, string>, parseId: string -> Option<DeleteId>, broker: Broker): (r: Outcome)
    ensures WellFormed(r)
    ensures r.calls == [] <==> "id" !in params || parseId(params["id"]).None?
    ensures r.calls == [] ==> r.response == Bare(BadRequest)
    ensures r.calls != [] ==>
      r.calls == [RouteProjectDelete(ProjectDelete(parseId(params["id"]).value, session.id))]
    ensures r.response.status == NoContent <==>
      r.calls != [] && broker.projectDelete(r.calls[0].projectDelete).Success?
    ensures r.response.status == NoContent ==> r.response == Bare(NoContent)
    ensures r.calls != [] && broker.projectDelete(r.calls[0].projectDelete).Failure? ==>
      r.response == RenderNetError(broker.projectDelete(r.calls[0].projectDelete).error)
  {
    if "id" !in params then Outcome(Bare(BadRequest), [])
    else match parseId(params["id"])
      case None => Outcome(Bare(BadRequest), [])
      case Some(id) =>
        var request := ProjectDelete(id, session.id);
        var calls := [RouteProjectDelete(request)];
        match broker.projectDelete(request)
        case Success(_) => Outcome(Bare(NoContent), calls)
        case Failure(err) => Outcome(RenderNetError(err), calls)
  }

  /**
   * `project_update`: send an update for the project named by the path, in the
   * name of the requester. The body is not read; the project carries only its id.
   */
  function HandleProjectUpdate(session: Session, params: map<string, string>, broker: Broker): (r: Outcome)
    ensures WellFormed(r)
    ensures r.calls == [] <==> "id" !in params
    ensures r.calls == [] ==> r.response == Bare(BadRequest)
    ensures r.calls != [] ==>
      r.calls == [RouteProjectUpdate(ProjectUpdate(session.id, ProjectWithId(params["id"])))]
    ensures r.response.status == NoContent <==>
      r.calls != [] && broker.projectUpdate(r.calls[0].projectUpdate).Success?
    ensures r.response.status == NoContent ==> r.response == Bare(NoContent)
    ensures r.calls != [] && broker.projectUpdate(r.calls[0].projectUpdate).Failure? ==>
      r.response == RenderNetError(broker.projectUpdate(r.calls[0].projectUpdate).error)
  {
    if "id" !in params then Outcome(Bare(BadRequest), [])
    else
      var id := params["id"];
      var project := ProjectWithId(id);
      var request := ProjectUpdate(session.id, project);
      var calls := [RouteProjectUpdate(request)];
      match broker.projectUpdate(request)
      case Success(_) => Outcome(Bare(NoContent), calls)
      case Failure(err) => Outcome(RenderNetError(err), calls)
  }

  /** `project_show`: read one project by its id, which is any string. */
  function HandleProjectShow(params: map<string, string>, broker: Broker): (r: Outcome)
    ensures WellFormed(r) && NoMutation(r.calls)
    ensures r.calls == [] <==> "id" !in params
    ensures r.calls == [] ==> r.response == Bare(BadRequest)
    ensures r.calls != [] ==> r.calls == [RouteProjectGet(ProjectGet(params["id"]))]
    ensures r.calls != [] ==>
      var reply := broker.projectGet(ProjectGet(params["id"]));
      r.response == if reply.Success? then RenderJson(Ok, ProjectPayload(reply.value)) else RenderNetError(reply.error)
  {
    if "id" !in params then Outcome(Bare(BadRequest), [])
    else
      var request := ProjectGet(params["id"]);
      var calls := [RouteProjectGet(request)];
      match broker.projectGet(request)
      case Success(project) => Outcome(RenderJson(Ok, ProjectPayload(project)), calls)
      case Failure(err) => Outcome(RenderNetError(err), calls)
  }
}
